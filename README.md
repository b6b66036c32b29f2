# BookNest core, modelled in Dafny

BookNest is a book-catalogue web application that exists in two generations.

- **The authenticated backend (`backend/`).** It stores users in MongoDB. Logging in takes two steps: a password check, which stores a six-digit one-time code (OTP) and emails it, then a code check, which issues an access token and a refresh token. Request guards read the `Authorization: Bearer <token>` header.
- **The file-era app (`modules/`).** It keeps users and books in JSON files (`data/users.json`, `data/books.json`). It also has a Mongoose-backed books model, and business layers written against a database-style model.

This project models the logic of both generations and proves what it promises:

- **The user document.** The OTP life cycle is issue, verify and clear. It also covers the profile, the schema's validators and defaults, and the "rehash the password only if it changed" save hook. See `user_document.dfy`.
- **The users collection.** It keeps email and username unique. See `user_collection.dfy`.
- **The backend business layer.** This covers register, login, code verification, refresh and fetch, and update and delete with the self-or-admin rule. See `auth_flow.dfy`.
- **The request guards.** These are `authenticate`, `authorize` and `optionalAuth`, plus the header parsing. See `auth_guards.dfy`.
- **The JSON-file stores.** Covers id allocation as max+1, first-match lookup, append, update and delete in place, and the favourites list. See `data_helpers.dfy`, `record_arrays.dfy`, `users_file.dfy` and `books_file.dfy`.
- **The catalogue.** Covers the filter query, the sort table, pagination, the object-id check, the error mapping and the schema bounds. See `books_catalog.dfy` and `pagination.dfy`.
- **Object ids.** Both Mongoose collections cast a query's `_id` before reading. A malformed id fails with the `CastError` message behind the operation's prefix. See `object_ids.dfy`.
- **The file-era business layers.** See `books_service.dfy` and `users_service.dfy`.

## What the model takes as inputs

Some things are outside the model and are passed in instead:
- The clock (`now`, in milliseconds) and the random draw (`draw < 900000`).
- Password comparison and hashing, token signing and verification, and whether the email was delivered.
- The schema's email regular expression and MongoDB's case-insensitive regex matching (`rx`).
- The year at which the book schema was loaded.
- Whether a file write succeeds (`writeOk`).

A file store is a class whose field is the file's array. A MongoDB collection is a class whose field is a map from `_id` to record. The two business layers under `modules/` import models that have no `find`, `findOne` or `findById`. Their logic is therefore run against these collections.

Where the project's written descriptions and its code disagree, the model follows the code:
- A deactivated account is refused with its own message, `Account is deactivated`. It is checked before the password.
- An expired code is not cleared by a failed check.
- A code is still accepted at the exact millisecond of its expiry.
- `registerUser` passes the whole body to `new User(...)`, so a registration may choose its own `role`.
- That body may also carry `otp` and `lastLogin`, both schema paths, and an update may set them too. A registration that carries a code and a later expiry passes `verify-otp` with that code, and gets tokens with no code ever generated or mailed (`AuthFlow.RegisterWithChosenCode`).

## Model

| member | source | states |
|---|---|---|
| DataHelpers.MaxId | modules/shared/utils/dataHelpers.js:28 | The maximum is defined exactly when every id is a number. It is at least every id and equal to one of them. |
| DataHelpers.NewId | modules/shared/utils/dataHelpers.js:27-29 | An empty array gives 1. Otherwise the new id is defined exactly when every id is numeric. It is then above every id and one more than some id. |
| DataHelpers.NewIdIsFresh | modules/shared/utils/dataHelpers.js:28 | A new id equals no stored record's id. |
| DataHelpers.NewIdOrderIndependent | modules/shared/utils/dataHelpers.js:28 | Two arrays with the same records allocate the same id, whatever their order. |
| Json.Spread | modules/users/users-model.js:57-62 | `{...a, ...b}` has the keys of both. A key of `b` takes `b`'s value; the other keys keep `a`'s. |
| RecordArrays.IndexOfFirst | modules/users/users-model.js:51 | `findIndex`: the first index whose field equals the value, or -1 exactly when none does. |
| RecordArrays.FindFirst | modules/users/users-model.js:14 | `find`: the record at that first index, or nothing exactly when no record matches. |
| RecordArrays.RemoveAt | modules/users/users-model.js:81 | `splice(i, 1)`: the elements before `i` stay in place, later ones move down by one, and exactly the element at `i` leaves the multiset. |
| RecordArrays.RemoveAll | modules/users/users-model.js:124 | `filter(x => x !== v)`: `v` no longer occurs, another value occurs in the result exactly when it occurred before, and the array does not grow. |
| RecordArrays.RemoveAllDistributes | modules/users/users-model.js:124 | Filtering a concatenation is concatenating the filtered parts. |
| RecordArrays.RemoveAllAbsent | modules/users/users-model.js:123-124 | Filtering out a value the array does not hold changes nothing. |
| UsersFile.GetUserById | modules/users/users-model.js:12-15 | Nothing is found exactly when no user has the numeric id. A found user has it, and no earlier user does: it is the first match. |
| UsersFile.GetUserByUsername | modules/users/users-model.js:18-21 | Nothing is found exactly when no user has that username. A found user is the first one that has it. |
| UsersFile.GetUserByEmail | modules/users/users-model.js:24-27 | Nothing is found exactly when no user has that email. A found user is the first one that has it. |
| UsersFile.NewUser | modules/users/users-model.js:34-38 | The new user has the data's keys plus `id` and `joinedDate`. An `id` or `joinedDate` in the data overrides the generated one. |
| UsersFile.MergedUser | modules/users/users-model.js:57-62 | The id is forced to the parsed one. `joinedDate` is the old one, or absent when the old user had none. Data keys override the old keys, and all other old keys are kept. |
| UsersFile.WithFavorite | modules/users/users-model.js:94-103 | Adding a favourite creates a missing list and appends the id only if it is absent. All other keys are untouched, and a value that is not an array fails. |
| UsersFile.AddFavoriteIdempotent | modules/users/users-model.js:101-103 | Adding the same favourite twice is the same as adding it once. |
| UsersFile.WithoutFavoriteSpec | modules/users/users-model.js:120-125 | Removing a favourite leaves the list filtered of that id and every other key unchanged. |
| UsersFile.WithoutFavorite | modules/users/users-model.js:120-125 | Fails exactly when the favourites value is truthy and not an array. Otherwise every key but `favoriteBooks` is kept, and a user whose list lacks the id comes back unchanged. |
| UsersFile.RemoveUndoesAdd | modules/users/users-model.js:86-125 | Removing a favourite that adding just appended gives back the original list. |
| UsersFile.UsersStore.AddNewUser | modules/users/users-model.js:30-46 | On a successful write the file gains exactly the new user at the end, and the call returns it. On a failed write the file is unchanged and the call returns null. |
| UsersFile.UsersStore.UpdateExistingUser | modules/users/users-model.js:49-70 | An absent id changes nothing. Otherwise only the first match is replaced by the merge, the length is kept, and users with other ids are untouched. |
| UsersFile.UsersStore.DeleteUser | modules/users/users-model.js:73-83 | An absent id gives false. Otherwise the first match is spliced out when the write succeeds, and the result is the write outcome. |
| UsersFile.UsersStore.AddFavoriteBook | modules/users/users-model.js:86-109 | Only the first user with the id changes, and becomes `WithFavorite` of itself. The result is null when there is no such user or the write fails. |
| UsersFile.UsersStore.RemoveFavoriteBook | modules/users/users-model.js:112-131 | Only the first user with the id changes, and becomes `WithoutFavorite` of itself. The result is null when there is no such user or the write fails. |
| BooksFile.GetBookById | modules/books/models/booksModel.js:34-37 | Nothing is found exactly when no book has that id. A found book is the first one that has it. |
| BooksFile.NewBook | modules/books/models/booksModel.js:44-49 | The new book has the data's keys plus `id`. An `id` in the data overrides the generated one. |
| BooksFile.ReplacedBook | modules/books/models/booksModel.js:69-72 | An update replaces the whole book: only the data's keys and `id` remain, and an `id` in the data wins. |
| BooksFile.NewBookIdFresh | modules/books/models/booksModel.js:44 | Without an `id` in the data, the new book's id clashes with no stored book. |
| BooksFile.BooksStore.AddNewBook | modules/books/models/booksModel.js:40-57 | On a successful write the file gains exactly the new book at the end. On a failed write it is unchanged and the call returns null. |
| BooksFile.BooksStore.UpdateExistingBook | modules/books/models/booksModel.js:60-80 | An absent id changes nothing. Otherwise the first match is replaced when the write succeeds. |
| BooksFile.BooksStore.DeleteBook | modules/books/models/booksModel.js:83-94 | An absent id gives false. Otherwise the first match is spliced out when the write succeeds. |
| Pagination.CeilDiv | modules/books/books-model.js:122 | `Math.ceil(total / limit)`: the least count of pages of `limit` that holds `total`. |
| Pagination.Skip | modules/books/books-model.js:105 | `(page-1)*limit` results come before page `page`, never a negative number, and the next page starts `limit` results later. |
| Pagination.Paginate | modules/books/books-model.js:118-127 | The record echoes the page and the total. `totalPages` is `CeilDiv(total, limit)`, `hasNext` holds exactly when `page * limit < total`, and `hasPrev` holds exactly for page > 1. |
| Pagination.Window | modules/books/books-model.js:106-113 | A page holds at most `limit` results. Its k-th result is the result at `(page-1)*limit + k`. |
| Pagination.WindowLength | modules/books/books-model.js:106-112 | A page is full, cut short by the end of the results, or empty past the end. |
| Pagination.HasNextIffBeforeLastPage | modules/books/books-model.js:122-124 | `page*limit < total` holds exactly when `page < totalPages`. |
| Pagination.HasNextIffNextPageNonEmpty | modules/books/books-model.js:124 | `hasNext` holds exactly when the next page of the same results is not empty. |
| Pagination.PagesUpToTotalAreNonEmpty | modules/books/books-model.js:122 | Every page from 1 to `totalPages` holds at least one result. |
| BooksCatalog.CreateValidationMeans | modules/books/books-model.js:4-43 | A new book passes exactly when title, author, genre, year and pages are present and within bounds: title and author 1 to 255 characters, genre 1 to 100, year in [1000, year at load], rating in [0, 5] (missing counts as 0), at least 1 page, description at most 1000. |
| ObjectIds.IsValidObjectId | modules/books/books-model.js:135 | `ObjectId.isValid` as Mongoose 6 (bson 4) decides it: twelve ASCII characters, or twenty-four hexadecimal digits. |
| ObjectIds.CastMessage | modules/books/books-business.js:78-85 | The `CastError` text names the value and the model, and is longer than both. |
| BooksCatalog.NewBook | modules/books/books-model.js:29-33 | The stored book carries the submitted fields, with `averageRating` defaulting to 0. |
| BooksCatalog.ApplyBookUpdate | modules/books/books-model.js:165-169 | An update sets the paths it carries and keeps every other path and the id. |
| BooksCatalog.UpdateKeepsBounds | modules/books/books-model.js:159-169 | An update that passes its validators keeps a book within the schema's bounds. `required` refuses a required text path set to `""`. |
| BooksCatalog.BookStore.FindById | modules/books/books-model.js:139 | A malformed id is a cast error. Otherwise the result is the stored book or null. |
| BooksCatalog.BookStore.Insert | modules/books/books-model.js:148-149 | Validation runs first, then the `_id` index, which gives error code 11000 for a taken id. Otherwise exactly the new book is added. |
| BooksCatalog.BookStore.FindByIdAndUpdate | modules/books/books-model.js:165-169 | The steps run in this order: id cast, then the validators of the given paths, then the lookup. Only that book changes. |
| BooksCatalog.BookStore.FindByIdAndDelete | modules/books/books-model.js:187 | After the id cast, the book is removed and returned, or null is returned. |
| BooksCatalog.QueryOfMeans | modules/books/books-model.js:61-84 | Each truthy filter adds exactly its condition (search: title or author; genre; author; minRating: `averageRating >= minRating`). Absent filters add nothing, so the query is empty exactly when no filter is given. |
| BooksCatalog.QueryOf | modules/books/books-model.js:61-84 | The query holds a condition for each truthy filter and nothing for the others; its meaning is stated by `QueryOfMeans`. |
| BooksCatalog.BuildQuery | modules/books/books-model.js:61-84 | The key-by-key construction yields the query that matches exactly the wanted books. |
| BooksCatalog.Select | modules/books/books-model.js:109-116 | A book is returned exactly when it is stored and matches the query. |
| BooksCatalog.SortFor | modules/books/books-model.js:87-103 | rating, year and pages sort by their numeric field, descending; author sorts by author, ascending; anything else sorts by title, ascending. |
| BooksCatalog.SelectKeepsOrder | modules/books/books-model.js:109-110 | Filtering a sorted collection leaves it sorted. |
| BooksCatalog.PageKeepsOrder | modules/books/books-model.js:109-113 | Every page of a sorted listing is sorted. |
| BooksCatalog.GetAllBooks | modules/books/books-model.js:58-131 | The page is the wanted books from `(page-1)*limit` onward in the store's order, each one wanted. The record counts all wanted books. The page is sorted whenever the store delivers sort order. |
| BooksCatalog.GetBookById | modules/books/books-model.js:133-144 | A malformed id fails with 'Invalid book ID format' before any lookup. Otherwise the result is the stored book or null. |
| BooksCatalog.AddNewBook | modules/books/books-model.js:146-157 | A duplicate key becomes 'Book with similar details already exists' without a prefix. Validation failures carry 'Error creating book: '. Otherwise exactly the new book is added. |
| BooksCatalog.UpdateExistingBook | modules/books/books-model.js:159-179 | The checks run in this order: id format, then validators, then 'Book not found'. Each failure carries the prefix and changes nothing. |
| BooksCatalog.DeleteBook | modules/books/books-model.js:181-197 | The checks run in this order: id format, then 'Book not found'. Otherwise exactly that book is removed. |
| BooksService.GetAllBooks | modules/books/books-business.js:3-76 | The query, sort table and pagination are the same as the model layer's, and `hasNext` holds exactly when `page < totalPages`. |
| BooksService.GetBookById | modules/books/books-business.js:78-85 | There is no id pre-check: a malformed id fails with the cast error, and a missing book is null, not an error. |
| BooksService.AddNewBook | modules/books/books-business.js:87-95 | Every failure, a duplicate key included, is the driver's message behind 'Error creating book: '. |
| BooksService.UpdateExistingBook | modules/books/books-business.js:97-113 | The steps run in this order: cast error, then validators, then 'Book not found'. Each failure carries 'Error updating book: '. |
| BooksService.DeleteBook | modules/books/books-business.js:115-127 | A cast error or 'Book not found' carries 'Error deleting book: '. Otherwise exactly that book is removed. |
| UserDocument.ParseRole | backend/modules/users/users-model.js:26-29 | Only 'admin' and 'user' are roles, and a parsed role renders back to its name. |
| UserDocument.ProfileOf | backend/modules/users/users-model.js:100-111 | The profile carries id, username, email, role, isVerified, isActive, createdAt and lastLogin. |
| UserDocument.ProfileHidesSecrets | backend/modules/users/users-model.js:99-111 | Users that differ only in password or OTP have the same profile. |
| UserDocument.CreateValidationMeans | backend/modules/users/users-model.js:4-30 | New user data passes exactly when all three of username, email and password are present: a username of 3 to 30 characters, an email matching the pattern, a password of at least 6. Any role must be in the enum. |
| UserDocument.UpdateValidationMeans | backend/modules/users/users-model.js:4-30 | Update data passes exactly when every path it sets meets its constraint: username 3 to 30 characters, a non-empty email matching the pattern, a password of at least 6, a role in the enum. Paths it leaves out are not checked. |
| UserDocument.NewUserRecord | backend/modules/users/users-model.js:26-56 | A new user has a hashed password and defaults of role user, isVerified false and isActive true. Its `otp` and `lastLogin` are whatever the data carries. |
| UserDocument.ApplyUpdate | backend/modules/users/users-business.js:165-169 | An update sets the given paths, `otp` and `lastLogin` included, and keeps the others, the id and createdAt. |
| UserDocument.DecimalRoundTrip | backend/modules/users/users-model.js:70 | `toString()` of a number yields digits that read back as that number. |
| UserDocument.DecimalLength | backend/modules/users/users-model.js:70 | A number between 10^k and 10^(k+1) renders with k+1 digits. |
| UserDocument.LeadingDigitNonZero | backend/modules/users/users-model.js:70 | A positive number's rendering has no leading zero. |
| UserDocument.OtpCodeIsSixDigits | backend/modules/users/users-model.js:70 | A code is six decimal digits without a leading zero, worth 100000 to 999999. |
| UserDocument.OtpCodeInjective | backend/modules/users/users-model.js:70 | Different draws give different codes. |
| UserDocument.AcceptedMeansStoredAndLive | backend/modules/users/users-model.js:82-92 | An accepted code is the stored, non-empty code, and the check happened no later than the expiry. |
| UserDocument.OtpAccepts | backend/modules/users/users-model.js:82-92 | `verifyOTP`: false without a challenge, a truthy code or an expiry, false when the expiry is before now, otherwise code equality; its meaning is stated by the lemmas below it. |
| UserDocument.IssuedOtpWindow | backend/modules/users/users-model.js:71-91 | A code issued at T is accepted at `now` exactly when it is the issued code and `now <= T + 600000`. |
| UserDocument.ClearedOtpRejects | backend/modules/users/users-model.js:83-97 | With no challenge stored, every code is refused at every time. |
| UserDocument.UserDoc.Create | backend/modules/users/users-model.js:26-45 | `new User(...)` applies the role, isVerified and isActive defaults, takes `otp` and `lastLogin` as given, and marks the password as modified. |
| UserDocument.UserDoc.GenerateOtp | backend/modules/users/users-model.js:69-79 | The returned code is stored with expiry `now + 600000`, replacing any earlier challenge. Nothing else changes. |
| UserDocument.UserDoc.VerifyOtp | backend/modules/users/users-model.js:82-92 | Accepts exactly when a non-empty stored code equals the input and the expiry is present and not before now; both directions are stated. It modifies nothing. |
| UserDocument.UserDoc.ClearOtp | backend/modules/users/users-model.js:95-97 | The challenge is removed, and afterwards every code is refused at every time. |
| UserDocument.UserDoc.GetProfile | backend/modules/users/users-model.js:100-111 | The profile of the document's current state. |
| UserDocument.UserDoc.PreSave | backend/modules/users/users-model.js:51-61 | The password is rehashed only when it was modified, and then the modification flag is cleared. |
| UserDocument.GenerateThenVerify | backend/modules/users/users-model.js:69-92 | `generateOTP()` returns the code of the draw, and `verifyOTP` on the same document accepts that code at any time up to its expiry. |
| UserCollection.StoreKeepsKeysUnique | backend/modules/users/users-model.js:5-20 | Storing a user that clashes with no other keeps emails and usernames unique. |
| UserCollection.UserStore.FindById | backend/modules/users/users-business.js:74-78 | A malformed id is a cast error. Otherwise the result is null exactly for an unknown id, or a fresh document of the stored user. |
| UserCollection.UserStore.FindOneByEmail | backend/modules/users/users-business.js:33 | The result is null exactly when no user has the email; otherwise a document of that user. |
| UserCollection.UserStore.Save | backend/modules/users/users-model.js:51-56 | The pre-save hook runs, then the document replaces the stored user with its id. |
| UserCollection.UserStore.FindByIdAndUpdate | backend/modules/users/users-business.js:165-169 | The steps run in this order: id cast, validators, the lookup, the unique indexes. Only that user changes, `otp` and `lastLogin` settable like any path, and uniqueness is kept. |
| UserCollection.UserStore.FindByIdAndDelete | backend/modules/users/users-business.js:188 | A malformed id is a cast error. Otherwise the user is removed and returned, or null is returned for an unknown id. |
| UserCollection.UserStore.Insert | backend/modules/users/users-business.js:20-21 | Validation runs first; on success exactly one new user is stored under the next counter id, which no stored user has. |
| AuthGuards.Split | backend/modules/shared/middlewares/auth.js:16 | `split(' ')` yields at least one piece, and no piece holds the separator. |
| AuthGuards.SplitJoin | backend/modules/shared/middlewares/auth.js:16 | Joining the pieces gives the string back. |
| AuthGuards.SplitHead | backend/modules/shared/middlewares/auth.js:16 | The first piece is the longest prefix without a separator. The remaining pieces are the split of what follows it. |
| AuthGuards.BearerToken | backend/modules/shared/middlewares/auth.js:9-16 | The token is the text after `Bearer ` up to the next space or the end, and holds no space. |
| AuthGuards.BearerTokenOf | backend/modules/shared/middlewares/auth.js:9-16 | The header `Bearer t`, optionally followed by a space and more text, yields exactly `t`. |
| AuthGuards.Authenticate | backend/modules/shared/middlewares/auth.js:4-37 | The request passes exactly when the header is a Bearer header whose token verifies, and then the user is attached. Otherwise it gets 401 with 'No token provided' or 'Invalid or expired token'. |
| AuthGuards.Authorize | backend/modules/shared/middlewares/auth.js:40-58 | The request passes exactly when it has a user whose role is listed. Otherwise it gets 401 without a user, or 403 naming the role. |
| AuthGuards.OptionalAuth | backend/modules/shared/middlewares/auth.js:61-78 | The request always passes. The user is set only from a verified Bearer token, and is otherwise left as it was. |
| AuthGuards.RoleGateDecision | backend/modules/shared/middlewares/auth.js:4-58 | Authenticate followed by authorize passes exactly for a verified token with an allowed role. It answers 403 exactly when the token verifies but the role is refused. |
| AuthGuards.RoleGate | backend/modules/shared/middlewares/auth.js:4-58 | `authenticate` then `authorize(...roles)` on one request; what it decides is stated by `RoleGateDecision`. |
| AuthFlow.RegisterUser | backend/modules/users/users-business.js:5-28 | A taken email or username, or a validation failure, fails with the prefix and changes nothing. Otherwise exactly one user, built from the schema fields of the data including any `otp` and `lastLogin`, is added under the next counter id and its profile is returned. |
| AuthFlow.LoginUser | backend/modules/users/users-business.js:30-70 | An unknown email and a wrong password fail alike; a deactivated account fails before the password check. A right password stores a fresh code, kept even if delivery fails; success returns only message, userId and email. |
| AuthFlow.VerifyOtp | backend/modules/users/users-business.js:72-106 | A malformed id fails with the cast error, a missing user or a refused code with their messages, and none of them changes anything. An accepted code is cleared and `lastLogin` is set to now before both tokens are issued. |
| AuthFlow.VerifyOtpTwice | backend/modules/users/users-business.js:81-90 | After a successful verification, the same code fails with 'Invalid or expired OTP' at any later time. |
| AuthFlow.RegisterWithChosenCode | backend/modules/users/users-business.js:5-106 | A registration whose data carries a non-empty code and a later expiry is followed by a successful code check with that code. |
| AuthFlow.GetUserById | backend/modules/users/users-business.js:134-146 | A malformed id gives the cast error behind 'Error fetching user: '. Otherwise the result is the profile of the user, or 'Error fetching user: User not found'. |
| AuthFlow.RefreshAccessToken | backend/modules/users/users-business.js:200-228 | Only a new access token is issued, for an existing user. The verifier's error or 'User not found' carries the prefix. |
| AuthFlow.AccessClaims | backend/modules/shared/utils/jwt.js:3-14 | The access token names the user's id, username and email, and carries the admin role exactly for an admin. |
| AuthFlow.StripUpdate | backend/modules/users/users-business.js:155-163 | A truthy password is always dropped, and a truthy role is dropped for non-admins. Everything else is kept. |
| AuthFlow.MayActOn | backend/modules/users/users-business.js:151-153 | A caller passes exactly when an admin or the user named by the id. A malformed id names nobody. |
| AuthFlow.UpdateUser | backend/modules/users/users-business.js:148-179 | A non-admin may update only their own id. Then come the cast error, the validators, 'User not found' and the unique indexes, in that order. The update may set `otp` and `lastLogin`. A successful update never changes the password, nor a non-admin's role. |
| AuthFlow.DeleteUser | backend/modules/users/users-business.js:181-198 | A non-admin may delete only their own id. Then a malformed id gives the cast error and an absent user fails; otherwise exactly that user is removed. |
| AuthFlow.Profiles | backend/modules/users/users-business.js:120 | Each listed user becomes its profile, in order. |
| AuthFlow.GetAllUsers | backend/modules/users/users-business.js:108-132 | The page holds the profiles of users `(page-1)*limit` onward: exactly `limit` of them, fewer at the end, none past it. The pagination record counts all users. |
| UsersService.PublicView | modules/users/users-business.js:8-11 | `select('-password')` keeps every stored field but the password. |
| UsersService.PublicViewHidesPassword | modules/users/users-business.js:8-11 | Users that differ only in password look the same. |
| UsersService.PublicViews | modules/users/users-business.js:8-11 | Each listed user is shown without password, in order. |
| UsersService.GetAllUsers | modules/users/users-business.js:4-28 | The page holds users `(page-1)*limit` onward, without passwords: exactly `limit` of them, fewer at the end, none past it. The pagination record counts all users. |
| UsersService.GetUserById | modules/users/users-business.js:31-38 | A malformed id gives the cast error behind 'Error fetching user: '. Otherwise the result is the user without password, or null, not an error. |
| UsersService.CreateUser | modules/users/users-business.js:41-63 | A taken email or username, or a validation failure, fails with 'Error creating user: '. Otherwise exactly one user, built from the schema fields of the data including any `otp` and `lastLogin`, is added under the next counter id and its profile is returned. |
| UsersService.DropPassword | modules/users/users-business.js:68-71 | Only a truthy password is dropped. The role and everything else is kept. |
| UsersService.UpdateUser | modules/users/users-business.js:66-87 | With no caller check, a malformed id gives the cast error; otherwise the update without its password, `otp` and `lastLogin` included, is applied. Success keeps the password. An absent user fails with 'User not found'. |
| UsersService.DeleteUser | modules/users/users-business.js:90-102 | A malformed id gives the cast error and an absent user fails with 'User not found'. Otherwise exactly that user is removed. |
| UsersService.LoginUser | modules/users/users-business.js:105-123 | An unknown email and a wrong password both fail with 'Invalid email or password'. A right password returns the profile, with no activity check and no OTP. Nothing is written. |

## Left out

- File and database I/O are not modelled. A read error or a malformed file (`readDataFromFile` returning `[]`) and the write itself become the store's content and the `writeOk` flag. MongoDB's regex matching and sort execution are inputs (`rx`, and the collection in sort order).
- Each store operation runs as one atomic step. Interleavings are out, including the read-check-clear race between two simultaneous code verifications.
- Timestamps are out: `createdAt`/`updatedAt` and the `__v` key.
- Mongoose setters are not modelled: `trim` and `lowercase` on strings. Validators see the value as given. Mongoose also applies these setters to query values, so `findOne({ email })` at login (modules/users/users-business.js:107, backend/modules/users/users-business.js:33) and the username/email conflict check of registration and user creation (backend/modules/users/users-business.js:8, modules/users/users-business.js:44) find a stored `a@x.com` when given `A@X.COM`. The model compares strings as given, in these queries and in the unique index alike, so it finds nothing there and stores a second user whose email differs from the first only in case.
- `parseInt` and `parseFloat` are not modelled. Ids, `page` and `limit` are integers, with `page` and `limit` at least 1. `minRating` is the number parsed from a truthy value. A NaN from parsing is not modelled.
- DataHelpers.MaxId: `Math.max` coerces a non-number id to a number: a numeric string or `""`, `null` (to 0) and the booleans (to 0 and 1). The model treats any non-number id as NaN. A NaN id is written to the file as `null`, so in the source the next allocation recovers (`Math.max(null, 3) + 1` is 4), while in the model every later allocation from that file stays NaN.
- UsersFile.WithFavorite: a truthy `favoriteBooks` that is not an array always fails. The model ignores that a string value has its own `includes`.
- UsersFile.WithoutFavoriteSpec: for the same reason, a string value's `includes` is not modelled.
- The `catch` blocks of the guards (`Authentication failed.`) are not modelled, because the verifier is total and never throws.
- The catch-all `Error fetching books: ` / `Error fetching users: ` failures come only from the database, which the model does not let fail.
- Token contents and lifetimes, password hashing strength, and email delivery are opaque inputs. No property of a hash is assumed.
- Object ids of the users collection come from a counter. A new book's `_id` is an input that must be a valid object id.
- AuthFlow.RegisterUser, UsersService.CreateUser and UserCollection.UserStore.Insert: both registration paths pass the whole request body to `new User(userData)` (backend/modules/users/users-business.js:20, modules/users/users-business.js:55). The model's user data has no `_id` and no `createdAt`, so a body-chosen value of either is ignored. The user always gets the next counter id and `createdAt` is the time of the insert. The model therefore misses three outcomes of the source: the E11000 failure of a taken body `_id` ("Registration failed: E11000 …", "Error creating user: E11000 …"), the "User validation failed: _id: Cast to ObjectId failed …" failure of a malformed one, and the body's `createdAt` kept by the timestamps hook and returned by `getProfile`.
- A user id a request carries is either an id that casts or a malformed string. Which strings denote which id is not modelled. So the self-check `currentUser.id !== id` compares ids, and the model does not capture that two spellings of one object id (upper- and lower-case hex) would differ as strings.
- AuthFlow.RefreshAccessToken: the id of a verified refresh token is one the server signed, so its cast never fails in the model.
- UserCollection.DuplicateKeyMessage is only the start of the driver's E11000 message. The driver goes on with the collection, the index and the duplicate key, so every duplicate-key failure in the model is shorter than the real one.
- `hash` is a function of the password alone. bcrypt draws a fresh salt for every hash, so the stored hash of the same password differs from save to save. No property of the model depends on two hashes being equal.
- The request validators of the routes (`validateUser`, `validateOTP`) are not part of this model. The business functions take the body as it stands.
- The CastError message text is the one of Mongoose 6 and later.
- ObjectIds.IsValidObjectId: this is the test of Mongoose 6 (bson 4). Mongoose 7 and later (bson 5 and later) accept only the twenty-four-hex-digit form, so there a twelve-character id is malformed. A twelve-character string with non-ASCII characters counts its UTF-8 bytes in bson 4; the model treats any such string as malformed.
- BooksCatalog.BookStore: the book map is keyed by the id string as given. MongoDB stores the twelve bytes an id denotes, so two spellings of one object id are the same `_id`: upper- and lower-case hex digits, or a twelve-character id and its twenty-four-digit hex form. The model treats such spellings as different keys. It then misses a lookup, update or delete made under another spelling, and misses the 11000 error on an `Insert` under another spelling of a taken id.
- UserDocument.ValidationErrors: `minlength` and `maxlength` count the UTF-16 code units of a JavaScript string. The model counts Unicode scalar values, so a string with characters outside the Basic Multilingual Plane passes a bound in the model that it fails in the source.
- BooksCatalog.BookErrors: lengths are counted as for UserDocument.ValidationErrors. `publicationYear` and `pages` are integers, while the schema's `Number` also accepts a fraction such as 2.5 pages. The "Cast to Number failed" error for a non-numeric value is not modelled, because the model's fields are already numbers.
- The frontend, the route files (which map error messages to HTTP statuses), the express-validator middlewares, `jwt.js`, `emailService.js` and the bootstrap files are not part of this model.
