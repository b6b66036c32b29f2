/** The Mongoose books model (modules/books/books-model.js): the `Book`
    schema with its validators, the collection behind it, the listing query
    `getAllBooks` builds, and the id check and error mapping of the
    single-book operations. Regular-expression matching is an input `rx`:
    `rx(pattern, text)` is "the case-insensitive regex `pattern` matches
    somewhere in `text`". MongoDB executes the sort; the listing takes the
    collection in the order the sort descriptor asks for. */
module BooksCatalog {
  import opened Wrappers
  import opened Pagination
  import opened ObjectIds
  import UserDocument
  import UserCollection

  // ---------------------------------------------------------------------
  // The schema (lines 4-46).

  /** A stored book; `id` is its `_id`. */
  datatype Book = Book(
    id: string,
    title: string,
    author: string,
    genre: string,
    publicationYear: int,
    averageRating: real,
    numberOfPages: int,
    description: Option<string>)

  /** The book fields of a request body; `None` for an absent field. */
  datatype BookData = BookData(
    title: Option<string>,
    author: Option<string>,
    genre: Option<string>,
    publicationYear: Option<int>,
    averageRating: Option<real>,
    numberOfPages: Option<int>,
    description: Option<string>)

  /** The messages of a string path with `required` and `maxlength`.
      A create runs `required` on an absent value; an update validates only
      the paths it sets, and `required` refuses one it sets to `""`. */
  function TextErrors(path: string, v: Option<string>, onCreate: bool, requiredMessage: string,
                      maxLength: nat, tooLongMessage: string): seq<string>
  {
    if v.None? then (if onCreate then [path + ": " + requiredMessage] else [])
    else if v.value == "" then [path + ": " + requiredMessage]
    else if |v.value| > maxLength then [path + ": " + tooLongMessage]
    else []
  }

  /** `publicationYear`: required, at least 1000, at most the year the
      schema was built in (`new Date().getFullYear()` is evaluated once, when
      the module loads). */
  function YearErrors(v: Option<int>, onCreate: bool, yearAtLoad: int): seq<string>
  {
    if v.None? then (if onCreate then ["publicationYear: Publication year is required"] else [])
    else if v.value < 1000 then ["publicationYear: Publication year must be at least 1000"]
    else if v.value > yearAtLoad then ["publicationYear: Publication year cannot be in the future"]
    else []
  }

  function RatingErrors(v: Option<real>): seq<string>
  {
    if v.None? then []
    else if v.value < 0.0 then ["averageRating: Rating cannot be less than 0"]
    else if v.value > 5.0 then ["averageRating: Rating cannot exceed 5"]
    else []
  }

  function PagesErrors(v: Option<int>, onCreate: bool): seq<string>
  {
    if v.None? then (if onCreate then ["numberOfPages: Number of pages is required"] else [])
    else if v.value < 1 then ["numberOfPages: Book must have at least 1 page"]
    else []
  }

  function DescriptionErrors(v: Option<string>): seq<string>
  {
    if v.Some? && |v.value| > 1000 then ["description: Description cannot exceed 1000 characters"] else []
  }

  /** Every failing path's message, in schema order. */
  function BookErrors(d: BookData, onCreate: bool, yearAtLoad: int): seq<string>
  {
    TextErrors("title", d.title, onCreate, "Book title is required", 255, "Title cannot exceed 255 characters")
    + TextErrors("author", d.author, onCreate, "Author name is required", 255, "Author name cannot exceed 255 characters")
    + TextErrors("genre", d.genre, onCreate, "Genre is required", 100, "Genre cannot exceed 100 characters")
    + YearErrors(d.publicationYear, onCreate, yearAtLoad)
    + RatingErrors(d.averageRating)
    + PagesErrors(d.numberOfPages, onCreate)
    + DescriptionErrors(d.description)
  }

  /** The schema's bounds on a value a book may hold. */
  predicate WithinBounds(title: string, author: string, genre: string, year: int, rating: real,
                         pages: int, description: Option<string>, yearAtLoad: int)
  {
    0 < |title| <= 255 && 0 < |author| <= 255 && 0 < |genre| <= 100 &&
    1000 <= year <= yearAtLoad && 0.0 <= rating <= 5.0 && pages >= 1 &&
    (description.Some? ==> |description.value| <= 1000)
  }

  predicate StoredWithinBounds(b: Book, yearAtLoad: int)
  {
    WithinBounds(b.title, b.author, b.genre, b.publicationYear, b.averageRating, b.numberOfPages,
                 b.description, yearAtLoad)
  }

  /** A book passes the validators of `new Book(d).save()` exactly when the
      required fields are present and every field is within its bounds,
      the missing rating counting as its default 0. */
  lemma CreateValidationMeans(d: BookData, yearAtLoad: int)
    ensures BookErrors(d, true, yearAtLoad) == [] <==>
            d.title.Some? && d.author.Some? && d.genre.Some? &&
            d.publicationYear.Some? && d.numberOfPages.Some? &&
            WithinBounds(d.title.value, d.author.value, d.genre.value, d.publicationYear.value,
                         if d.averageRating.Some? then d.averageRating.value else 0.0,
                         d.numberOfPages.value, d.description, yearAtLoad)
  {
  }

  /** The book `new Book(d)` stores, `averageRating` defaulting to 0. */
  function NewBook(id: string, d: BookData): (b: Book)
    requires d.title.Some? && d.author.Some? && d.genre.Some? && d.publicationYear.Some? && d.numberOfPages.Some?
    ensures b.id == id && b.title == d.title.value && b.author == d.author.value && b.genre == d.genre.value
    ensures b.publicationYear == d.publicationYear.value && b.numberOfPages == d.numberOfPages.value
    ensures b.averageRating == (if d.averageRating.Some? then d.averageRating.value else 0.0)
    ensures b.description == d.description
  {
    Book(id, d.title.value, d.author.value, d.genre.value, d.publicationYear.value,
         if d.averageRating.Some? then d.averageRating.value else 0.0,
         d.numberOfPages.value, d.description)
  }

  /** `findByIdAndUpdate(id, d)`: set the paths `d` carries, keep the others. */
  function ApplyBookUpdate(b: Book, d: BookData): (v: Book)
    ensures v.id == b.id
    ensures v.title == (if d.title.Some? then d.title.value else b.title)
    ensures v.author == (if d.author.Some? then d.author.value else b.author)
    ensures v.genre == (if d.genre.Some? then d.genre.value else b.genre)
    ensures v.publicationYear == (if d.publicationYear.Some? then d.publicationYear.value else b.publicationYear)
    ensures v.averageRating == (if d.averageRating.Some? then d.averageRating.value else b.averageRating)
    ensures v.numberOfPages == (if d.numberOfPages.Some? then d.numberOfPages.value else b.numberOfPages)
    ensures v.description == (if d.description.Some? then d.description else b.description)
  {
    b.(title := if d.title.Some? then d.title.value else b.title,
       author := if d.author.Some? then d.author.value else b.author,
       genre := if d.genre.Some? then d.genre.value else b.genre,
       publicationYear := if d.publicationYear.Some? then d.publicationYear.value else b.publicationYear,
       averageRating := if d.averageRating.Some? then d.averageRating.value else b.averageRating,
       numberOfPages := if d.numberOfPages.Some? then d.numberOfPages.value else b.numberOfPages,
       description := if d.description.Some? then d.description else b.description)
  }

  /** An update that passes its validators keeps a book within the schema's bounds. */
  lemma {:induction false} UpdateKeepsBounds(b: Book, d: BookData, yearAtLoad: int)
    requires StoredWithinBounds(b, yearAtLoad) && BookErrors(d, false, yearAtLoad) == []
    ensures StoredWithinBounds(ApplyBookUpdate(b, d), yearAtLoad)
  {
    assert TextErrors("title", d.title, false, "Book title is required", 255, "Title cannot exceed 255 characters") == [];
    assert TextErrors("author", d.author, false, "Author name is required", 255, "Author name cannot exceed 255 characters") == [];
    assert TextErrors("genre", d.genre, false, "Genre is required", 100, "Genre cannot exceed 100 characters") == [];
    assert YearErrors(d.publicationYear, false, yearAtLoad) == [];
    assert RatingErrors(d.averageRating) == [];
    assert PagesErrors(d.numberOfPages, false) == [];
    assert DescriptionErrors(d.description) == [];
  }

  // ---------------------------------------------------------------------
  // Error messages; object ids and their cast message are in `ObjectIds`.

  /** The message of the `ValidationError` of `save()` and of a `runValidators` update. */
  function ValidationMessage(d: BookData, onCreate: bool, yearAtLoad: int): string
  {
    (if onCreate then "Book validation failed: " else "Validation failed: ") + UserDocument.JoinMessages(BookErrors(d, onCreate, yearAtLoad))
  }

  /** A failed database call: the driver's error `code` (none for validation
      and cast errors) and its message. */
  datatype DbOutcome<T> = Done(value: T) | DbError(code: Option<int>, message: string)

  const DuplicateKeyCode: int := 11000

  /** The `books` collection. */
  class BookStore {
    var books: map<string, Book>

    ghost predicate Valid()
      reads this
    {
      forall id :: id in books ==> books[id].id == id && IsValidObjectId(id)
    }

    constructor ()
      ensures Valid() && books == map[]
    {
      books := map[];
    }

    /** `Book.findById(id)`. */
    method FindById(id: string) returns (r: DbOutcome<Option<Book>>)
      ensures !IsValidObjectId(id) ==> r == DbError(None, CastMessage("Book", id))
      ensures IsValidObjectId(id) ==> r == Done(if id in books then Some(books[id]) else None)
    {
      if !IsValidObjectId(id) {
        return DbError(None, CastMessage("Book", id));
      }
      r := Done(if id in books then Some(books[id]) else None);
    }

    /** `new Book(d).save()` with `newId` the `_id` the driver generated:
        the validators first, then the insert, which the unique `_id` index
        refuses when the id is taken. */
    method Insert(d: BookData, newId: string, yearAtLoad: int) returns (r: DbOutcome<Book>)
      requires Valid() && IsValidObjectId(newId)
      modifies this
      ensures Valid()
      ensures BookErrors(d, true, yearAtLoad) != [] ==>
                r == DbError(None, ValidationMessage(d, true, yearAtLoad)) &&
                books == old(books)
      ensures BookErrors(d, true, yearAtLoad) == [] && newId in old(books) ==>
                r == DbError(Some(DuplicateKeyCode), UserCollection.DuplicateKeyMessage) && books == old(books)
      ensures BookErrors(d, true, yearAtLoad) == [] && newId !in old(books) ==>
                r == Done(NewBook(newId, d)) && books == old(books)[newId := NewBook(newId, d)]
    {
      var errors := BookErrors(d, true, yearAtLoad);
      if errors != [] {
        return DbError(None, ValidationMessage(d, true, yearAtLoad));
      }
      if newId in books {
        return DbError(Some(DuplicateKeyCode), UserCollection.DuplicateKeyMessage);
      }
      var book := NewBook(newId, d);
      books := books[newId := book];
      r := Done(book);
    }

    /** `Book.findByIdAndUpdate(id, d, {new: true, runValidators: true})`:
        the id is cast first, then the validators of the given paths run,
        then the lookup. `Done(None)` is the `null` of a missing book. */
    method FindByIdAndUpdate(id: string, d: BookData, yearAtLoad: int) returns (r: DbOutcome<Option<Book>>)
      requires Valid()
      modifies this
      ensures Valid()
      ensures !IsValidObjectId(id) ==> r == DbError(None, CastMessage("Book", id)) && books == old(books)
      ensures IsValidObjectId(id) && BookErrors(d, false, yearAtLoad) != [] ==>
                r == DbError(None, ValidationMessage(d, false, yearAtLoad)) &&
                books == old(books)
      ensures IsValidObjectId(id) && BookErrors(d, false, yearAtLoad) == [] && id !in old(books) ==>
                r == Done(None) && books == old(books)
      ensures IsValidObjectId(id) && BookErrors(d, false, yearAtLoad) == [] && id in old(books) ==>
                r == Done(Some(ApplyBookUpdate(old(books)[id], d))) &&
                books == old(books)[id := ApplyBookUpdate(old(books)[id], d)]
    {
      if !IsValidObjectId(id) {
        return DbError(None, CastMessage("Book", id));
      }
      var errors := BookErrors(d, false, yearAtLoad);
      if errors != [] {
        return DbError(None, ValidationMessage(d, false, yearAtLoad));
      }
      if id !in books {
        return Done(None);
      }
      var updated := ApplyBookUpdate(books[id], d);
      books := books[id := updated];
      r := Done(Some(updated));
    }

    /** `Book.findByIdAndDelete(id)`: the removed book, or `null`. */
    method FindByIdAndDelete(id: string) returns (r: DbOutcome<Option<Book>>)
      requires Valid()
      modifies this
      ensures Valid()
      ensures !IsValidObjectId(id) ==> r == DbError(None, CastMessage("Book", id)) && books == old(books)
      ensures IsValidObjectId(id) && id !in old(books) ==> r == Done(None) && books == old(books)
      ensures IsValidObjectId(id) && id in old(books) ==> r == Done(Some(old(books)[id])) && books == old(books) - {id}
    {
      if !IsValidObjectId(id) {
        return DbError(None, CastMessage("Book", id));
      }
      if id !in books {
        return Done(None);
      }
      r := Done(Some(books[id]));
      books := books - {id};
    }
  }

  // ---------------------------------------------------------------------
  // The listing query (lines 58-127).

  /** The listing filters of a request. A text filter counts only when it
      is truthy, so an empty string is no filter; `minRating` is the number
      `parseFloat` made of a truthy value. */
  datatype Filters = Filters(search: Option<string>, genre: Option<string>, author: Option<string>, minRating: Option<real>)

  /** The query descriptor: `$or` over title and author, `genre`, `author`
      and `averageRating: {$gte}`; `None` for a key the query does not set. */
  datatype Query = Query(titleOrAuthor: Option<string>, genre: Option<string>, author: Option<string>, minRating: Option<real>)

  const EmptyQuery := Query(None, None, None, None)

  predicate Supplied(v: Option<string>)
  {
    v.Some? && v.value != ""
  }

  /** A book satisfies every condition the query sets. */
  predicate Matches(q: Query, b: Book, rx: (string, string) -> bool)
  {
    (q.titleOrAuthor.Some? ==> rx(q.titleOrAuthor.value, b.title) || rx(q.titleOrAuthor.value, b.author)) &&
    (q.genre.Some? ==> rx(q.genre.value, b.genre)) &&
    (q.author.Some? ==> rx(q.author.value, b.author)) &&
    (q.minRating.Some? ==> b.averageRating >= q.minRating.value)
  }

  /** What the listing promises of a book, stated on the filters themselves. */
  predicate Wanted(f: Filters, b: Book, rx: (string, string) -> bool)
  {
    (Supplied(f.search) ==> rx(f.search.value, b.title) || rx(f.search.value, b.author)) &&
    (Supplied(f.genre) ==> rx(f.genre.value, b.genre)) &&
    (Supplied(f.author) ==> rx(f.author.value, b.author)) &&
    (f.minRating.Some? ==> b.averageRating >= f.minRating.value)
  }

  /** The query the filters produce. */
  function QueryOf(f: Filters): Query
  {
    Query(if Supplied(f.search) then f.search else None,
          if Supplied(f.genre) then f.genre else None,
          if Supplied(f.author) then f.author else None,
          f.minRating)
  }

  /** Each supplied filter adds its condition and absent filters add none:
      the query matches exactly the wanted books, and it is empty exactly
      when no filter is supplied. */
  lemma QueryOfMeans(f: Filters)
    ensures forall b, rx :: Matches(QueryOf(f), b, rx) <==> Wanted(f, b, rx)
    ensures QueryOf(f) == EmptyQuery <==> !Supplied(f.search) && !Supplied(f.genre) && !Supplied(f.author) && f.minRating.None?
  {
  }

  /** Building the query one key at a time, as the listing does. */
  method BuildQuery(f: Filters) returns (q: Query)
    ensures q == QueryOf(f)
    ensures forall b, rx :: Matches(q, b, rx) <==> Wanted(f, b, rx)
  {
    q := EmptyQuery;
    if Supplied(f.search) {
      q := q.(titleOrAuthor := f.search);
    }
    if Supplied(f.genre) {
      q := q.(genre := f.genre);
    }
    if Supplied(f.author) {
      q := q.(author := f.author);
    }
    if f.minRating.Some? {
      q := q.(minRating := f.minRating);
    }
    QueryOfMeans(f);
  }

  /** The books of `books` the query matches, in their order. */
  function Select(books: seq<Book>, q: Query, rx: (string, string) -> bool): (r: seq<Book>)
    ensures forall b :: b in r <==> b in books && Matches(q, b, rx)
    ensures |r| <= |books|
  {
    if books == [] then []
    else if Matches(q, books[0], rx) then [books[0]] + Select(books[1..], q, rx)
    else Select(books[1..], q, rx)
  }

  // ---------------------------------------------------------------------
  // Sorting (lines 87-103).

  datatype SortField = ByRating | ByYear | ByPages | ByAuthor | ByTitle
  datatype Direction = Ascending | Descending
  datatype SortSpec = SortSpec(field: SortField, direction: Direction)

  /** The `switch (sortBy)` table. */
  function SortFor(sortBy: string): (s: SortSpec)
    ensures s.field == ByRating <==> sortBy == "rating"
    ensures s.field == ByYear <==> sortBy == "year"
    ensures s.field == ByPages <==> sortBy == "pages"
    ensures s.field == ByAuthor <==> sortBy == "author"
    ensures s.direction == Descending <==> s.field in {ByRating, ByYear, ByPages}
  {
    if sortBy == "rating" then SortSpec(ByRating, Descending)
    else if sortBy == "year" then SortSpec(ByYear, Descending)
    else if sortBy == "pages" then SortSpec(ByPages, Descending)
    else if sortBy == "author" then SortSpec(ByAuthor, Ascending)
    else SortSpec(ByTitle, Ascending)
  }

  /** Binary string order. */
  predicate LexLe(a: string, b: string)
  {
    if a == [] then true
    else if b == [] then false
    else if a[0] != b[0] then a[0] < b[0]
    else LexLe(a[1..], b[1..])
  }

  /** `a` may come before `b` under the sort. */
  predicate InOrder(s: SortSpec, a: Book, b: Book)
  {
    match s.field
    case ByRating => a.averageRating >= b.averageRating
    case ByYear => a.publicationYear >= b.publicationYear
    case ByPages => a.numberOfPages >= b.numberOfPages
    case ByAuthor => LexLe(a.author, b.author)
    case ByTitle => LexLe(a.title, b.title)
  }

  predicate Ordered(s: SortSpec, books: seq<Book>)
  {
    forall i, j :: 0 <= i < j < |books| ==> InOrder(s, books[i], books[j])
  }

  /** Filtering keeps the order of what it keeps. */
  lemma {:induction false} SelectKeepsOrder(s: SortSpec, books: seq<Book>, q: Query, rx: (string, string) -> bool)
    requires Ordered(s, books)
    ensures Ordered(s, Select(books, q, rx))
  {
    if books != [] {
      var rest := books[1..];
      assert Ordered(s, rest) by {
        forall i, j | 0 <= i < j < |rest| ensures InOrder(s, rest[i], rest[j]) {
          assert rest[i] == books[i + 1] && rest[j] == books[j + 1];
        }
      }
      SelectKeepsOrder(s, rest, q, rx);
      if Matches(q, books[0], rx) {
        var r := Select(books, q, rx);
        forall i, j | 0 <= i < j < |r| ensures InOrder(s, r[i], r[j]) {
          if i == 0 {
            assert r[j] in Select(rest, q, rx);
            assert r[j] in rest;
            var k :| 0 <= k < |rest| && rest[k] == r[j];
            assert books[k + 1] == r[j];
          } else {
            assert r[i] == Select(rest, q, rx)[i - 1] && r[j] == Select(rest, q, rx)[j - 1];
          }
        }
      }
    }
  }

  /** A page of a listing the store delivered in sort order is in sort order. */
  lemma PageKeepsOrder(s: SortSpec, books: seq<Book>, q: Query, rx: (string, string) -> bool, page: int, limit: int)
    requires page >= 1 && limit >= 1 && Ordered(s, books)
    ensures Ordered(s, Window(Select(books, q, rx), page, limit))
  {
    SelectKeepsOrder(s, books, q, rx);
    WindowKeepsOrder(s, Select(books, q, rx), page, limit);
  }

  lemma WindowKeepsOrder(s: SortSpec, m: seq<Book>, page: int, limit: int)
    requires page >= 1 && limit >= 1 && Ordered(s, m)
    ensures Ordered(s, Window(m, page, limit))
  {
    var w := Window(m, page, limit);
    var from := Skip(page, limit);
    forall i, j | 0 <= i < j < |w| ensures InOrder(s, w[i], w[j]) {
      assert w[i] == m[from + i] && w[j] == m[from + j];
      assert 0 <= from + i < from + j < |m|;
    }
  }

  // ---------------------------------------------------------------------
  // The operations.

  const InvalidIdMessage := "Invalid book ID format"
  const NotFoundMessage := "Book not found"
  const DuplicateBookMessage := "Book with similar details already exists"
  const DeletedMessage := "Book deleted successfully"

  /** `getAllBooks(filters, page, limit, sortBy)`. `sorted` is the
      collection in the order the returned sort descriptor asks for. The
      page is the `(page - 1) * limit`-th to the `page * limit`-th wanted
      book of that order; the pagination record counts every wanted book. */
  method GetAllBooks(sorted: seq<Book>, f: Filters, page: int, limit: int, sortBy: string,
                     rx: (string, string) -> bool)
    returns (books: seq<Book>, pagination: PageInfo, sort: SortSpec)
    requires page >= 1 && limit >= 1
    ensures sort == SortFor(sortBy)
    ensures forall b :: b in books ==> b in sorted && Wanted(f, b, rx)
    ensures books == Window(Select(sorted, QueryOf(f), rx), page, limit)
    ensures pagination == Paginate(|Select(sorted, QueryOf(f), rx)|, page, limit)
    ensures Ordered(sort, sorted) ==> Ordered(sort, books)
  {
    var query := BuildQuery(f);
    sort := SortFor(sortBy);
    var matches := Select(sorted, query, rx);
    books := Window(matches, page, limit);
    forall b | b in books ensures b in sorted && Wanted(f, b, rx) {
      var k :| 0 <= k < |books| && books[k] == b;
      assert b == matches[Skip(page, limit) + k];
    }
    if Ordered(sort, sorted) {
      PageKeepsOrder(sort, sorted, query, rx, page, limit);
    }
    pagination := Paginate(|matches|, page, limit);
  }

  /** `getBookByID(id)`: a malformed id is refused before any lookup. */
  method GetBookById(store: BookStore, id: string) returns (r: Result<Option<Book>>)
    ensures !IsValidObjectId(id) ==> r == Failure("Error fetching book: " + InvalidIdMessage)
    ensures IsValidObjectId(id) ==> r == Success(if id in store.books then Some(store.books[id]) else None)
  {
    if !IsValidObjectId(id) {
      return Failure("Error fetching book: " + InvalidIdMessage);
    }
    var found := store.FindById(id);
    r := Success(found.value);
  }

  /** `addNewBook(bookData)`: a duplicate key becomes its own message
      without the operation prefix; every other failure carries it. */
  method AddNewBook(store: BookStore, d: BookData, newId: string, yearAtLoad: int) returns (r: Result<Book>)
    requires store.Valid() && IsValidObjectId(newId)
    modifies store
    ensures store.Valid()
    ensures BookErrors(d, true, yearAtLoad) != [] ==>
              r == Failure("Error creating book: " + ValidationMessage(d, true, yearAtLoad)) &&
              store.books == old(store.books)
    ensures BookErrors(d, true, yearAtLoad) == [] && newId in old(store.books) ==>
              r == Failure(DuplicateBookMessage) && store.books == old(store.books)
    ensures BookErrors(d, true, yearAtLoad) == [] && newId !in old(store.books) ==>
              r == Success(NewBook(newId, d)) && store.books == old(store.books)[newId := NewBook(newId, d)]
  {
    var saved := store.Insert(d, newId, yearAtLoad);
    if saved.DbError? {
      if saved.code == Some(DuplicateKeyCode) {
        return Failure(DuplicateBookMessage);
      }
      return Failure("Error creating book: " + saved.message);
    }
    r := Success(saved.value);
  }

  /** `updateExistingBook(id, bookData)`: the id check, then the update's
      validators, then 'Book not found'; every failure carries the prefix. */
  method UpdateExistingBook(store: BookStore, id: string, d: BookData, yearAtLoad: int) returns (r: Result<Book>)
    requires store.Valid()
    modifies store
    ensures store.Valid()
    ensures !IsValidObjectId(id) ==> r == Failure("Error updating book: " + InvalidIdMessage) && store.books == old(store.books)
    ensures IsValidObjectId(id) && BookErrors(d, false, yearAtLoad) != [] ==>
              r == Failure("Error updating book: " + ValidationMessage(d, false, yearAtLoad)) &&
              store.books == old(store.books)
    ensures IsValidObjectId(id) && BookErrors(d, false, yearAtLoad) == [] && id !in old(store.books) ==>
              r == Failure("Error updating book: " + NotFoundMessage) && store.books == old(store.books)
    ensures IsValidObjectId(id) && BookErrors(d, false, yearAtLoad) == [] && id in old(store.books) ==>
              r == Success(ApplyBookUpdate(old(store.books)[id], d)) &&
              store.books == old(store.books)[id := ApplyBookUpdate(old(store.books)[id], d)]
  {
    if !IsValidObjectId(id) {
      return Failure("Error updating book: " + InvalidIdMessage);
    }
    var updated := store.FindByIdAndUpdate(id, d, yearAtLoad);
    if updated.DbError? {
      return Failure("Error updating book: " + updated.message);
    }
    if updated.value.None? {
      return Failure("Error updating book: " + NotFoundMessage);
    }
    r := Success(updated.value.value);
  }

  /** `deleteBook(id)`. */
  method DeleteBook(store: BookStore, id: string) returns (r: Result<string>)
    requires store.Valid()
    modifies store
    ensures store.Valid()
    ensures !IsValidObjectId(id) ==> r == Failure("Error deleting book: " + InvalidIdMessage) && store.books == old(store.books)
    ensures IsValidObjectId(id) && id !in old(store.books) ==>
              r == Failure("Error deleting book: " + NotFoundMessage) && store.books == old(store.books)
    ensures IsValidObjectId(id) && id in old(store.books) ==>
              r == Success(DeletedMessage) && store.books == old(store.books) - {id}
  {
    if !IsValidObjectId(id) {
      return Failure("Error deleting book: " + InvalidIdMessage);
    }
    var deleted := store.FindByIdAndDelete(id);
    if deleted.value.None? {
      return Failure("Error deleting book: " + NotFoundMessage);
    }
    r := Success(DeletedMessage);
  }
}
