/** The users business layer of the file-era app
    (modules/users/users-business.js), run against the users collection:
    create with a conflict check, update without the password, delete,
    a one-step password login that returns the profile, and the paged
    listing. There is no caller check and no activity check in this layer.
    Every failure is rethrown with the operation's prefix. */
module UsersService {
  import opened Wrappers
  import opened UserDocument
  import opened UserCollection
  import opened Pagination
  import opened ObjectIds

  const FetchFailed: string := "Error fetching user: "
  const CreateFailed: string := "Error creating user: "
  const UpdateFailed: string := "Error updating user: "
  const DeleteFailed: string := "Error deleting user: "
  const LoginFailed: string := "Login failed: "

  const UserExists: string := "User with this email or username already exists"
  const UserNotFound: string := "User not found"
  const BadCredentials: string := "Invalid email or password"

  /** A user as `.select('-password -__v')` returns it: every stored field but the password. */
  datatype PublicUser = PublicUser(
    id: Id,
    username: string,
    email: string,
    role: Role,
    isVerified: bool,
    isActive: bool,
    otp: Option<Otp>,
    lastLogin: Option<Millis>,
    createdAt: Millis)

  function PublicView(u: UserRecord): (p: PublicUser)
    ensures p.id == u.id && p.username == u.username && p.email == u.email && p.role == u.role
    ensures p.isVerified == u.isVerified && p.isActive == u.isActive
    ensures p.otp == u.otp && p.lastLogin == u.lastLogin && p.createdAt == u.createdAt
  {
    PublicUser(u.id, u.username, u.email, u.role, u.isVerified, u.isActive, u.otp, u.lastLogin, u.createdAt)
  }

  /** Two users that differ only in their password look the same once it is deselected. */
  lemma PublicViewHidesPassword(u: UserRecord, password: string)
    ensures PublicView(u.(password := password)) == PublicView(u)
  {
  }

  function PublicViews(users: seq<UserRecord>): (ps: seq<PublicUser>)
    ensures |ps| == |users| && forall k :: 0 <= k < |users| ==> ps[k] == PublicView(users[k])
  {
    if users == [] then [] else [PublicView(users[0])] + PublicViews(users[1..])
  }

  /** `getAllUsers(page, limit)` over the collection in its natural order. */
  function GetAllUsers(all: seq<UserRecord>, page: int, limit: int): (r: (seq<PublicUser>, PageInfo))
    requires page >= 1 && limit >= 1
    ensures |r.0| == if Skip(page, limit) >= |all| then 0
                     else if Skip(page, limit) + limit <= |all| then limit
                     else |all| - Skip(page, limit)
    ensures forall k :: 0 <= k < |r.0| ==> Skip(page, limit) + k < |all| && r.0[k] == PublicView(all[Skip(page, limit) + k])
    ensures r.1 == Paginate(|all|, page, limit)
  {
    WindowLength(all, page, limit);
    (PublicViews(Window(all, page, limit)), Paginate(|all|, page, limit))
  }

  /** `getUserByID(id)`: a missing user is `null`, not an error; only a
      malformed id fails. */
  method GetUserById(store: UserStore, id: IdArg) returns (r: Result<Option<PublicUser>>)
    ensures id.Malformed? ==> r == Failure(FetchFailed + CastMessage("User", id.text))
    ensures id.Cast? && id.id !in store.users ==> r == Success(None)
    ensures id.Cast? && id.id in store.users ==> r == Success(Some(PublicView(store.users[id.id])))
  {
    var found := store.FindById(id);
    if found.Failure? {
      return Failure(FetchFailed + found.message);
    }
    var user := found.value;
    if user == null {
      return Success(None);
    }
    r := Success(Some(PublicView(user.Record())));
  }

  /** `createUser(userData)`: refuse data whose email or username is taken;
      otherwise create the user and return its profile. */
  method CreateUser(store: UserStore, d: UserData, emailPattern: string -> bool,
                    hash: string -> string, now: Millis) returns (r: Result<Profile>)
    requires store.Valid()
    modifies store
    ensures store.Valid()
    ensures Taken(old(store.users), d.email, d.username) ==>
              r == Failure(CreateFailed + UserExists) && store.users == old(store.users)
    ensures !Taken(old(store.users), d.email, d.username) && ValidationErrors(d, true, emailPattern) != [] ==>
              r == Failure(CreateFailed + "User validation failed: " + JoinMessages(ValidationErrors(d, true, emailPattern))) &&
              store.users == old(store.users)
    ensures !Taken(old(store.users), d.email, d.username) && ValidationErrors(d, true, emailPattern) == [] ==>
              d.username.Some? && d.email.Some? && d.password.Some? &&
              old(store.nextId) !in old(store.users) &&
              store.users == old(store.users)[old(store.nextId) := NewUserRecord(old(store.nextId), d, hash, now)] &&
              r == Success(ProfileOf(NewUserRecord(old(store.nextId), d, hash, now)))
  {
    if Taken(store.users, d.email, d.username) {
      return Failure(CreateFailed + UserExists);
    }
    var created := store.Insert(d, emailPattern, hash, now);
    if created.Failure? {
      return Failure(CreateFailed + created.message);
    }
    r := Success(ProfileOf(created.value));
  }

  /** `delete userData.password` when it is truthy; nothing else is removed. */
  function DropPassword(d: UserData): (s: UserData)
    ensures s.username == d.username && s.email == d.email && s.role == d.role
    ensures s.isVerified == d.isVerified && s.isActive == d.isActive
    ensures s.otp == d.otp && s.lastLogin == d.lastLogin
    ensures s.password.Some? <==> d.password == Some("")
    ensures s.password.Some? ==> s.password == Some("")
  {
    d.(password := if d.password.Some? && d.password.value != "" then None else d.password)
  }

  /** `updateUser(id, userData)`: the update without its password goes to
      `findByIdAndUpdate`; a successful update keeps the stored password. */
  method UpdateUser(store: UserStore, id: IdArg, d: UserData, emailPattern: string -> bool) returns (r: Result<PublicUser>)
    requires store.Valid()
    modifies store
    ensures store.Valid() && store.nextId == old(store.nextId)
    ensures id.Malformed? ==>
              r == Failure(UpdateFailed + CastMessage("User", id.text)) && store.users == old(store.users)
    ensures id.Cast? ==>
            var s := DropPassword(d);
            var errors := ValidationErrors(s, false, emailPattern);
            if errors != [] then
              r == Failure(UpdateFailed + "Validation failed: " + JoinMessages(errors)) && store.users == old(store.users)
            else if id.id !in old(store.users) then
              r == Failure(UpdateFailed + UserNotFound) && store.users == old(store.users)
            else if Clashes(old(store.users), ApplyUpdate(old(store.users)[id.id], s)) then
              r == Failure(UpdateFailed + DuplicateKeyMessage) && store.users == old(store.users)
            else
              store.users == old(store.users)[id.id := ApplyUpdate(old(store.users)[id.id], s)] &&
              r == Success(PublicView(store.users[id.id]))
    ensures r.Success? ==> id.Cast? && id.id in old(store.users) &&
                           store.users[id.id].password == old(store.users)[id.id].password
  {
    var s := DropPassword(d);
    UpdateValidationMeans(s, emailPattern);
    var updated := store.FindByIdAndUpdate(id, s, emailPattern);
    if updated.Failure? {
      return Failure(UpdateFailed + updated.message);
    }
    if updated.value.None? {
      return Failure(UpdateFailed + UserNotFound);
    }
    r := Success(PublicView(updated.value.value));
  }

  /** `deleteUser(id)`. */
  method DeleteUser(store: UserStore, id: IdArg) returns (r: Result<string>)
    requires store.Valid()
    modifies store
    ensures store.Valid() && store.nextId == old(store.nextId)
    ensures id.Malformed? ==>
              r == Failure(DeleteFailed + CastMessage("User", id.text)) && store.users == old(store.users)
    ensures id.Cast? && id.id !in old(store.users) ==>
              r == Failure(DeleteFailed + UserNotFound) && store.users == old(store.users)
    ensures id.Cast? && id.id in old(store.users) ==>
              r == Success("User deleted successfully") && store.users == old(store.users) - {id.id}
  {
    var deleted := store.FindByIdAndDelete(id);
    if deleted.Failure? {
      return Failure(DeleteFailed + deleted.message);
    }
    if deleted.value.None? {
      return Failure(DeleteFailed + UserNotFound);
    }
    r := Success("User deleted successfully");
  }

  /** `loginUser(email, password)`: an unknown email and a wrong password
      fail alike; a good password returns the profile at once, whether or
      not the account is active. Nothing is written. */
  method LoginUser(store: UserStore, email: string, password: string,
                   passwordMatches: (string, string) -> bool) returns (r: Result<Profile>)
    requires store.Valid()
    ensures (forall id :: id in store.users ==> store.users[id].email != email) ==>
              r == Failure(LoginFailed + BadCredentials)
    ensures forall id :: id in store.users && store.users[id].email == email ==>
              r == if passwordMatches(password, store.users[id].password) then Success(ProfileOf(store.users[id]))
                   else Failure(LoginFailed + BadCredentials)
  {
    var user := store.FindOneByEmail(email);
    if user == null {
      return Failure(LoginFailed + BadCredentials);
    }
    if !passwordMatches(password, user.password) {
      return Failure(LoginFailed + BadCredentials);
    }
    r := Success(user.GetProfile());
  }
}
