/** The two-step login of the authenticated backend
    (backend/modules/users/users-business.js): register; log in with a
    password, which stores a one-time code and sends it by email; verify the
    code, which clears it, stamps `lastLogin` and issues the tokens; refresh
    the access token; and the self-or-admin rules of update and delete.
    Every failure is rethrown with the operation's prefix
    ("Login failed: ..."). Password comparison, hashing, token signing and
    verification, the random draw, the clock and mail delivery are inputs. */
module AuthFlow {
  import opened Wrappers
  import opened UserDocument
  import opened UserCollection
  import opened Pagination
  import opened ObjectIds
  import AuthGuards

  const RegisterFailed: string := "Registration failed: "
  const LoginFailed: string := "Login failed: "
  const OtpFailed: string := "OTP verification failed: "
  const RefreshFailed: string := "Token refresh failed: "
  const FetchFailed: string := "Error fetching user: "
  const UpdateFailed: string := "Error updating user: "
  const DeleteFailed: string := "Error deleting user: "

  const UserExists: string := "User with this email or username already exists"
  const BadCredentials: string := "Invalid email or password"
  const Deactivated: string := "Account is deactivated"
  const MailFailed: string := "Failed to send OTP email"
  const UserNotFound: string := "User not found"
  const BadOtp: string := "Invalid or expired OTP"

  /** What a successful login returns: no token yet. */
  datatype LoginReply = LoginReply(message: string, userId: Id, email: string)
  /** What a successful code check returns. */
  datatype OtpReply = OtpReply(message: string, accessToken: string, refreshToken: string, user: Profile)
  /** What a refresh returns: a new access token, and no new refresh token. */
  datatype RefreshReply = RefreshReply(accessToken: string, user: Profile)

  /** The claims `generateAccessToken(user)` signs: the token names the
      user it was issued to, and carries the admin role exactly for an admin. */
  function AccessClaims(u: UserRecord): (c: AuthGuards.Claims)
    ensures c.id == u.id && c.username == u.username && c.email == u.email
    ensures c.role == "admin" <==> u.role == Admin
  {
    AuthGuards.Claims(u.id, u.username, u.email, RoleName(u.role))
  }

  /** `registerUser(userData)`: refuse data whose email or username is taken;
      otherwise create the user and return its profile. */
  method RegisterUser(store: UserStore, d: UserData, emailPattern: string -> bool,
                      hash: string -> string, now: Millis) returns (r: Result<Profile>)
    requires store.Valid()
    modifies store
    ensures store.Valid()
    ensures Taken(old(store.users), d.email, d.username) ==>
              r == Failure(RegisterFailed + UserExists) && store.users == old(store.users)
    ensures !Taken(old(store.users), d.email, d.username) && ValidationErrors(d, true, emailPattern) != [] ==>
              r == Failure(RegisterFailed + "User validation failed: " + JoinMessages(ValidationErrors(d, true, emailPattern))) &&
              store.users == old(store.users)
    ensures !Taken(old(store.users), d.email, d.username) && ValidationErrors(d, true, emailPattern) == [] ==>
              d.username.Some? && d.email.Some? && d.password.Some? &&
              old(store.nextId) !in old(store.users) &&
              store.users == old(store.users)[old(store.nextId) := NewUserRecord(old(store.nextId), d, hash, now)] &&
              r == Success(ProfileOf(NewUserRecord(old(store.nextId), d, hash, now)))
  {
    if Taken(store.users, d.email, d.username) {
      return Failure(RegisterFailed + UserExists);
    }
    var created := store.Insert(d, emailPattern, hash, now);
    if created.Failure? {
      return Failure(RegisterFailed + created.message);
    }
    r := Success(ProfileOf(created.value));
  }

  /** `loginUser(email, password)`: an unknown email and a wrong password
      fail alike; a deactivated account fails with its own message, before
      the password is looked at. On a good password a fresh code is stored
      before delivery is tried, and stays stored when delivery fails. */
  method LoginUser(store: UserStore, email: string, password: string,
                   passwordMatches: (string, string) -> bool, hash: string -> string,
                   now: Millis, draw: nat, delivered: bool) returns (r: Result<LoginReply>)
    requires store.Valid() && draw < OtpDrawBound
    modifies store
    ensures store.Valid() && store.nextId == old(store.nextId)
    ensures (forall id :: id in old(store.users) ==> old(store.users)[id].email != email) ==>
              r == Failure(LoginFailed + BadCredentials) && store.users == old(store.users)
    ensures forall id :: id in old(store.users) && old(store.users)[id].email == email ==>
              var u := old(store.users)[id];
              if !u.isActive then
                r == Failure(LoginFailed + Deactivated) && store.users == old(store.users)
              else if !passwordMatches(password, u.password) then
                r == Failure(LoginFailed + BadCredentials) && store.users == old(store.users)
              else
                store.users == old(store.users)[id := u.(otp := Some(IssuedOtp(now, draw)))] &&
                r == if delivered then Success(LoginReply("OTP sent to your email", id, email))
                     else Failure(LoginFailed + MailFailed)
  {
    var user := store.FindOneByEmail(email);
    if user == null {
      return Failure(LoginFailed + BadCredentials);
    }
    if !user.isActive {
      return Failure(LoginFailed + Deactivated);
    }
    if !passwordMatches(password, user.password) {
      return Failure(LoginFailed + BadCredentials);
    }
    var otp := user.GenerateOtp(now, draw);
    store.Save(user, hash);
    if !delivered {
      return Failure(LoginFailed + MailFailed);
    }
    r := Success(LoginReply("OTP sent to your email", user.id, user.email));
  }

  /** `verifyOTP(userId, otpCode)`: a good, live code is cleared and
      `lastLogin` stamped before both tokens are issued; a missing user or a
      refused code leaves the store as it was. */
  method VerifyOtp(store: UserStore, userId: IdArg, code: string, now: Millis, hash: string -> string,
                   signAccess: AuthGuards.Claims -> string, signRefresh: Id -> string) returns (r: Result<OtpReply>)
    requires store.Valid()
    modifies store
    ensures store.Valid() && store.nextId == old(store.nextId)
    ensures userId.Malformed? ==>
              r == Failure(OtpFailed + CastMessage("User", userId.text)) && store.users == old(store.users)
    ensures userId.Cast? && userId.id !in old(store.users) ==>
              r == Failure(OtpFailed + UserNotFound) && store.users == old(store.users)
    ensures userId.Cast? && userId.id in old(store.users) && !OtpAccepts(old(store.users)[userId.id].otp, code, now) ==>
              r == Failure(OtpFailed + BadOtp) && store.users == old(store.users)
    ensures userId.Cast? && userId.id in old(store.users) && OtpAccepts(old(store.users)[userId.id].otp, code, now) ==>
              var u := old(store.users)[userId.id].(otp := None, lastLogin := Some(now));
              store.users == old(store.users)[userId.id := u] &&
              r == Success(OtpReply("OTP verified successfully", signAccess(AccessClaims(u)), signRefresh(userId.id), ProfileOf(u)))
  {
    var found := store.FindById(userId);
    if found.Failure? {
      return Failure(OtpFailed + found.message);
    }
    var user := found.value;
    if user == null {
      return Failure(OtpFailed + UserNotFound);
    }
    if !user.VerifyOtp(code, now) {
      return Failure(OtpFailed + BadOtp);
    }
    user.ClearOtp();
    user.lastLogin := Some(now);
    store.Save(user, hash);
    var accessToken := signAccess(AccessClaims(user.Record()));
    var refreshToken := signRefresh(user.id);
    r := Success(OtpReply("OTP verified successfully", accessToken, refreshToken, user.GetProfile()));
  }

  /** A code that was accepted once is refused on the next attempt, at any time. */
  method VerifyOtpTwice(store: UserStore, userId: IdArg, code: string, now: Millis, later: Millis, hash: string -> string,
                        signAccess: AuthGuards.Claims -> string, signRefresh: Id -> string)
    returns (first: Result<OtpReply>, second: Result<OtpReply>)
    requires store.Valid()
    modifies store
    ensures first.Success? ==> second == Failure(OtpFailed + BadOtp)
  {
    first := VerifyOtp(store, userId, code, now, hash, signAccess, signRefresh);
    second := VerifyOtp(store, userId, code, later, hash, signAccess, signRefresh);
  }

  /** Registration stores the body's `otp` as it stands. A body that carries
      a code and a later expiry gives an account that passes the code check
      with that code: tokens are issued with no code ever generated or mailed. */
  method RegisterWithChosenCode(store: UserStore, d: UserData, code: string, expiresAt: Millis,
                                emailPattern: string -> bool, hash: string -> string, now: Millis, later: Millis,
                                signAccess: AuthGuards.Claims -> string, signRefresh: Id -> string)
    returns (registered: Result<Profile>, verified: Result<OtpReply>)
    requires store.Valid()
    requires !Taken(store.users, d.email, d.username) && ValidationErrors(d, true, emailPattern) == []
    requires d.otp == Some(Otp(Some(code), Some(expiresAt))) && code != "" && later <= expiresAt
    modifies store
    ensures registered.Success? && verified.Success?
  {
    var id := store.nextId;
    registered := RegisterUser(store, d, emailPattern, hash, now);
    verified := VerifyOtp(store, Cast(id), code, later, hash, signAccess, signRefresh);
  }

  /** `refreshAccessToken(refreshToken)`: the verifier's failure message is
      passed on; a token whose user is gone fails; otherwise a new access
      token is signed. Nothing is written. The id a verified token carries
      is one the server signed, so it always casts. */
  method RefreshAccessToken(store: UserStore, refreshToken: string, verifyRefresh: string -> Result<Id>,
                            signAccess: AuthGuards.Claims -> string) returns (r: Result<RefreshReply>)
    ensures verifyRefresh(refreshToken).Failure? ==>
              r == Failure(RefreshFailed + verifyRefresh(refreshToken).message)
    ensures verifyRefresh(refreshToken).Success? && verifyRefresh(refreshToken).value !in store.users ==>
              r == Failure(RefreshFailed + UserNotFound)
    ensures verifyRefresh(refreshToken).Success? && verifyRefresh(refreshToken).value in store.users ==>
              var u := store.users[verifyRefresh(refreshToken).value];
              r == Success(RefreshReply(signAccess(AccessClaims(u)), ProfileOf(u)))
  {
    var decoded := verifyRefresh(refreshToken);
    if decoded.Failure? {
      return Failure(RefreshFailed + decoded.message);
    }
    var found := store.FindById(Cast(decoded.value));
    var user := found.value;
    if user == null {
      return Failure(RefreshFailed + UserNotFound);
    }
    var accessToken := signAccess(AccessClaims(user.Record()));
    r := Success(RefreshReply(accessToken, user.GetProfile()));
  }

  /** `getUserById(id)`: the cast error, the profile, or 'User not found'. */
  method GetUserById(store: UserStore, id: IdArg) returns (r: Result<Profile>)
    ensures id.Malformed? ==> r == Failure(FetchFailed + CastMessage("User", id.text))
    ensures id.Cast? && id.id !in store.users ==> r == Failure(FetchFailed + UserNotFound)
    ensures id.Cast? && id.id in store.users ==> r == Success(ProfileOf(store.users[id.id]))
  {
    var found := store.FindById(id);
    if found.Failure? {
      return Failure(FetchFailed + found.message);
    }
    var user := found.value;
    if user == null {
      return Failure(FetchFailed + UserNotFound);
    }
    r := Success(user.GetProfile());
  }

  /** `currentUser.role !== 'admin' && currentUser.id !== id` fails: a
      caller may act on a user when they are an admin or that user. A
      malformed id names nobody, so only an admin gets past the check with
      one (and then meets the cast error). */
  predicate MayActOn(caller: AuthGuards.Claims, id: IdArg)
  {
    caller.role == "admin" || (id.Cast? && caller.id == id.id)
  }

  /** What `updateUser` deletes from the update before applying it: a
      truthy `role` when the caller is not an admin, and a truthy `password`
      always. An empty string is falsy and stays, for the validators to refuse. */
  function StripUpdate(d: UserData, callerIsAdmin: bool): (s: UserData)
    ensures s.username == d.username && s.email == d.email
    ensures s.isVerified == d.isVerified && s.isActive == d.isActive
    ensures s.otp == d.otp && s.lastLogin == d.lastLogin
    ensures s.password.Some? ==> d.password == Some("") && s.password == Some("")
    ensures d.password.None? || d.password == Some("") ==> s.password == d.password
    ensures callerIsAdmin ==> s.role == d.role
    ensures !callerIsAdmin ==> (s.role.Some? ==> d.role == Some("") && s.role == Some(""))
    ensures !callerIsAdmin && (d.role.None? || d.role == Some("")) ==> s.role == d.role
  {
    d.(role := if d.role.Some? && d.role.value != "" && !callerIsAdmin then None else d.role,
       password := if d.password.Some? && d.password.value != "" then None else d.password)
  }

  /** `updateUser(id, userData, currentUser)`: a non-admin may update only
      their own profile; the stripped data then goes to `findByIdAndUpdate`.
      A successful update never changes the password, and a non-admin's
      never changes the role. */
  method UpdateUser(store: UserStore, id: IdArg, d: UserData, caller: AuthGuards.Claims,
                    emailPattern: string -> bool) returns (r: Result<Profile>)
    requires store.Valid()
    modifies store
    ensures store.Valid() && store.nextId == old(store.nextId)
    ensures !MayActOn(caller, id) ==>
              r == Failure(UpdateFailed + "You can only update your own profile") && store.users == old(store.users)
    ensures MayActOn(caller, id) && id.Malformed? ==>
              r == Failure(UpdateFailed + CastMessage("User", id.text)) && store.users == old(store.users)
    ensures MayActOn(caller, id) && id.Cast? ==>
              var s := StripUpdate(d, caller.role == "admin");
              var errors := ValidationErrors(s, false, emailPattern);
              if errors != [] then
                r == Failure(UpdateFailed + "Validation failed: " + JoinMessages(errors)) && store.users == old(store.users)
              else if id.id !in old(store.users) then
                r == Failure(UpdateFailed + UserNotFound) && store.users == old(store.users)
              else if Clashes(old(store.users), ApplyUpdate(old(store.users)[id.id], s)) then
                r == Failure(UpdateFailed + DuplicateKeyMessage) && store.users == old(store.users)
              else
                store.users == old(store.users)[id.id := ApplyUpdate(old(store.users)[id.id], s)] &&
                r == Success(ProfileOf(store.users[id.id]))
    ensures r.Success? ==> id.Cast? && id.id in old(store.users) &&
                           store.users[id.id].password == old(store.users)[id.id].password
    ensures r.Success? && caller.role != "admin" ==> store.users[id.id].role == old(store.users)[id.id].role
  {
    if !MayActOn(caller, id) {
      return Failure(UpdateFailed + "You can only update your own profile");
    }
    var s := StripUpdate(d, caller.role == "admin");
    UpdateValidationMeans(s, emailPattern);
    var updated := store.FindByIdAndUpdate(id, s, emailPattern);
    if updated.Failure? {
      return Failure(UpdateFailed + updated.message);
    }
    if updated.value.None? {
      return Failure(UpdateFailed + UserNotFound);
    }
    r := Success(ProfileOf(updated.value.value));
  }

  /** `deleteUser(id, currentUser)`: a non-admin may delete only their own account. */
  method DeleteUser(store: UserStore, id: IdArg, caller: AuthGuards.Claims) returns (r: Result<string>)
    requires store.Valid()
    modifies store
    ensures store.Valid() && store.nextId == old(store.nextId)
    ensures !MayActOn(caller, id) ==>
              r == Failure(DeleteFailed + "You can only delete your own account") && store.users == old(store.users)
    ensures MayActOn(caller, id) && id.Malformed? ==>
              r == Failure(DeleteFailed + CastMessage("User", id.text)) && store.users == old(store.users)
    ensures MayActOn(caller, id) && id.Cast? && id.id !in old(store.users) ==>
              r == Failure(DeleteFailed + UserNotFound) && store.users == old(store.users)
    ensures MayActOn(caller, id) && id.Cast? && id.id in old(store.users) ==>
              r == Success("User deleted successfully") && store.users == old(store.users) - {id.id}
  {
    if !MayActOn(caller, id) {
      return Failure(DeleteFailed + "You can only delete your own account");
    }
    var deleted := store.FindByIdAndDelete(id);
    if deleted.Failure? {
      return Failure(DeleteFailed + deleted.message);
    }
    if deleted.value.None? {
      return Failure(DeleteFailed + UserNotFound);
    }
    r := Success("User deleted successfully");
  }

  /** `users.map(user => user.getProfile())`. */
  function Profiles(users: seq<UserRecord>): (ps: seq<Profile>)
    ensures |ps| == |users| && forall k :: 0 <= k < |users| ==> ps[k] == ProfileOf(users[k])
  {
    if users == [] then [] else [ProfileOf(users[0])] + Profiles(users[1..])
  }

  /** `getAllUsers(page, limit)` over the collection in its natural order:
      the profiles of page `page`, and the pagination record. */
  function GetAllUsers(all: seq<UserRecord>, page: int, limit: int): (r: (seq<Profile>, PageInfo))
    requires page >= 1 && limit >= 1
    ensures |r.0| == if Skip(page, limit) >= |all| then 0
                     else if Skip(page, limit) + limit <= |all| then limit
                     else |all| - Skip(page, limit)
    ensures forall k :: 0 <= k < |r.0| ==> Skip(page, limit) + k < |all| && r.0[k] == ProfileOf(all[Skip(page, limit) + k])
    ensures r.1 == Paginate(|all|, page, limit)
  {
    WindowLength(all, page, limit);
    (Profiles(Window(all, page, limit)), Paginate(|all|, page, limit))
  }
}
