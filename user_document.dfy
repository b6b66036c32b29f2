/** A user document of the authenticated backend
    (backend/modules/users/users-model.js): the schema's fields and defaults,
    the pre-save hook that hashes a changed password, and the one-time-password
    challenge that sits between the password check and token issue.
    Time is milliseconds since the epoch, passed in; the random draw and the
    hash function are inputs too. */
module UserDocument {
  import opened Wrappers

  type Id = nat
  type Millis = int

  /** `10 * 60 * 1000`: a challenge lives ten minutes. */
  const OtpLifetime: int := 600000
  /** `Math.random() * 900000` is below 900000, so the code is below 1000000. */
  const OtpDrawBound: nat := 900000
  const OtpBase: nat := 100000

  /** The schema's `role` enum; `User` is the default. */
  datatype Role = Admin | User

  function RoleName(r: Role): string
  {
    match r
    case Admin => "admin"
    case User => "user"
  }

  /** The enum check a role string passes when it is cast to `Role`. */
  function ParseRole(s: string): (r: Option<Role>)
    ensures r.Some? ==> RoleName(r.value) == s
    ensures r.None? ==> s != "admin" && s != "user"
  {
    if s == "admin" then Some(Admin) else if s == "user" then Some(User) else None
  }

  /** The `otp` sub-document `{code, expiresAt}`; either part may be absent. */
  datatype Otp = Otp(code: Option<string>, expiresAt: Option<Millis>)

  /** A stored user. `password` holds whatever the pre-save hook last wrote: a hash. */
  datatype UserRecord = UserRecord(
    id: Id,
    username: string,
    email: string,
    password: string,
    role: Role,
    isVerified: bool,
    isActive: bool,
    otp: Option<Otp>,
    lastLogin: Option<Millis>,
    createdAt: Millis)

  /** What `getProfile` exposes: no password, no challenge. */
  datatype Profile = Profile(
    id: Id,
    username: string,
    email: string,
    role: Role,
    isVerified: bool,
    isActive: bool,
    createdAt: Millis,
    lastLogin: Option<Millis>)

  /** `getProfile()`. */
  function ProfileOf(u: UserRecord): (p: Profile)
    ensures p.id == u.id && p.username == u.username && p.email == u.email && p.role == u.role
    ensures p.isVerified == u.isVerified && p.isActive == u.isActive
    ensures p.createdAt == u.createdAt && p.lastLogin == u.lastLogin
  {
    Profile(u.id, u.username, u.email, u.role, u.isVerified, u.isActive, u.createdAt, u.lastLogin)
  }

  /** The profile reveals nothing of the password or of the challenge: two
      users that differ only there have the same profile. */
  lemma ProfileHidesSecrets(u: UserRecord, password: string, otp: Option<Otp>)
    ensures ProfileOf(u.(password := password, otp := otp)) == ProfileOf(u)
  {
  }

  // ---------------------------------------------------------------------
  // The schema's validators (lines 4-48), as `save()` and a `runValidators`
  // update apply them. Each failing path reports one message; a failed
  // validation lists them, in schema order, separated by ", ".

  /** The user fields a request body may carry; `None` for an absent field. */
  datatype UserData = UserData(
    username: Option<string>,
    email: Option<string>,
    password: Option<string>,
    role: Option<string>,
    isVerified: Option<bool>,
    isActive: Option<bool>,
    otp: Option<Otp>,
    lastLogin: Option<Millis>)

  /** The messages of the `username` path. `required` comes first and stops
      the others. A create runs it on an absent value; an update validates
      only the paths it sets, so it runs it on a value it sets to `""`. */
  function UsernameErrors(v: Option<string>, onCreate: bool): seq<string>
  {
    if v.None? then (if onCreate then ["username: Username is required"] else [])
    else if v.value == "" then ["username: Username is required"]
    else if |v.value| < 3 then ["username: Username must be at least 3 characters"]
    else if |v.value| > 30 then ["username: Username cannot exceed 30 characters"]
    else []
  }

  /** The `email` path; `emailPattern` is the schema's regular expression,
      which `match` never applies to `""` (`required` refuses that first). */
  function EmailErrors(v: Option<string>, onCreate: bool, emailPattern: string -> bool): seq<string>
  {
    if v.None? then (if onCreate then ["email: Email is required"] else [])
    else if v.value == "" then ["email: Email is required"]
    else if !emailPattern(v.value) then ["email: Please enter a valid email"]
    else []
  }

  function PasswordErrors(v: Option<string>, onCreate: bool): seq<string>
  {
    if v.None? then (if onCreate then ["password: Password is required"] else [])
    else if v.value == "" then ["password: Password is required"]
    else if |v.value| < 6 then ["password: Password must be at least 6 characters"]
    else []
  }

  function RoleErrors(v: Option<string>): seq<string>
  {
    if v.Some? && ParseRole(v.value).None? then
      ["role: `" + v.value + "` is not a valid enum value for path `role`."]
    else []
  }

  function ValidationErrors(d: UserData, onCreate: bool, emailPattern: string -> bool): seq<string>
  {
    UsernameErrors(d.username, onCreate) + EmailErrors(d.email, onCreate, emailPattern)
    + PasswordErrors(d.password, onCreate) + RoleErrors(d.role)
  }

  /** Data that passes the validators of `new User(d).save()` carries a
      username of 3 to 30 characters, an email, a password of at least 6
      characters and, if any, a role of the enum. */
  lemma CreateValidationMeans(d: UserData, emailPattern: string -> bool)
    ensures ValidationErrors(d, true, emailPattern) == [] <==>
            d.username.Some? && 3 <= |d.username.value| <= 30 &&
            d.email.Some? && d.email.value != "" && emailPattern(d.email.value) &&
            d.password.Some? && |d.password.value| >= 6 &&
            (d.role.Some? ==> ParseRole(d.role.value).Some?)
  {
  }

  /** An update passes its validators exactly when every path it sets
      meets that path's constraints; the paths it leaves out are not looked at. */
  lemma UpdateValidationMeans(d: UserData, emailPattern: string -> bool)
    ensures ValidationErrors(d, false, emailPattern) == [] <==>
            (d.username.Some? ==> 3 <= |d.username.value| <= 30) &&
            (d.email.Some? ==> d.email.value != "" && emailPattern(d.email.value)) &&
            (d.password.Some? ==> |d.password.value| >= 6) &&
            (d.role.Some? ==> ParseRole(d.role.value).Some?)
  {
  }

  /** `"a, b, c"` from `["a", "b", "c"]`. */
  function JoinMessages(messages: seq<string>): string
  {
    if |messages| == 0 then ""
    else if |messages| == 1 then messages[0]
    else messages[0] + ", " + JoinMessages(messages[1..])
  }

  /** The user `new User(d)` stores once validated, the password hashed by
      the pre-save hook. The constructor takes every schema path the data
      carries, `otp` and `lastLogin` included. */
  function NewUserRecord(id: Id, d: UserData, hash: string -> string, now: Millis): (u: UserRecord)
    requires d.username.Some? && d.email.Some? && d.password.Some?
    ensures u.id == id && u.username == d.username.value && u.email == d.email.value
    ensures u.password == hash(d.password.value)
    ensures u.role == (if d.role.Some? && ParseRole(d.role.value).Some? then ParseRole(d.role.value).value else User)
    ensures u.isVerified == (d.isVerified == Some(true)) && u.isActive == (d.isActive != Some(false))
    ensures u.otp == d.otp && u.lastLogin == d.lastLogin && u.createdAt == now
  {
    UserRecord(id, d.username.value, d.email.value, hash(d.password.value),
               if d.role.Some? && ParseRole(d.role.value).Some? then ParseRole(d.role.value).value else User,
               if d.isVerified.Some? then d.isVerified.value else false,
               if d.isActive.Some? then d.isActive.value else true,
               d.otp, d.lastLogin, now)
  }

  /** `findByIdAndUpdate(id, d)`: set the paths `d` carries. The update does
      not pass through the pre-save hook, so a password it set would be stored as given. */
  function ApplyUpdate(u: UserRecord, d: UserData): (v: UserRecord)
    ensures v.id == u.id && v.createdAt == u.createdAt
    ensures v.username == (if d.username.Some? then d.username.value else u.username)
    ensures v.email == (if d.email.Some? then d.email.value else u.email)
    ensures v.password == (if d.password.Some? then d.password.value else u.password)
    ensures d.role.None? ==> v.role == u.role
    ensures d.role.Some? && ParseRole(d.role.value).Some? ==> v.role == ParseRole(d.role.value).value
    ensures v.isVerified == (if d.isVerified.Some? then d.isVerified.value else u.isVerified)
    ensures v.isActive == (if d.isActive.Some? then d.isActive.value else u.isActive)
    ensures v.otp == (if d.otp.Some? then d.otp else u.otp)
    ensures v.lastLogin == (if d.lastLogin.Some? then d.lastLogin else u.lastLogin)
  {
    u.(username := if d.username.Some? then d.username.value else u.username,
       email := if d.email.Some? then d.email.value else u.email,
       password := if d.password.Some? then d.password.value else u.password,
       role := if d.role.Some? && ParseRole(d.role.value).Some? then ParseRole(d.role.value).value else u.role,
       isVerified := if d.isVerified.Some? then d.isVerified.value else u.isVerified,
       isActive := if d.isActive.Some? then d.isActive.value else u.isActive,
       otp := if d.otp.Some? then d.otp else u.otp,
       lastLogin := if d.lastLogin.Some? then d.lastLogin else u.lastLogin)
  }

  // ---------------------------------------------------------------------
  // Decimal rendering of the code (`Number.prototype.toString()`).

  predicate IsDigit(c: char)
  {
    '0' <= c <= '9'
  }

  predicate AllDigits(s: string)
  {
    forall i :: 0 <= i < |s| ==> IsDigit(s[i])
  }

  function DigitChar(d: nat): (c: char)
    requires d < 10
    ensures IsDigit(c) && (c as int) - ('0' as int) == d
  {
    ['0', '1', '2', '3', '4', '5', '6', '7', '8', '9'][d]
  }

  function DecimalString(n: nat): (s: string)
  {
    if n < 10 then [DigitChar(n)] else DecimalString(n / 10) + [DigitChar(n % 10)]
  }

  /** The number a string of decimal digits denotes. */
  function DecimalValue(s: string): nat
    requires AllDigits(s)
  {
    if s == [] then 0
    else DecimalValue(s[..|s| - 1]) * 10 + ((s[|s| - 1] as int) - ('0' as int))
  }

  function Pow10(k: nat): (r: nat)
    ensures r >= 1
  {
    if k == 0 then 1 else 10 * Pow10(k - 1)
  }

  /** `toString()` writes digits only, and reading them back gives the number. */
  lemma {:induction false} DecimalRoundTrip(n: nat)
    ensures AllDigits(DecimalString(n))
    ensures DecimalValue(DecimalString(n)) == n
  {
    if n >= 10 {
      DecimalRoundTrip(n / 10);
      var s := DecimalString(n);
      assert s[..|s| - 1] == DecimalString(n / 10);
    }
  }

  /** A number with `k + 1` digits is written with `k + 1` characters. */
  lemma {:induction false} DecimalLength(n: nat, k: nat)
    requires Pow10(k) <= n < Pow10(k + 1)
    ensures |DecimalString(n)| == k + 1
  {
    if k > 0 {
      DecimalLength(n / 10, k - 1);
    }
  }

  /** The code of a challenge: `Math.floor(100000 + Math.random() * 900000).toString()`,
      the random part being `draw`. */
  function OtpCode(draw: nat): (code: string)
    requires draw < OtpDrawBound
  {
    DecimalString(OtpBase + draw)
  }

  /** Every code is six decimal digits with no leading zero, and it encodes
      a number from 100000 to 999999. */
  lemma OtpCodeIsSixDigits(draw: nat)
    requires draw < OtpDrawBound
    ensures |OtpCode(draw)| == 6 && AllDigits(OtpCode(draw)) && OtpCode(draw)[0] != '0'
    ensures 100000 <= DecimalValue(OtpCode(draw)) <= 999999
  {
    var n := OtpBase + draw;
    assert Pow10(5) == 100000 && Pow10(6) == 1000000;
    DecimalLength(n, 5);
    DecimalRoundTrip(n);
    LeadingDigitNonZero(n);
  }

  lemma {:induction false} LeadingDigitNonZero(n: nat)
    requires n > 0
    ensures DecimalString(n)[0] != '0'
  {
    if n >= 10 {
      LeadingDigitNonZero(n / 10);
    }
  }

  /** Different draws give different codes. */
  lemma OtpCodeInjective(d1: nat, d2: nat)
    requires d1 < OtpDrawBound && d2 < OtpDrawBound && d1 != d2
    ensures OtpCode(d1) != OtpCode(d2)
  {
    DecimalRoundTrip(OtpBase + d1);
    DecimalRoundTrip(OtpBase + d2);
  }

  // ---------------------------------------------------------------------
  // The challenge.

  /** The challenge `generateOTP()` stores. */
  function IssuedOtp(now: Millis, draw: nat): Otp
    requires draw < OtpDrawBound
  {
    Otp(Some(OtpCode(draw)), Some(now + OtpLifetime))
  }

  /** `verifyOTP(otpCode)` on a document whose challenge is `otp`: it fails
      closed when the challenge, its code (absent or empty, both falsy) or its
      expiry is missing, and when the expiry lies strictly before `now`. */
  predicate OtpAccepts(otp: Option<Otp>, submitted: string, now: Millis)
  {
    if otp.None? || otp.value.code.None? || otp.value.code.value == "" || otp.value.expiresAt.None? then false
    else if otp.value.expiresAt.value < now then false
    else otp.value.code.value == submitted
  }

  /** An accepted code is exactly the stored one, and it was submitted no later than the expiry. */
  lemma AcceptedMeansStoredAndLive(otp: Option<Otp>, submitted: string, now: Millis)
    requires OtpAccepts(otp, submitted, now)
    ensures otp.Some? && otp.value.code == Some(submitted) && submitted != ""
    ensures otp.value.expiresAt.Some? && now <= otp.value.expiresAt.value
  {
  }

  /** A freshly issued code is accepted up to and including ten minutes
      later, and from then on refused; any other string is always refused. */
  lemma IssuedOtpWindow(issuedAt: Millis, draw: nat, submitted: string, now: Millis)
    requires draw < OtpDrawBound
    ensures OtpAccepts(Some(IssuedOtp(issuedAt, draw)), submitted, now) <==>
            submitted == OtpCode(draw) && now <= issuedAt + OtpLifetime
  {
    OtpCodeIsSixDigits(draw);
  }

  /** With no challenge every code is refused at every time. */
  lemma ClearedOtpRejects(submitted: string, now: Millis)
    ensures !OtpAccepts(None, submitted, now)
  {
  }

  // ---------------------------------------------------------------------
  // The document object.

  /** A user document loaded into memory. `passwordModified` is Mongoose's
      `isModified('password')`. */
  class UserDoc {
    const id: Id
    var username: string
    var email: string
    var password: string
    var role: Role
    var isVerified: bool
    var isActive: bool
    var otp: Option<Otp>
    var lastLogin: Option<Millis>
    const createdAt: Millis
    var passwordModified: bool

    /** The document as it would be stored. */
    function Record(): (r: UserRecord)
      reads this
    {
      UserRecord(id, username, email, password, role, isVerified, isActive, otp, lastLogin, createdAt)
    }

    /** A document read from the store: nothing modified yet. */
    constructor Load(r: UserRecord)
      ensures Record() == r && !passwordModified
    {
      id, username, email, password := r.id, r.username, r.email, r.password;
      role, isVerified, isActive := r.role, r.isVerified, r.isActive;
      otp, lastLogin, createdAt := r.otp, r.lastLogin, r.createdAt;
      passwordModified := false;
    }

    /** `new User(userData)`: the schema defaults fill what the data leaves out
        (role `user`, not verified, active, no challenge, never logged in),
        and the password counts as modified. */
    constructor Create(id: Id, username: string, email: string, password: string,
                       role: Option<Role>, isVerified: Option<bool>, isActive: Option<bool>,
                       otp: Option<Otp>, lastLogin: Option<Millis>, now: Millis)
      ensures this.id == id && this.username == username && this.email == email && this.password == password
      ensures this.role == (if role.Some? then role.value else User)
      ensures this.isVerified == (if isVerified.Some? then isVerified.value else false)
      ensures this.isActive == (if isActive.Some? then isActive.value else true)
      ensures this.otp == otp && this.lastLogin == lastLogin && createdAt == now
      ensures passwordModified
    {
      this.id, this.username, this.email, this.password := id, username, email, password;
      this.role := if role.Some? then role.value else User;
      this.isVerified := if isVerified.Some? then isVerified.value else false;
      this.isActive := if isActive.Some? then isActive.value else true;
      this.otp, this.lastLogin, createdAt := otp, lastLogin, now;
      passwordModified := true;
    }

    /** `generateOTP()`: overwrite any previous challenge with a fresh one
        expiring ten minutes from `now`, and return its code. */
    method GenerateOtp(now: Millis, draw: nat) returns (code: string)
      requires draw < OtpDrawBound
      modifies this
      ensures code == OtpCode(draw)
      ensures Record() == old(Record()).(otp := Some(Otp(Some(code), Some(now + OtpLifetime))))
      ensures passwordModified == old(passwordModified)
    {
      code := DecimalString(OtpBase + draw);
      otp := Some(Otp(Some(code), Some(now + OtpLifetime)));
    }

    /** `verifyOTP(otpCode)`: reads the document, changes nothing. */
    function VerifyOtp(submitted: string, now: Millis): (ok: bool)
      reads this
      ensures ok ==> otp.Some? && otp.value.code == Some(submitted) && submitted != ""
      ensures ok ==> otp.value.expiresAt.Some? && now <= otp.value.expiresAt.value
      ensures (otp.Some? && otp.value.code == Some(submitted) && submitted != "" &&
               otp.value.expiresAt.Some? && now <= otp.value.expiresAt.value) ==> ok
    {
      OtpAccepts(otp, submitted, now)
    }

    /** `clearOTP()`: drop the whole sub-document. */
    method ClearOtp()
      modifies this
      ensures Record() == old(Record()).(otp := None)
      ensures passwordModified == old(passwordModified)
      ensures forall c: string, t: Millis :: !VerifyOtp(c, t)
    {
      otp := None;
    }

    /** `getProfile()`. */
    function GetProfile(): (p: Profile)
      reads this
      ensures p == ProfileOf(Record())
    {
      Profile(id, username, email, role, isVerified, isActive, createdAt, lastLogin)
    }

    /** The pre-save hook: hash the password only when it was modified; the
        save then clears the modified flag. */
    method PreSave(hash: string -> string)
      modifies this
      ensures Record() == if old(passwordModified) then old(Record()).(password := hash(old(password)))
                          else old(Record())
      ensures !passwordModified
    {
      if passwordModified {
        password := hash(password);
      }
      passwordModified := false;
    }
  }

  /** A challenge a document stores after `generateOTP()` and before any
      `clearOTP()` is accepted with the returned code until it expires. */
  method GenerateThenVerify(doc: UserDoc, now: Millis, draw: nat, later: Millis)
    returns (code: string)
    requires draw < OtpDrawBound && now <= later <= now + OtpLifetime
    modifies doc
    ensures code == OtpCode(draw) && doc.VerifyOtp(code, later)
  {
    code := doc.GenerateOtp(now, draw);
    IssuedOtpWindow(now, draw, code, later);
  }
}
