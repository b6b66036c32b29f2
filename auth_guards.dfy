/** The request guards of the authenticated backend
    (backend/modules/shared/middlewares/auth.js). Each guard either hands the
    request on to the next handler, possibly with `req.user` set, or answers
    it with an error status. The access-token verifier is an input: it
    returns the token's claims, or `None` for a bad signature, an expired or
    a malformed token. */
module AuthGuards {
  import opened Wrappers

  /** The claims of an access token: `{id, username, email, role}`. */
  datatype Claims = Claims(id: nat, username: string, email: string, role: string)

  /** The parts of a request the guards read and write. */
  datatype Request = Request(authorization: Option<string>, user: Option<Claims>)

  /** `next()` with the request as the guard leaves it, or `res.status(s).json({message})`. */
  datatype Decision = Next(req: Request) | Reject(status: int, message: string)

  const BearerPrefix: string := "Bearer "
  const NoTokenMessage: string := "Access denied. No token provided."
  const BadTokenMessage: string := "Invalid or expired token."
  const NoUserMessage: string := "Authentication required."

  predicate StartsWith(s: string, prefix: string)
  {
    |prefix| <= |s| && s[..|prefix|] == prefix
  }

  /** `s.split(sep)`: the pieces between separators, empty ones included. */
  function Split(s: string, sep: char): (parts: seq<string>)
    ensures |parts| >= 1
    ensures forall i :: 0 <= i < |parts| ==> sep !in parts[i]
  {
    if |s| == 0 then [""]
    else
      var rest := Split(s[1..], sep);
      if s[0] == sep then [""] + rest else [[s[0]] + rest[0]] + rest[1..]
  }

  /** `parts.join(sep)`. */
  function Join(parts: seq<string>, sep: char): string
    requires |parts| >= 1
  {
    if |parts| == 1 then parts[0] else parts[0] + [sep] + Join(parts[1..], sep)
  }

  /** Splitting loses nothing: joining the pieces gives the string back. */
  lemma {:induction false} SplitJoin(s: string, sep: char)
    ensures Join(Split(s, sep), sep) == s
  {
    if |s| > 0 {
      SplitJoin(s[1..], sep);
      var rest := Split(s[1..], sep);
      if s[0] != sep && |rest| > 1 {
        assert Join(rest, sep) == rest[0] + [sep] + Join(rest[1..], sep);
        assert s == [s[0]] + s[1..];
      }
    }
  }

  /** The first piece is the longest separator-free prefix; the others are the pieces of what follows it. */
  lemma {:induction false} SplitHead(s: string, sep: char)
    ensures var head := Split(s, sep)[0];
            |head| <= |s| && s[..|head|] == head &&
            (|head| == |s| ==> |Split(s, sep)| == 1) &&
            (|head| < |s| ==> s[|head|] == sep && Split(s, sep)[1..] == Split(s[|head| + 1..], sep))
  {
    if |s| > 0 {
      SplitHead(s[1..], sep);
      var h1 := Split(s[1..], sep)[0];
      if s[0] != sep && |h1| < |s| - 1 {
        assert s[1..][|h1| + 1..] == s[|h1| + 2..];
      }
    }
  }

  /** `authHeader.split(' ')[1]` for a header that starts with `Bearer `: the
      text after the prefix up to the next space or the end. */
  function BearerToken(header: string): (token: string)
    requires StartsWith(header, BearerPrefix)
    ensures 7 + |token| <= |header| && header[7..7 + |token|] == token
    ensures ' ' !in token
    ensures 7 + |token| == |header| || header[7 + |token|] == ' '
  {
    SplitHead(header, ' ');
    var head := Split(header, ' ')[0];
    assert header[..6] == "Bearer" && header[6] == ' ';
    assert |head| == 6;
    SplitHead(header[7..], ' ');
    Split(header, ' ')[1]
  }

  /** A header the mandatory and the optional guard accept as carrying a token. */
  predicate WellFormed(authorization: Option<string>)
  {
    authorization.Some? && StartsWith(authorization.value, BearerPrefix)
  }

  /** `authenticate`: reject a missing or non-Bearer header, then a token the
      verifier refuses; otherwise attach the claims and call `next()` once. */
  function Authenticate(req: Request, verify: string -> Option<Claims>): (d: Decision)
    ensures d.Next? <==> WellFormed(req.authorization) && verify(BearerToken(req.authorization.value)).Some?
    ensures d.Next? ==> d.req == req.(user := verify(BearerToken(req.authorization.value)))
    ensures d.Next? ==> d.req.user.Some?
    ensures !WellFormed(req.authorization) ==> d == Reject(401, NoTokenMessage)
    ensures d.Reject? && WellFormed(req.authorization) ==> d == Reject(401, BadTokenMessage)
  {
    if req.authorization.None? || !StartsWith(req.authorization.value, BearerPrefix) then
      Reject(401, NoTokenMessage)
    else
      var decoded := verify(BearerToken(req.authorization.value));
      if decoded.None? then Reject(401, BadTokenMessage)
      else Next(req.(user := decoded))
  }

  /** `authorize(...roles)`: 401 without `req.user`, 403 for a role outside the
      list, otherwise `next()` with the request untouched. */
  function Authorize(roles: seq<string>, req: Request): (d: Decision)
    ensures d.Next? <==> req.user.Some? && req.user.value.role in roles
    ensures d.Next? ==> d.req == req
    ensures req.user.None? ==> d == Reject(401, NoUserMessage)
    ensures req.user.Some? && req.user.value.role !in roles ==>
              d == Reject(403, "Access denied. " + req.user.value.role + " role cannot access this resource.")
  {
    if req.user.None? then Reject(401, NoUserMessage)
    else if req.user.value.role !in roles then
      Reject(403, "Access denied. " + req.user.value.role + " role cannot access this resource.")
    else Next(req)
  }

  /** `optionalAuth`: always `next()`; `req.user` is set only from a
      well-formed header whose token verifies, and is otherwise left as it was. */
  function OptionalAuth(req: Request, verify: string -> Option<Claims>): (d: Decision)
    ensures d.Next? && d.req.authorization == req.authorization
    ensures d.req.user == if WellFormed(req.authorization) && verify(BearerToken(req.authorization.value)).Some?
                          then verify(BearerToken(req.authorization.value))
                          else req.user
  {
    if req.authorization.Some? && StartsWith(req.authorization.value, BearerPrefix) then
      var decoded := verify(BearerToken(req.authorization.value));
      if decoded.Some? then Next(req.(user := decoded)) else Next(req)
    else Next(req)
  }

  /** `authenticate` followed by `authorize(...roles)`, as the admin routes chain them. */
  function RoleGate(roles: seq<string>, req: Request, verify: string -> Option<Claims>): Decision
  {
    match Authenticate(req, verify)
    case Next(r) => Authorize(roles, r)
    case Reject(s, m) => Reject(s, m)
  }

  /** A role-gated route runs exactly for a verified token whose role is
      allowed; it answers 403 exactly when the token verifies but the role is
      not allowed, and 401 in every other refusal. */
  lemma RoleGateDecision(roles: seq<string>, req: Request, verify: string -> Option<Claims>)
    ensures var d := RoleGate(roles, req, verify);
            var ok := WellFormed(req.authorization) && verify(BearerToken(req.authorization.value)).Some?;
            (d.Next? <==> ok && verify(BearerToken(req.authorization.value)).value.role in roles) &&
            (d.Reject? ==> (d.status == 403 <==> ok)) &&
            (d.Next? ==> d.req.user == verify(BearerToken(req.authorization.value)))
  {
  }

  /** The token read from `Bearer <t>` is `t` whenever `t` holds no space. */
  lemma BearerTokenOf(t: string, rest: string)
    requires ' ' !in t && (rest == [] || rest[0] == ' ')
    ensures StartsWith(BearerPrefix + t + rest, BearerPrefix)
    ensures BearerToken(BearerPrefix + t + rest) == t
  {
    var h := BearerPrefix + t + rest;
    assert h[..7] == BearerPrefix;
    var tok := BearerToken(h);
    assert h[7..] == t + rest;
    assert forall k :: 0 <= k < |t| ==> h[7 + k] == t[k] != ' ';
    assert forall k :: 0 <= k < |tok| ==> h[7 + k] == tok[k] != ' ';
    assert 7 + |t| < |h| ==> h[7 + |t|] == rest[0] == ' ';
    assert tok == h[7..7 + |tok|] == t;
  }
}
