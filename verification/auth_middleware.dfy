/**
 * The two Express guards. `protect` reads the Authorization header, hands the
 * bearer token to the JWT verifier and attaches the looked-up user; `adminOnly`
 * lets a request through only when that user is an administrator. The verifier
 * is a parameter: `verify(token)` is the decoded subject id, or None when
 * `jwt.verify` throws. The lookup is the users collection itself.
 */
module AuthMiddleware {
  import opened Base
  import opened UserRecord

  const NoTokenMessage := "Chưa có token"
  const BadTokenMessage := "Token không hợp lệ"
  const NotAdminMessage := "Không có quyền admin"
  const BearerPrefix := "Bearer "

  /** A guard either calls `next()`, with the user attached to the request, or sends a response. */
  datatype Outcome = Next(user: Option<PublicUser>) | Reject(status: nat, message: string)

  /** The reply a handler behind a guard sends when the guard refused the request. */
  function Refused<T>(o: Outcome): Reply<T>
    requires o.Reject?
  {
    Fail(o.status, o.message)
  }

  predicate StartsWith(s: string, prefix: string) {
    |prefix| <= |s| && s[..|prefix|] == prefix
  }

  /** A header is accepted when it is present and begins with "Bearer ", with that exact case. */
  predicate HasBearer(header: Option<string>) {
    header.Some? && StartsWith(header.value, BearerPrefix)
  }

  /** The position of the first space in `s`, or `|s|` when there is none. */
  function SpaceIndex(s: string): (i: nat)
    ensures i <= |s|
    ensures i < |s| ==> s[i] == ' '
    ensures forall j :: 0 <= j < i ==> s[j] != ' '
  {
    if s == [] || s[0] == ' ' then 0 else 1 + SpaceIndex(s[1..])
  }

  /** `s.split(' ')`: the pieces between single spaces; two adjacent spaces give an empty piece. */
  function Split(s: string): (parts: seq<string>)
    ensures |parts| >= 1
    ensures parts[0] == s[..SpaceIndex(s)]
    ensures forall k :: 0 <= k < |parts| ==> ' ' !in parts[k]
    decreases |s|
  {
    var i := SpaceIndex(s);
    if i == |s| then [s] else [s[..i]] + Split(s[i + 1..])
  }

  /** Gluing the pieces back with single spaces. */
  function Join(parts: seq<string>): string
    requires |parts| >= 1
  {
    if |parts| == 1 then parts[0] else parts[0] + " " + Join(parts[1..])
  }

  /** Cutting out a space and putting one back gives the same string. */
  lemma GlueAtSpace(s: string, i: nat)
    requires i < |s| && s[i] == ' '
    ensures s[..i] + " " + s[i + 1..] == s
  {
    assert s == s[..i] + [s[i]] + s[i + 1..];
  }

  /** Splitting on spaces loses nothing: joining the pieces gives the header back. */
  lemma {:induction false} JoinSplit(s: string)
    ensures Join(Split(s)) == s
    decreases |s|
  {
    var i := SpaceIndex(s);
    if i < |s| {
      var rest := Split(s[i + 1..]);
      calc {
        Join(Split(s));
        Join([s[..i]] + rest);
        { assert ([s[..i]] + rest)[1..] == rest; }
        s[..i] + " " + Join(rest);
        { JoinSplit(s[i + 1..]); }
        s[..i] + " " + s[i + 1..];
        { GlueAtSpace(s, i); }
        s;
      }
    }
  }

  /** The token: the text after "Bearer " up to the next space, or to the end. */
  function TokenOf(header: string): string
    requires StartsWith(header, BearerPrefix)
  {
    var rest := header[|BearerPrefix|..];
    rest[..SpaceIndex(rest)]
  }

  /** `auth.split(' ')[1]` exists for a "Bearer " header and is exactly the token above. */
  lemma SecondPieceIsToken(header: string)
    requires StartsWith(header, BearerPrefix)
    ensures |Split(header)| >= 2 && Split(header)[1] == TokenOf(header)
  {
    var i := SpaceIndex(header);
    assert header[..7] == BearerPrefix;
    assert forall j :: 0 <= j < 6 ==> header[j] == BearerPrefix[j] && header[j] != ' ';
    assert header[6] == ' ';
    assert i == 6;
  }

  /** `protect`. */
  function Protect(header: Option<string>, verify: string -> Option<Id>, users: map<Id, User>): (o: Outcome)
    ensures !HasBearer(header) ==> o == Reject(401, NoTokenMessage)
    ensures HasBearer(header) && verify(TokenOf(header.value)).None? ==> o == Reject(401, BadTokenMessage)
    ensures HasBearer(header) && verify(TokenOf(header.value)).Some? ==>
              o == Next(FindById(users, verify(TokenOf(header.value)).value))
  {
    if header.Some? && StartsWith(header.value, BearerPrefix) then
      SecondPieceIsToken(header.value);
      var token := Split(header.value)[1];
      match verify(token)
      case None => Reject(401, BadTokenMessage)
      case Some(id) => Next(FindById(users, id))
    else
      Reject(401, NoTokenMessage)
  }

  /** `adminOnly`. */
  function AdminOnly(user: Option<PublicUser>): (o: Outcome)
    ensures o.Next? <==> user.Some? && user.value.isAdmin
    ensures o.Next? ==> o.user == user
    ensures o.Reject? ==> o == Reject(403, NotAdminMessage)
  {
    if user.Some? && user.value.isAdmin then Next(user) else Reject(403, NotAdminMessage)
  }

  /** Express runs the next guard only when the previous one called `next()`. */
  function ThenAdminOnly(o: Outcome): Outcome {
    match o
    case Reject(_, _) => o
    case Next(user) => AdminOnly(user)
  }

  /** The `protect, adminOnly` chain. */
  function ProtectAdmin(header: Option<string>, verify: string -> Option<Id>, users: map<Id, User>): (o: Outcome)
    ensures o.Next? <==>
              HasBearer(header) && verify(TokenOf(header.value)).Some? &&
              verify(TokenOf(header.value)).value in users && users[verify(TokenOf(header.value)).value].isAdmin
    ensures o.Next? ==> o.user == Some(WithoutPassword(users[verify(TokenOf(header.value)).value]))
    ensures o.Reject? ==> o.status == 401 || o == Reject(403, NotAdminMessage)
  {
    ThenAdminOnly(Protect(header, verify, users))
  }

  /** The verifier receives the first word after "Bearer ": "Bearer a b" verifies "a". */
  lemma ExtraWordsIgnored(verify: string -> Option<Id>, users: map<Id, User>)
    ensures HasBearer(Some("Bearer a b"))
    ensures Protect(Some("Bearer a b"), verify, users) ==
            if verify("a").None? then Reject(401, BadTokenMessage) else Next(FindById(users, verify("a").value))
  {
    var h := "Bearer a b";
    assert StartsWith(h, BearerPrefix);
    var rest := h[7..];
    assert rest == "a b";
    assert SpaceIndex(rest) == 1;
    assert TokenOf(h) == "a";
  }

  /** A header whose prefix differs only in case is refused before the verifier is consulted. */
  lemma LowercaseBearerRefused(token: string, verify: string -> Option<Id>, users: map<Id, User>)
    ensures Protect(Some("bearer " + token), verify, users) == Reject(401, NoTokenMessage)
  {
    var h := "bearer " + token;
    assert h[0] == 'b' != BearerPrefix[0];
    assert !StartsWith(h, BearerPrefix);
  }

  /**
   * A token that still verifies but whose user was deleted passes `protect`
   * (with no user attached) and is refused by `adminOnly` with 403, not 401.
   */
  lemma DeletedUserIsForbidden(header: Option<string>, verify: string -> Option<Id>, users: map<Id, User>)
    requires HasBearer(header) && verify(TokenOf(header.value)).Some?
    requires verify(TokenOf(header.value)).value !in users
    ensures Protect(header, verify, users) == Next(None)
    ensures ProtectAdmin(header, verify, users) == Reject(403, NotAdminMessage)
  {
  }
}
