/**
 * The three route guards. Each reads the bearer token, verifies it, loads
 * the user it names and, for the admin and seller guards, checks the role;
 * the first check that fails answers the request, and a request that
 * passes them all gets its user attached and goes on to the handler.
 */
module AuthMiddleware {
  import opened Common
  import opened Strings
  import opened UserController

  /** `req.headers.authorization?.split(' ')[1]`, None when missing or empty (falsy). */
  function TokenOf(header: Option<string>): (t: Option<string>)
    ensures t.Some? ==> t.value != "" && ' ' !in t.value
    ensures t.Some? ==> header.Some? && |Split(header.value, ' ')| >= 2 && t.value == Split(header.value, ' ')[1]
    ensures header.None? ==> t.None?
  {
    if header.None? then None
    else
      var parts := Split(header.value, ' ');
      if |parts| >= 2 && parts[1] != "" then Some(parts[1]) else None
  }

  /**
   * The header the client sends, a scheme word and the token separated by
   * one space, gives the token back; anything after a second space is
   * ignored.
   */
  lemma {:induction false} BearerRoundTrip(scheme: string, token: string, rest: string)
    requires ' ' !in scheme && ' ' !in token && token != ""
    ensures TokenOf(Some(scheme + " " + token)) == Some(token)
    ensures TokenOf(Some(scheme + " " + token + " " + rest)) == Some(token)
  {
    SplitWithoutSeparator(token, ' ');
    SplitAround(scheme, token, ' ');
    SplitAround(token, rest, ' ');
    assert scheme + " " + token == scheme + [' '] + token;
    assert scheme + " " + token + " " + rest == scheme + [' '] + (token + [' '] + rest);
    SplitAround(scheme, token + [' '] + rest, ' ');
  }

  /** A header without a space has no second field, so no token. */
  lemma NoSpaceNoToken(header: string)
    requires ' ' !in header
    ensures TokenOf(Some(header)) == None
  {
    SplitWithoutSeparator(header, ' ');
  }

  /** Which guard a route uses. */
  datatype Guard = Protect | AdminOnly | SellerOnly

  /** The role a guard demands, if any. */
  function RequiredRole(g: Guard): Option<string> {
    match g
    case Protect => None
    case AdminOnly => Some("admin")
    case SellerOnly => Some("seller")
  }

  /** The outcome of a guard: the request goes on with its user, or is answered. */
  datatype Decision = Allow(user: User) | Deny(code: nat, message: string)

  const NoToken := "No token, authorization denied"
  const InvalidToken := "Invalid token"
  const UnknownUser := "User not found"

  function RoleDenied(g: Guard): string {
    match g
    case Protect => ""
    case AdminOnly => "Admin access required"
    case SellerOnly => "Seller access required"
  }

  /**
   * The guard's decision. `verify` stands for `jwt.verify` with the server
   * secret: the id the token's payload carries, or None when it throws.
   */
  function Decide(g: Guard, header: Option<string>, verify: string -> Option<Id>, users: seq<User>): (d: Decision)
    ensures d.Allow? <==>
              && TokenOf(header).Some?
              && verify(TokenOf(header).value).Some?
              && FindUser(users, verify(TokenOf(header).value).value) >= 0
              && (RequiredRole(g).Some? ==>
                    users[FindUser(users, verify(TokenOf(header).value).value)].role == RequiredRole(g).value)
    ensures d.Allow? ==> d.user in users && d.user.id == verify(TokenOf(header).value).value
    ensures TokenOf(header).None? ==> d == Deny(401, NoToken)
    ensures TokenOf(header).Some? && verify(TokenOf(header).value).None? ==> d == Deny(401, InvalidToken)
    ensures (TokenOf(header).Some? && verify(TokenOf(header).value).Some?
             && FindUser(users, verify(TokenOf(header).value).value) == -1)
            ==> d == Deny(401, UnknownUser)
    ensures (TokenOf(header).Some? && verify(TokenOf(header).value).Some?
             && FindUser(users, verify(TokenOf(header).value).value) >= 0 && RequiredRole(g).Some?
             && users[FindUser(users, verify(TokenOf(header).value).value)].role != RequiredRole(g).value)
            ==> d == Deny(403, RoleDenied(g))
    ensures d.Deny? && d.code == 403 ==> RequiredRole(g).Some? && d.message == RoleDenied(g)
    ensures d.Deny? ==> d.code == 401 || d.code == 403
  {
    var token := TokenOf(header);
    if token.None? then Deny(401, NoToken)
    else
      var decoded := verify(token.value);
      if decoded.None? then Deny(401, InvalidToken)
      else
        var k := FindUser(users, decoded.value);
        if k == -1 then Deny(401, UnknownUser)
        else if RequiredRole(g).Some? && users[k].role != RequiredRole(g).value then Deny(403, RoleDenied(g))
        else Allow(users[k])
  }

  /**
   * The authentication failures come first and do not depend on the guard:
   * a request one guard refuses with 401 is refused the same way by all.
   */
  lemma AuthenticationBeforeRole(g: Guard, h: Guard, header: Option<string>, verify: string -> Option<Id>, users: seq<User>)
    requires Decide(g, header, verify, users).Deny? && Decide(g, header, verify, users).code == 401
    ensures Decide(h, header, verify, users) == Decide(g, header, verify, users)
  {
  }

  /**
   * The role guards only narrow `protect`: whatever the admin or seller
   * guard lets through, `protect` lets through with the same user; `protect`
   * itself never answers 403; and no request passes both role guards.
   */
  lemma GuardsNarrowProtect(header: Option<string>, verify: string -> Option<Id>, users: seq<User>)
    ensures Decide(AdminOnly, header, verify, users).Allow? ==>
              Decide(Protect, header, verify, users) == Decide(AdminOnly, header, verify, users)
    ensures Decide(SellerOnly, header, verify, users).Allow? ==>
              Decide(Protect, header, verify, users) == Decide(SellerOnly, header, verify, users)
    ensures Decide(Protect, header, verify, users).Deny? ==> Decide(Protect, header, verify, users).code == 401
    ensures !(Decide(AdminOnly, header, verify, users).Allow? && Decide(SellerOnly, header, verify, users).Allow?)
  {
  }

  /** The request as the guards see it: the user they attach and whether the handler ran. */
  class Request {
    var user: Option<User>
    var nextCalled: bool

    constructor ()
      ensures user.None? && !nextCalled
    {
      user := None;
      nextCalled := false;
    }

    /**
     * Runs a guard. When it allows, `req.user` is set and `next()` is
     * called; otherwise the request is answered with the error and left as
     * it was.
     */
    method Run(g: Guard, header: Option<string>, verify: string -> Option<Id>, users: seq<User>)
      returns (answer: Option<(nat, string)>)
      modifies this
      ensures var d := Decide(g, header, verify, users);
              && (d.Allow? ==> answer.None? && user == Some(d.user) && nextCalled)
              && (d.Deny? ==> answer == Some((d.code, d.message)) && user == old(user) && nextCalled == old(nextCalled))
    {
      var token := TokenOf(header);
      if token.None? {
        return Some((401, NoToken));
      }
      var decoded := verify(token.value);
      if decoded.None? {
        return Some((401, InvalidToken));
      }
      var k := FindUser(users, decoded.value);
      if k == -1 {
        return Some((401, UnknownUser));
      }
      if RequiredRole(g).Some? && users[k].role != RequiredRole(g).value {
        return Some((403, RoleDenied(g)));
      }
      user := Some(users[k]);
      nextCalled := true;
      answer := None;
    }
  }
}
