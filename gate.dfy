/** The `protect` middleware: find a session token on the request, verify it, and expose its
    subject to the route handler; plus the token pick of `POST /auth/refresh`, which differs. */
module Gate {
  import opened Base
  import opened Text
  import opened Tokens

  /** Where a request may carry a session token: the customer cookie, the employee cookie and the
      Authorization header. An absent cookie or header is the empty string; the code tests each
      one only for truthiness. */
  datatype Credentials = Credentials(customerToken: string, employeeToken: string, authorization: string)

  const BearerPrefix := "Bearer "
  const Unauthorized := 401
  const NoTokenMessage := "No token, authorization denied"
  const TokenNotValidMessage := "Token is not valid"

  /** The token of an Authorization header of the form `Bearer <token>`; empty otherwise. */
  function BearerToken(authorization: string): (r: string)
    ensures !StartsWith(authorization, BearerPrefix) ==> r == ""
    ensures ' ' !in r
  {
    if StartsWith(authorization, BearerPrefix) then SecondField(authorization).GetOr("") else ""
  }

  /** A space-free token sent as `Bearer <token>` is read back unchanged, whatever further
      space-separated fields follow it. */
  lemma BearerTokenOf(token: string, tail: string)
    requires ' ' !in token
    requires tail == [] || tail[0] == ' '
    ensures BearerToken(BearerPrefix + token + tail) == token
  {
    assert BearerPrefix + token + tail == "Bearer" + " " + token + tail;
    SecondFieldOf("Bearer", token, tail);
  }

  /** The token `protect` goes on with: the customer cookie, else the employee cookie, else the
      bearer token of the header ("" when there is none). */
  function SelectToken(c: Credentials): (r: string)
    ensures c.customerToken != "" ==> r == c.customerToken
    ensures c.customerToken == "" && c.employeeToken != "" ==> r == c.employeeToken
    ensures c.customerToken == "" && c.employeeToken == "" ==> r == BearerToken(c.authorization)
  {
    if c.customerToken != "" then c.customerToken
    else if c.employeeToken != "" then c.employeeToken
    else BearerToken(c.authorization)
  }

  /** Either the handler runs with `req.user` set to the subject, or the request is answered 401. */
  datatype GateResult = Admit(user: Id) | Deny(status: nat, message: string)

  /** `protect`. */
  function Protect(c: Credentials, signed: set<Token>, nowMs: nat): (g: GateResult)
    ensures SelectToken(c) == "" ==> g == Deny(Unauthorized, NoTokenMessage)
    ensures SelectToken(c) != "" && Verify(signed, SelectToken(c), nowMs).Err?
            ==> g == Deny(Unauthorized, TokenNotValidMessage)
    ensures g.Admit? <==>
              exists t :: t in signed && Encode(t) == SelectToken(c) && Seconds(nowMs) < t.expiry
    ensures g.Admit? ==>
              exists t :: t in signed && Encode(t) == SelectToken(c) && g.user == t.subject
  {
    var token := SelectToken(c);
    if token == "" then Deny(Unauthorized, NoTokenMessage)
    else
      match Verify(signed, token, nowMs)
      case Err(_) => Deny(Unauthorized, TokenNotValidMessage)
      case Ok(subject) => Admit(subject)
  }

  /** The gate does not look at the kind of principal: a signed, unexpired token admits its
      subject from the customer cookie, from the employee cookie and as a bearer token alike. */
  lemma GateIgnoresPrincipalKind(signed: set<Token>, t: Token, nowMs: nat)
    requires t in signed && Seconds(nowMs) < t.expiry
    ensures Protect(Credentials(Encode(t), "", ""), signed, nowMs) == Admit(t.subject)
    ensures Protect(Credentials("", Encode(t), ""), signed, nowMs) == Admit(t.subject)
    ensures Protect(Credentials("", "", BearerPrefix + Encode(t)), signed, nowMs) == Admit(t.subject)
  {
    BearerTokenOf(Encode(t), []);
    assert BearerPrefix + Encode(t) + [] == BearerPrefix + Encode(t);
    forall u | Encode(u) == Encode(t) ensures u == t { EncodeInjective(u, t); }
  }

  /** A present customer cookie decides alone: the other two sources are never consulted. */
  lemma CustomerCookieDecides(c: Credentials, signed: set<Token>, nowMs: nat)
    requires c.customerToken != ""
    ensures Protect(c, signed, nowMs) == Protect(Credentials(c.customerToken, "", ""), signed, nowMs)
  {
  }

  /** Without cookies, a header that does not start with `Bearer ` counts as no token at all. */
  lemma NonBearerHeaderIsNoToken(authorization: string, signed: set<Token>, nowMs: nat)
    requires !StartsWith(authorization, BearerPrefix)
    ensures Protect(Credentials("", "", authorization), signed, nowMs) == Deny(Unauthorized, NoTokenMessage)
  {
  }

  /** The token `POST /auth/refresh` goes on with: the customer cookie, else the second
      space-separated field of the Authorization header whatever its first word ("" when absent).
      The employee cookie is not consulted. */
  function RefreshToken(c: Credentials): (r: string)
    ensures c.customerToken != "" ==> r == c.customerToken
    ensures c.customerToken == "" && ' ' !in c.authorization ==> r == ""
  {
    if c.customerToken != "" then c.customerToken else SecondField(c.authorization).GetOr("")
  }

  /** Refresh takes the header's second field under any scheme word, whatever fields follow it,
      and ignores the employee cookie. */
  lemma RefreshTokenAnyScheme(scheme: string, token: string, tail: string, employeeToken: string)
    requires ' ' !in scheme && ' ' !in token
    requires tail == [] || tail[0] == ' '
    ensures RefreshToken(Credentials("", employeeToken, scheme + " " + token + tail)) == token
  {
    SecondFieldOf(scheme, token, tail);
  }
}
