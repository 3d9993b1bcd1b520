/** Session tokens (`generateToken` and `jwt.verify`). A token carries the subject id and nothing
    else besides the issue and expiry times that signing adds; it expires one hour after issue.
    Signing is modelled by the set of tokens the server has signed: a text is authentic when it is
    the encoding of a signed token. Times are whole seconds, taken from a millisecond clock the
    way the JWT library does. Nothing in a token says whether its subject is a customer or an
    employee. */
module Tokens {
  import opened Base
  import opened Text

  /** `expiresIn: "1h"`. */
  const LifetimeSeconds := 3600
  /** `maxAge` of both session cookies, in milliseconds: the same hour. */
  const CookieMaxAgeMs := 60 * 60 * 1000

  /** The decoded payload of a signed token: `{ id, iat, exp }`. */
  datatype Token = Token(subject: Id, issuedAt: nat, expiry: nat)

  /** Whole seconds of a millisecond clock. */
  function Seconds(nowMs: nat): nat { nowMs / 1000 }

  /** `jwt.sign({ id }, secret, { expiresIn: "1h" })` at time `nowMs`. */
  function Issue(subject: Id, nowMs: nat): (t: Token)
    ensures t.subject == subject
    ensures t.issuedAt * 1000 <= nowMs < t.issuedAt * 1000 + 1000
    ensures t.expiry == t.issuedAt + LifetimeSeconds
  {
    var iat := Seconds(nowMs);
    Token(subject, iat, iat + LifetimeSeconds)
  }

  /** The compact text of a token: three dot-separated decimal fields. It holds no space, so it
      survives a `Bearer <token>` header intact. */
  function Encode(t: Token): (text: string)
    ensures text != [] && ' ' !in text
  {
    var text := Decimal(t.subject) + "." + Decimal(t.issuedAt) + "." + Decimal(t.expiry);
    OutsideClassAbsent(Digit, Decimal(t.subject), ' ');
    OutsideClassAbsent(Digit, Decimal(t.issuedAt), ' ');
    OutsideClassAbsent(Digit, Decimal(t.expiry), ' ');
    text
  }

  /** A non-empty field of digits and its value. */
  function Numeral(s: string): Option<nat> {
    if s != [] && AllIn(Digit, s) then Some(DecimalValue(s)) else None
  }

  /** Read the payload back out of a token text. */
  function Decode(text: string): Option<Token> {
    match IndexOf(text, '.')
    case None => None
    case Some(i) =>
      var rest := text[i + 1..];
      match IndexOf(rest, '.')
      case None => None
      case Some(j) =>
        match (Numeral(text[..i]), Numeral(rest[..j]), Numeral(rest[j + 1..]))
        case (Some(subject), Some(iat), Some(exp)) => Some(Token(subject, iat, exp))
        case _ => None
  }

  lemma NumeralOfDecimal(n: nat)
    ensures Numeral(Decimal(n)) == Some(n)
  {
    DecimalRoundTrip(n);
  }

  /** Decoding the text of a token gives back that token. */
  lemma DecodeEncode(t: Token)
    ensures Decode(Encode(t)) == Some(t)
  {
    var a, b, c := Decimal(t.subject), Decimal(t.issuedAt), Decimal(t.expiry);
    OutsideClassAbsent(Digit, a, '.');
    OutsideClassAbsent(Digit, b, '.');
    var text := Encode(t);
    assert text == a + ['.'] + (b + "." + c);
    IndexOfAfter(a, '.', b + "." + c);
    var rest := text[|a| + 1..];
    assert rest == b + ['.'] + c;
    IndexOfAfter(b, '.', c);
    assert text[..|a|] == a && rest[..|b|] == b && rest[|b| + 1..] == c;
    NumeralOfDecimal(t.subject);
    NumeralOfDecimal(t.issuedAt);
    NumeralOfDecimal(t.expiry);
  }

  /** Distinct tokens have distinct texts. */
  lemma EncodeInjective(t: Token, u: Token)
    requires Encode(t) == Encode(u)
    ensures t == u
  {
    DecodeEncode(t);
    DecodeEncode(u);
  }

  /** Why `jwt.verify` throws. */
  datatype Rejection = Malformed | BadSignature | Expired

  /** `jwt.verify(text, secret)` at time `nowMs`: the subject of an authentic, unexpired token. */
  function Verify(signed: set<Token>, text: string, nowMs: nat): (r: Result<Id, Rejection>)
    ensures r.Ok? <==> exists t :: t in signed && Encode(t) == text && Seconds(nowMs) < t.expiry
    ensures r.Ok? ==> exists t :: t in signed && Encode(t) == text && r.value == t.subject
  {
    match Decode(text)
    case None =>
      assert forall t :: Encode(t) != text by {
        forall t ensures Encode(t) != text { DecodeEncode(t); }
      }
      Err(Malformed)
    case Some(t) =>
      assert forall u :: Encode(u) == text ==> u == t by {
        forall u | Encode(u) == text ensures u == t { DecodeEncode(u); }
      }
      if t !in signed || Encode(t) != text then Err(BadSignature)
      else if Seconds(nowMs) >= t.expiry then Err(Expired)
      else Ok(t.subject)
  }

  /** A token the server issued at `issuedMs` verifies, giving its subject, until the clock reaches
      its expiry second, and is reported expired from then on. */
  lemma IssuedTokenVerifies(signed: set<Token>, subject: Id, issuedMs: nat, nowMs: nat)
    requires Issue(subject, issuedMs) in signed
    ensures Verify(signed, Encode(Issue(subject, issuedMs)), nowMs)
         == if Seconds(nowMs) < Seconds(issuedMs) + LifetimeSeconds then Ok(subject) else Err(Expired)
  {
    DecodeEncode(Issue(subject, issuedMs));
  }

  /** In milliseconds: valid for at least an hour less the second of issue, never for an hour or more. */
  lemma TokenLivesOneHour(signed: set<Token>, subject: Id, issuedMs: nat, nowMs: nat)
    requires Issue(subject, issuedMs) in signed
    ensures issuedMs <= nowMs && nowMs + 1000 <= issuedMs + LifetimeSeconds * 1000
            ==> Verify(signed, Encode(Issue(subject, issuedMs)), nowMs) == Ok(subject)
    ensures nowMs >= issuedMs + LifetimeSeconds * 1000
            ==> Verify(signed, Encode(Issue(subject, issuedMs)), nowMs) == Err(Expired)
  {
    IssuedTokenVerifies(signed, subject, issuedMs, nowMs);
  }

  /** A token the server never signed is refused, however well formed. */
  lemma UnsignedTokenRefused(signed: set<Token>, t: Token, nowMs: nat)
    requires t !in signed
    ensures Verify(signed, Encode(t), nowMs) == Err(BadSignature)
  {
    DecodeEncode(t);
  }
}
