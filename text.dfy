/** Character classes and the string operations the request code relies on: anchored
    single-class patterns (`^[A-Z]{3}$` and friends), JavaScript's `trim`, `startsWith` and
    `split(" ")[1]`, and decimal numerals. Strings are sequences of characters; `|s|` plays
    the part of JavaScript's `s.length`. */
module Text {
  import opened Base

  predicate IsDigit(c: char) { '0' <= c <= '9' }

  predicate IsUpper(c: char) { 'A' <= c <= 'Z' }

  /** The bracket classes used by the validators: `\d`, `[A-Z]` and `[A-Z0-9]`.
      Without the `u` flag `\d` is the ten ASCII digits only. */
  datatype CharClass = Digit | Upper | UpperOrDigit

  predicate InClass(k: CharClass, c: char) {
    match k
    case Digit => IsDigit(c)
    case Upper => IsUpper(c)
    case UpperOrDigit => IsUpper(c) || IsDigit(c)
  }

  predicate AllIn(k: CharClass, s: string) {
    forall i :: 0 <= i < |s| ==> InClass(k, s[i])
  }

  /** Upper bound of a repetition `{lo,hi}`; `Unbounded` is `{lo,}`, so `+` is `{1,}`. */
  datatype Bound = AtMost(n: nat) | Unbounded {
    predicate Admits(len: nat) {
      Unbounded? || len <= n
    }
  }

  /** Does `s` match the anchored pattern `^[k]{lo,hi}$`? The matcher consumes one character
      at a time against the single repeated class, lowering both bounds as it goes. */
  function FullMatch(k: CharClass, lo: nat, hi: Bound, s: string): (r: bool)
    ensures r <==> lo <= |s| && hi.Admits(|s|) && AllIn(k, s)
    decreases |s|
  {
    if s == [] then lo == 0
    else if hi == AtMost(0) || !InClass(k, s[0]) then false
    else
      var rest := FullMatch(k, if lo == 0 then 0 else lo - 1, if hi.Unbounded? then Unbounded else AtMost(hi.n - 1), s[1..]);
      assert AllIn(k, s) <==> AllIn(k, s[1..]) by {
        assert forall i :: 0 <= i < |s| - 1 ==> s[1..][i] == s[i + 1];
      }
      rest
  }

  /** The code points `String.prototype.trim` removes: ECMAScript WhiteSpace (including the
      Unicode space separators) and LineTerminator. */
  predicate IsJsSpace(c: char) {
    || c == ' ' || c == '\t' || c == '\n' || c == '\r'
    || c == '\U{B}' || c == '\U{C}' || c == '\U{A0}' || c == '\U{1680}'
    || ('\U{2000}' <= c <= '\U{200A}')
    || c == '\U{2028}' || c == '\U{2029}' || c == '\U{202F}' || c == '\U{205F}'
    || c == '\U{3000}' || c == '\U{FEFF}'
  }

  predicate AllSpace(s: string) {
    forall i :: 0 <= i < |s| ==> IsJsSpace(s[i])
  }

  /** Length of the run of white space at the start of `s`. */
  function LeadingSpaces(s: string): (n: nat)
    ensures n <= |s| && AllSpace(s[..n])
    ensures n < |s| ==> !IsJsSpace(s[n])
    ensures n > 0 ==> IsJsSpace(s[0])
  {
    if s != [] && IsJsSpace(s[0]) then
      var n := 1 + LeadingSpaces(s[1..]);
      assert forall i :: 1 <= i < n ==> s[..n][i] == s[1..][..n - 1][i - 1];
      n
    else 0
  }

  /** Length of the run of white space at the end of `s`. */
  function TrailingSpaces(s: string): (n: nat)
    ensures n <= |s| && AllSpace(s[|s| - n..])
    ensures n < |s| ==> !IsJsSpace(s[|s| - 1 - n])
  {
    if s != [] && IsJsSpace(s[|s| - 1]) then
      var m := TrailingSpaces(s[..|s| - 1]);
      TrailingStep(s, m);
      m + 1
    else 0
  }

  /** One more white-space character at the end lengthens the trailing run by one. */
  lemma {:induction false} TrailingStep(s: string, m: nat)
    requires s != [] && IsJsSpace(s[|s| - 1]) && m < |s|
    requires AllSpace(s[..|s| - 1][|s| - 1 - m..])
    requires m < |s| - 1 ==> !IsJsSpace(s[..|s| - 1][|s| - 2 - m])
    ensures AllSpace(s[|s| - 1 - m..])
    ensures m + 1 < |s| ==> !IsJsSpace(s[|s| - 2 - m])
  {
    var tail := s[..|s| - 1][|s| - 1 - m..];
    var suffix := s[|s| - 1 - m..];
    forall j | 0 <= j < |suffix|
      ensures IsJsSpace(suffix[j])
    {
      if j < m {
        assert suffix[j] == tail[j];
      }
    }
  }

  /** A string is all white space exactly when both of its parts are. */
  lemma AllSpaceConcat(a: string, b: string)
    ensures AllSpace(a + b) <==> AllSpace(a) && AllSpace(b)
  {
    assert forall i :: 0 <= i < |a| ==> (a + b)[i] == a[i];
    assert forall i :: 0 <= i < |b| ==> (a + b)[|a| + i] == b[i];
  }

  /** JavaScript's `s.trim()`: `s` without its leading and trailing white space. */
  function Trim(s: string): (r: string)
    ensures LeadingSpaces(s) + |r| <= |s|
    ensures r == s[LeadingSpaces(s)..LeadingSpaces(s) + |r|]
    ensures AllSpace(s[LeadingSpaces(s) + |r|..])
    ensures LeadingSpaces(s) + |r| < |s| ==> IsJsSpace(s[|s| - 1])
    ensures r != [] ==> !IsJsSpace(r[0]) && !IsJsSpace(r[|r| - 1])
    ensures r == [] <==> AllSpace(s)
  {
    var i := LeadingSpaces(s);
    var n := TrailingSpaces(s[i..]);
    TrimSlice(s, i, n);
    TrimTail(s, i, n);
    TrimBorders(s, i, n);
    TrimEmpty(s, i, n);
    s[i..][..|s| - i - n]
  }

  /** The trimmed text is the part of `s` between its leading and trailing white space. */
  lemma {:induction false} TrimSlice(s: string, i: nat, n: nat)
    requires i == LeadingSpaces(s) && n == TrailingSpaces(s[i..])
    ensures i + n <= |s|
    ensures s[i..][..|s| - i - n] == s[i..|s| - n]
  {
    assert n <= |s[i..]|;
  }

  /** What trimming drops at the end is white space, and it drops something only when `s` ends
      in white space. */
  lemma {:induction false} TrimTail(s: string, i: nat, n: nat)
    requires i == LeadingSpaces(s) && n == TrailingSpaces(s[i..])
    ensures i + n <= |s| && AllSpace(s[|s| - n..])
    ensures n > 0 ==> IsJsSpace(s[|s| - 1])
  {
    var rest := s[i..];
    assert s[|s| - n..] == rest[|rest| - n..];
    assert n > 0 ==> s[|s| - 1] == rest[|rest| - n..][n - 1];
  }

  /** The trimmed text, when there is any, neither starts nor ends with white space. */
  lemma {:induction false} TrimBorders(s: string, i: nat, n: nat)
    requires i == LeadingSpaces(s) && n == TrailingSpaces(s[i..])
    ensures i + n <= |s|
    ensures i < |s| - n ==> !IsJsSpace(s[i]) && !IsJsSpace(s[|s| - n - 1])
  {
    var rest := s[i..];
    assert i < |s| - n ==> s[|s| - n - 1] == rest[|rest| - 1 - n];
  }

  /** The trimmed text is empty exactly when `s` is all white space. */
  lemma {:induction false} TrimEmpty(s: string, i: nat, n: nat)
    requires i == LeadingSpaces(s) && n == TrailingSpaces(s[i..])
    ensures i + n <= |s|
    ensures i + n == |s| <==> AllSpace(s)
  {
    var rest := s[i..];
    assert s == s[..i] + rest;
    AllSpaceConcat(s[..i], rest);
    assert rest == rest[..|rest| - n] + rest[|rest| - n..];
    AllSpaceConcat(rest[..|rest| - n], rest[|rest| - n..]);
  }

  /** Trimming leaves text that neither starts nor ends with white space as it is. */
  lemma TrimUnpadded(s: string)
    requires s != [] && !IsJsSpace(s[0]) && !IsJsSpace(s[|s| - 1])
    ensures Trim(s) == s
  {
  }

  /** Trimming twice is trimming once. */
  lemma TrimIdempotent(s: string)
    ensures Trim(Trim(s)) == Trim(s)
  {
    if Trim(s) != [] {
      TrimUnpadded(Trim(s));
    }
  }

  predicate StartsWith(s: string, prefix: string) {
    |prefix| <= |s| && s[..|prefix|] == prefix
  }

  /** Position of the first occurrence of `c` in `s`, if any. */
  function IndexOf(s: string, c: char): (r: Option<nat>)
    ensures r.None? <==> c !in s
    ensures r.Some? ==> r.value < |s| && s[r.value] == c && c !in s[..r.value]
  {
    if s == [] then None
    else if s[0] == c then Some(0)
    else
      match IndexOf(s[1..], c)
      case None =>
        assert s == [s[0]] + s[1..];
        None
      case Some(i) =>
        assert s[..i + 1] == [s[0]] + s[1..][..i];
        Some(i + 1)
  }

  /** The first occurrence of `c` in `a + [c] + b` is the one right after `a` when `a` has none. */
  lemma IndexOfAfter(a: string, c: char, b: string)
    requires c !in a
    ensures IndexOf(a + [c] + b, c) == Some(|a|)
  {
    var s := a + [c] + b;
    assert s[|a|] == c;
    assert forall j :: 0 <= j < |a| ==> s[j] == a[j];
    assert forall j :: |a| < j <= |s| ==> s[..j][|a|] == c;
  }

  /** JavaScript's `s.split(" ")[1]`: the text between the first space and the next one (or the
      end of `s`); absent when `s` has no space. */
  function SecondField(s: string): (r: Option<string>)
    ensures r.None? <==> ' ' !in s
    ensures r.Some? ==> ' ' !in r.value
  {
    match IndexOf(s, ' ')
    case None => None
    case Some(i) =>
      var rest := s[i + 1..];
      match IndexOf(rest, ' ')
      case None => Some(rest)
      case Some(j) => Some(rest[..j])
  }

  /** Splitting `first + " " + field + tail` on spaces yields `field` in second place when
      neither `first` nor `field` holds a space and `tail` is empty or starts a new field. */
  lemma SecondFieldOf(first: string, field: string, tail: string)
    requires ' ' !in first && ' ' !in field
    requires tail == [] || tail[0] == ' '
    ensures SecondField(first + " " + field + tail) == Some(field)
  {
    var s := first + " " + field + tail;
    assert s == first + [' '] + (field + tail);
    IndexOfAfter(first, ' ', field + tail);
    var rest := s[|first| + 1..];
    assert rest == field + tail;
    if tail == [] {
      assert rest == field;
    } else {
      assert rest == field + [' '] + tail[1..];
      IndexOfAfter(field, ' ', tail[1..]);
      assert rest[..|field|] == field;
    }
  }

  function DigitChar(d: nat): (c: char)
    requires d < 10
    ensures IsDigit(c)
  {
    (48 + d) as char
  }

  function DigitValue(c: char): (d: nat)
    requires IsDigit(c)
    ensures d < 10 && DigitChar(d) == c
  {
    c as int - 48
  }

  /** The shortest decimal numeral of `n`. */
  function Decimal(n: nat): (r: string)
    ensures r != [] && AllIn(Digit, r)
    decreases n
  {
    if n < 10 then [DigitChar(n)] else Decimal(n / 10) + [DigitChar(n % 10)]
  }

  /** The value a numeral of decimal digits denotes. */
  function DecimalValue(s: string): nat
    requires AllIn(Digit, s)
  {
    if s == [] then 0 else DecimalValue(s[..|s| - 1]) * 10 + DigitValue(s[|s| - 1])
  }

  /** Reading back the numeral of `n` gives `n`. */
  lemma {:induction false} DecimalRoundTrip(n: nat)
    ensures DecimalValue(Decimal(n)) == n
    decreases n
  {
    if n >= 10 {
      var s := Decimal(n);
      assert s[..|s| - 1] == Decimal(n / 10);
      DecimalRoundTrip(n / 10);
    }
  }

  /** A string of one class holds no character outside it. */
  lemma OutsideClassAbsent(k: CharClass, s: string, c: char)
    requires AllIn(k, s) && !InClass(k, c)
    ensures c !in s
  {
  }
}
