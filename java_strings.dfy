/**
 * The few java.lang.String and CommonHelper operations the core relies on,
 * written out with the semantics Java gives them.
 */
module JavaStrings {
  import opened Wrappers

  predicate StartsWith(s: string, prefix: string) {
    |prefix| <= |s| && s[..|prefix|] == prefix
  }

  predicate EndsWith(s: string, suffix: string) {
    |suffix| <= |s| && s[|s| - |suffix|..] == suffix
  }

  /** One differing character among the first `|prefix|` rules a prefix out. */
  lemma DifferenceRulesOutPrefix(s: string, prefix: string, i: nat)
    requires i < |prefix| && i < |s| && s[i] != prefix[i]
    ensures !StartsWith(s, prefix)
  {
  }

  /** `String.trim` strips leading and trailing characters whose code is at most U+0020. */
  predicate IsTrimSpace(c: char) {
    c <= ' '
  }

  predicate IsTrimmed(s: string) {
    s == [] || (!IsTrimSpace(s[0]) && !IsTrimSpace(s[|s| - 1]))
  }

  function TrimStart(s: string): (r: string)
    ensures |r| <= |s| && r == s[|s| - |r|..]
    ensures forall i :: 0 <= i < |s| - |r| ==> IsTrimSpace(s[i])
    ensures r == [] || !IsTrimSpace(r[0])
  {
    if s != [] && IsTrimSpace(s[0]) then TrimStart(s[1..]) else s
  }

  function TrimEnd(s: string): (r: string)
    ensures |r| <= |s| && r == s[..|r|]
    ensures forall i :: |r| <= i < |s| ==> IsTrimSpace(s[i])
    ensures r == [] || !IsTrimSpace(r[|r| - 1])
  {
    if s != [] && IsTrimSpace(s[|s| - 1]) then TrimEnd(s[..|s| - 1]) else s
  }

  /** `String.trim`. */
  function Trim(s: string): (r: string)
    ensures IsTrimmed(r)
    ensures forall c :: c in r ==> c in s
    ensures exists i, j :: 0 <= i <= j <= |s| && r == s[i..j]
              && (forall k :: 0 <= k < i ==> IsTrimSpace(s[k]))
              && (forall k :: j <= k < |s| ==> IsTrimSpace(s[k]))
  {
    var t := TrimStart(s);
    var i := |s| - |t|;
    var r := TrimEnd(t);
    assert r == s[i..i + |r|];
    r
  }

  /** Trimming leaves a string that has nothing to strip as it is. */
  lemma TrimKeepsTrimmed(s: string)
    requires IsTrimmed(s)
    ensures Trim(s) == s
  {
    assert TrimStart(s) == s;
  }

  /** A string trims to nothing exactly when every character of it is stripped. */
  lemma TrimEmptyIff(s: string)
    ensures Trim(s) == [] <==> forall i :: 0 <= i < |s| ==> IsTrimSpace(s[i])
  {
  }

  /** `CommonHelper.isBlank`: null, or nothing left after trimming. */
  predicate IsBlank(s: Option<string>) {
    s.None? || Trim(s.value) == []
  }

  predicate IsNotBlank(s: Option<string>) {
    !IsBlank(s)
  }

  /** `String.indexOf` of a character known to occur. */
  function IndexOf(s: string, c: char): (i: nat)
    requires c in s
    ensures i < |s| && s[i] == c && c !in s[..i]
  {
    if s[0] == c then 0 else
      assert c in s[1..] by { var k :| 0 <= k < |s| && s[k] == c; assert s[1..][k - 1] == c; }
      var j := IndexOf(s[1..], c);
      assert s[..j + 1] == [s[0]] + s[1..][..j];
      j + 1
  }

  /** `String.replaceAll` of a single literal character by the empty string. */
  function RemoveAll(s: string, c: char): (r: string)
    ensures c !in r
    ensures forall x :: x in r ==> x in s
  {
    if s == [] then []
    else (if s[0] == c then [] else [s[0]]) + RemoveAll(s[1..], c)
  }

  /** Removal works character by character: it distributes over concatenation. */
  lemma {:induction false} RemoveAllConcat(a: string, b: string, c: char)
    ensures RemoveAll(a + b, c) == RemoveAll(a, c) + RemoveAll(b, c)
  {
    if a != [] {
      assert (a + b)[1..] == a[1..] + b;
      RemoveAllConcat(a[1..], b, c);
    } else {
      assert a + b == b;
    }
  }

  /** A string without the removed character is left unchanged. */
  lemma {:induction false} RemoveAllAbsent(s: string, c: char)
    requires c !in s
    ensures RemoveAll(s, c) == s
  {
    if s != [] {
      assert c !in s[1..];
      RemoveAllAbsent(s[1..], c);
    }
  }

  /** Upper-casing of the ASCII letters; other characters are left as they are. */
  function AsciiUpper(c: char): (u: char)
    ensures u == c || ('a' <= c <= 'z' && 'A' <= u <= 'Z')
  {
    if 'a' <= c <= 'z' then (c as int - 32) as char else c
  }

  /** `a.equalsIgnoreCase(b)`; a null argument is never equal. */
  predicate EqualsIgnoreCase(a: string, b: Option<string>) {
    b.Some? && |a| == |b.value| &&
    forall i :: 0 <= i < |a| ==> AsciiUpper(a[i]) == AsciiUpper(b.value[i])
  }

  /** `"" + obj` in Java: a null reference is rendered as the text `null`. */
  function JavaToString(s: Option<string>): string {
    match s
    case Some(v) => v
    case None => "null"
  }

  predicate IsDigit(c: char) {
    '0' <= c <= '9'
  }

  predicate IsDigits(s: string) {
    s != [] && forall i :: 0 <= i < |s| ==> IsDigit(s[i])
  }

  function DigitChar(d: nat): (c: char)
    requires d < 10
    ensures IsDigit(c)
  {
    ('0' as int + d) as char
  }

  /** The decimal digits of a natural number, most significant first. */
  function NatDecimal(n: nat): (r: string)
    ensures IsDigits(r)
    decreases n
  {
    if n < 10 then [DigitChar(n)] else NatDecimal(n / 10) + [DigitChar(n % 10)]
  }

  /** `"" + n` for a Java `int`. */
  function DecimalString(n: int): (r: string)
    ensures r != []
  {
    if n < 0 then "-" + NatDecimal(-n) else NatDecimal(n)
  }

  function DigitsValue(s: string): int
    requires forall i :: 0 <= i < |s| ==> IsDigit(s[i])
  {
    if s == [] then 0 else DigitsValue(s[..|s| - 1]) * 10 + (s[|s| - 1] as int - '0' as int)
  }

  /** `Integer.parseInt` restricted to the strings `DecimalString` produces. */
  function ParseDecimal(s: string): int
    requires IsDigits(s) || (|s| > 1 && s[0] == '-' && IsDigits(s[1..]))
  {
    if s[0] == '-' then -DigitsValue(s[1..]) else DigitsValue(s)
  }

  lemma {:induction false} NatDecimalRoundTrip(n: nat)
    ensures DigitsValue(NatDecimal(n)) == n
    decreases n
  {
    if n >= 10 {
      var s := NatDecimal(n / 10) + [DigitChar(n % 10)];
      assert s[..|s| - 1] == NatDecimal(n / 10);
      NatDecimalRoundTrip(n / 10);
    }
  }

  /** Reading the decimal rendering of an integer back gives the integer. */
  lemma DecimalRoundTrip(n: int)
    ensures var s := DecimalString(n);
            (IsDigits(s) || (|s| > 1 && s[0] == '-' && IsDigits(s[1..]))) && ParseDecimal(s) == n
  {
    if n < 0 {
      var s := DecimalString(n);
      assert s[1..] == NatDecimal(-n);
      NatDecimalRoundTrip(-n);
    } else {
      NatDecimalRoundTrip(n);
    }
  }
}
