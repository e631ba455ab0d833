/** String helpers with the meaning of the JavaScript built-ins the source calls. */
module Text {
  import opened Wrappers

  /** JavaScript truthiness of an optional string: set and not empty. */
  predicate Truthy(s: Option<string>) {
    s.Some? && s.value != ""
  }

  /** `s.startsWith(p)` */
  predicate StartsWith(s: string, p: string) {
    |p| <= |s| && s[..|p|] == p
  }

  /** `s.includes(p)`: `p` starts at the first position of `s` or somewhere later. */
  predicate Contains(s: string, p: string)
    decreases |s|
  {
    StartsWith(s, p) || (|p| < |s| && Contains(s[1..], p))
  }

  /** `Contains` is the window search: some window of `s` equals `p`. */
  lemma {:induction false} ContainsIffWindow(s: string, p: string)
    ensures Contains(s, p) <==> exists i | 0 <= i <= |s| - |p| :: StartsWith(s[i..], p)
    decreases |s|
  {
    if StartsWith(s, p) {
      assert s[0..] == s;
    } else if |p| < |s| {
      ContainsIffWindow(s[1..], p);
      if exists i | 0 <= i <= |s| - |p| :: StartsWith(s[i..], p) {
        var i :| 0 <= i <= |s| - |p| && StartsWith(s[i..], p);
        assert i != 0 by { assert s[0..] == s; }
        assert s[1..][i - 1..] == s[i..];
      }
      if Contains(s[1..], p) {
        var i :| 0 <= i <= |s[1..]| - |p| && StartsWith(s[1..][i..], p);
        assert s[1..][i..] == s[i + 1..];
      }
    } else {
      assert s[0..] == s;
    }
  }

  lemma {:induction false} ContainsInfix(a: string, p: string, b: string)
    ensures Contains(a + p + b, p)
    decreases |a|
  {
    var s := a + p + b;
    if a == [] {
      assert s[..|p|] == p;
    } else {
      ContainsInfix(a[1..], p, b);
      assert s[1..] == a[1..] + p + b;
    }
  }

  lemma ShorterContainsNothingLonger(s: string, p: string)
    requires |s| < |p|
    ensures !Contains(s, p)
  {
  }

  /** The characters `String.prototype.trim` removes: ECMAScript WhiteSpace
      (tab, vertical tab, form feed, space, no-break space, BOM and the Unicode
      space separators) and LineTerminator (LF, CR, LS, PS). */
  predicate IsJsWhitespace(c: char) {
    c == '\U{9}' || c == '\U{B}' || c == '\U{C}' || c == ' ' || c == '\U{A0}' || c == '\U{FEFF}'
    || c == '\U{1680}' || ('\U{2000}' <= c <= '\U{200A}') || c == '\U{202F}' || c == '\U{205F}' || c == '\U{3000}'
    || c == '\U{A}' || c == '\U{D}' || c == '\U{2028}' || c == '\U{2029}'
  }

  predicate AllWhitespace(s: string) {
    forall i | 0 <= i < |s| :: IsJsWhitespace(s[i])
  }

  /** A whitespace character before a run of whitespace gives a longer run. */
  lemma WhitespaceCons(s: string, k: nat)
    requires 0 < k <= |s| && IsJsWhitespace(s[0]) && AllWhitespace(s[1..][..k - 1])
    ensures AllWhitespace(s[..k])
  {
    forall i | 0 <= i < k ensures IsJsWhitespace(s[..k][i]) {
      if i > 0 { assert s[..k][i] == s[1..][..k - 1][i - 1]; }
    }
  }

  /** A run of whitespace before a final whitespace character gives a longer run. */
  lemma WhitespaceSnoc(s: string, k: nat)
    requires k < |s| && IsJsWhitespace(s[|s| - 1]) && AllWhitespace(s[..|s| - 1][k..])
    ensures AllWhitespace(s[k..])
  {
    forall i | 0 <= i < |s| - k ensures IsJsWhitespace(s[k..][i]) {
      if i < |s| - 1 - k { assert s[k..][i] == s[..|s| - 1][k..][i]; }
    }
  }

  /** How many whitespace characters `s` starts with. */
  function LeadingWhitespace(s: string): (k: nat)
    ensures k <= |s| && AllWhitespace(s[..k])
    ensures k == |s| || !IsJsWhitespace(s[k])
  {
    if s != [] && IsJsWhitespace(s[0]) then
      var k := LeadingWhitespace(s[1..]);
      assert k == |s[1..]| || s[k + 1] == s[1..][k];
      WhitespaceCons(s, k + 1);
      k + 1
    else 0
  }

  /** `s.trimStart()` */
  function TrimStart(s: string): (r: string)
    ensures |r| <= |s| && r == s[|s| - |r|..]
    ensures AllWhitespace(s[..|s| - |r|])
    ensures r == [] || !IsJsWhitespace(r[0])
  {
    var k := LeadingWhitespace(s);
    assert k < |s| ==> s[k..][0] == s[k];
    s[k..]
  }

  /** `s.trimEnd()` */
  function TrimEnd(s: string): (r: string)
    ensures |r| <= |s| && r == s[..|r|]
    ensures AllWhitespace(s[|r|..])
    ensures r == [] || !IsJsWhitespace(r[|r| - 1])
  {
    if s != [] && IsJsWhitespace(s[|s| - 1]) then
      var r := TrimEnd(s[..|s| - 1]);
      WhitespaceSnoc(s, |r|);
      r
    else s
  }

  /** `s.trim()` */
  function Trim(s: string): string {
    TrimEnd(TrimStart(s))
  }

  /** What trimming keeps: a contiguous window of `s` whose ends are not
      whitespace and outside which there is only whitespace. */
  lemma TrimIsWindow(s: string)
    ensures exists i, j {:trigger s[i..j]} | 0 <= i <= j <= |s| ::
      Trim(s) == s[i..j] && AllWhitespace(s[..i]) && AllWhitespace(s[j..])
    ensures Trim(s) == [] || (!IsJsWhitespace(Trim(s)[0]) && !IsJsWhitespace(Trim(s)[|Trim(s)| - 1]))
  {
    var t := TrimStart(s);
    var r := TrimEnd(t);
    var i := |s| - |t|;
    var j := i + |r|;
    assert s[i..j] == r;
    assert s[j..] == t[|r|..];
  }

  /** Trimming leaves nothing exactly when the string is all whitespace:
      the test behind the source's `!token` after `trim()`. */
  lemma TrimEmptyIffBlank(s: string)
    ensures Trim(s) == [] <==> AllWhitespace(s)
  {
    var t := TrimStart(s);
    if Trim(s) == [] {
      assert t[|Trim(s)|..] == t;
      assert t == [] && s[..|s|] == s;
    }
  }

  lemma TrimIdempotent(s: string)
    ensures Trim(Trim(s)) == Trim(s)
  {
    var r := Trim(s);
    TrimIsWindow(s);
  }

  /** ASCII lower-casing: `toLowerCase` restricted to the characters of a hex address. */
  function LowerChar(c: char): char {
    if 'A' <= c <= 'Z' then (c as int + 32) as char else c
  }

  function ToLower(s: string): (r: string)
    ensures |r| == |s|
    ensures forall i | 0 <= i < |s| :: r[i] == LowerChar(s[i])
  {
    if s == [] then [] else [LowerChar(s[0])] + ToLower(s[1..])
  }

  /** Address comparison after lower-casing both sides. */
  predicate SameAddress(a: string, b: string) {
    ToLower(a) == ToLower(b)
  }

  lemma SameAddressIsEquivalence(a: string, b: string, c: string)
    ensures SameAddress(a, a)
    ensures SameAddress(a, b) ==> SameAddress(b, a)
    ensures SameAddress(a, b) && SameAddress(b, c) ==> SameAddress(a, c)
  {
  }

  /** Two addresses that differ only in the case of their letters are the same address. */
  lemma {:induction false} CaseOnlyDifference(a: string, b: string)
    requires |a| == |b|
    requires forall i | 0 <= i < |a| :: LowerChar(a[i]) == LowerChar(b[i])
    ensures SameAddress(a, b)
  {
    assert ToLower(a) == ToLower(b) by {
      forall i | 0 <= i < |a| ensures ToLower(a)[i] == ToLower(b)[i] { }
    }
  }

  function DigitChar(d: nat): char
    requires d < 10
  {
    ('0' as int + d) as char
  }

  predicate IsDigit(c: char) {
    '0' <= c <= '9'
  }

  function DigitValue(c: char): nat
    requires IsDigit(c)
  {
    c as int - '0' as int
  }

  /** The number a string of decimal digits denotes, most significant digit first. */
  function DecimalValue(s: string): nat
    requires forall i | 0 <= i < |s| :: IsDigit(s[i])
  {
    if s == [] then 0
    else DecimalValue(s[..|s| - 1]) * 10 + DigitValue(s[|s| - 1])
  }

  /** Decimal rendering of a natural number, as `${n}` prints it. */
  function NatToString(n: nat): (r: string)
    ensures r != [] && forall i | 0 <= i < |r| :: IsDigit(r[i])
    ensures (r[0] == '0') <==> n == 0
  {
    if n < 10 then [DigitChar(n)] else NatToString(n / 10) + [DigitChar(n % 10)]
  }

  /** The digits `NatToString` prints denote the number itself. */
  lemma {:induction false} NatToStringValue(n: nat)
    ensures DecimalValue(NatToString(n)) == n
  {
    if n >= 10 {
      var s := NatToString(n);
      NatToStringValue(n / 10);
      assert s[..|s| - 1] == NatToString(n / 10);
    }
  }

  /** Different numbers print differently. */
  lemma NatToStringInjective(m: nat, n: nat)
    requires NatToString(m) == NatToString(n)
    ensures m == n
  {
    NatToStringValue(m);
    NatToStringValue(n);
  }

  /** Decimal rendering of an integer, with a leading `-` when negative. */
  function IntToString(n: int): (r: string)
    ensures r != []
    ensures (r[0] == '-') <==> n < 0
    ensures n < 0 ==> r == "-" + NatToString(-n) && DecimalValue(r[1..]) == -n
    ensures n >= 0 ==> r == NatToString(n) && DecimalValue(r) == n
  {
    NatToStringValue(if n < 0 then -n else n);
    assert n < 0 ==> ("-" + NatToString(-n))[1..] == NatToString(-n);
    if n < 0 then "-" + NatToString(-n) else NatToString(n)
  }
}
