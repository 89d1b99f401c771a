/** The string primitives the controllers lean on: ECMAScript `trim`,
    ASCII lower-casing, decimal digits and zero-padded numbers. */
module Text {
  import opened Common

  /** WhiteSpace and LineTerminator code points of ECMAScript: exactly what
      `String.prototype.trim` strips and what the regex class `\s` matches. */
  predicate IsSpace(c: char) {
    || c == '\t' || c == '\n' || c == '\U{000B}' || c == '\U{000C}' || c == '\r' || c == ' '
    || c == '\U{00A0}' || c == '\U{1680}' || ('\U{2000}' <= c <= '\U{200A}')
    || c == '\U{2028}' || c == '\U{2029}' || c == '\U{202F}' || c == '\U{205F}'
    || c == '\U{3000}' || c == '\U{FEFF}'
  }

  predicate AllSpace(s: string) {
    forall i | 0 <= i < |s| :: IsSpace(s[i])
  }

  /** No white space at either end. */
  predicate Tight(s: string) {
    s == [] || (!IsSpace(s[0]) && !IsSpace(s[|s| - 1]))
  }

  function TrimStart(s: string): string {
    if s != [] && IsSpace(s[0]) then TrimStart(s[1..]) else s
  }

  function TrimEnd(s: string): string {
    if s != [] && IsSpace(s[|s| - 1]) then TrimEnd(s[..|s| - 1]) else s
  }

  /** TrimStart drops leading white space and stops at the first other
      character. */
  lemma {:induction false} TrimStartCuts(s: string)
    ensures |TrimStart(s)| <= |s| && TrimStart(s) == s[|s| - |TrimStart(s)|..]
    ensures AllSpace(s[..|s| - |TrimStart(s)|])
    ensures TrimStart(s) != [] ==> !IsSpace(TrimStart(s)[0])
  {
    if s != [] && IsSpace(s[0]) {
      TrimStartCuts(s[1..]);
      assert TrimStart(s) == TrimStart(s[1..]);
      var k := |s| - |TrimStart(s)|;
      forall i | 0 <= i < k ensures IsSpace(s[..k][i]) {
        if i == 0 { assert s[..k][0] == s[0]; }
        else { assert s[..k][i] == s[1..][..k - 1][i - 1]; }
      }
    }
  }

  /** TrimEnd drops trailing white space and stops at the last other
      character. */
  lemma {:induction false} TrimEndCuts(s: string)
    ensures |TrimEnd(s)| <= |s| && TrimEnd(s) == s[..|TrimEnd(s)|]
    ensures AllSpace(s[|TrimEnd(s)|..])
    ensures TrimEnd(s) != [] ==> !IsSpace(TrimEnd(s)[|TrimEnd(s)| - 1])
  {
    if s != [] && IsSpace(s[|s| - 1]) {
      var t := s[..|s| - 1];
      TrimEndCuts(t);
      assert TrimEnd(s) == TrimEnd(t);
      var k := |TrimEnd(s)|;
      forall i | 0 <= i < |s| - k ensures IsSpace(s[k..][i]) {
        if k + i < |s| - 1 { assert s[k..][i] == t[k..][i]; }
      }
    }
  }

  /** `s.trim()` */
  function Trim(s: string): (r: string)
    ensures Tight(r)
  {
    TrimStartCuts(s);
    TrimEndCuts(TrimStart(s));
    TrimEnd(TrimStart(s))
  }

  /** `!s.trim()`: nothing but white space. */
  predicate Blank(s: string) {
    Trim(s) == ""
  }

  /** Trim cuts white space, and only white space, off both ends. */
  lemma TrimBounds(s: string) returns (a: nat, b: nat)
    ensures a <= b <= |s| && Trim(s) == s[a..b]
    ensures AllSpace(s[..a]) && AllSpace(s[b..])
  {
    var t := TrimStart(s);
    TrimStartCuts(s);
    TrimEndCuts(t);
    a := |s| - |t|;
    b := a + |TrimEnd(t)|;
    assert t == s[a..];
    assert TrimEnd(t) == t[..b - a] == s[a..b];
    assert s[b..] == t[b - a..];
  }

  lemma BlankIffAllSpace(s: string)
    ensures Blank(s) <==> AllSpace(s)
  {
    var a, b := TrimBounds(s);
    if Blank(s) {
      forall i | 0 <= i < |s| ensures IsSpace(s[i]) {
        if i < a { assert s[..a][i] == s[i]; } else { assert s[b..][i - b] == s[i]; }
      }
    }
  }

  lemma TrimTight(s: string)
    requires Tight(s)
    ensures Trim(s) == s
  {
  }

  lemma TrimIdempotent(s: string)
    ensures Trim(Trim(s)) == Trim(s)
  {
    TrimTight(Trim(s));
  }

  function LowerChar(c: char): (d: char)
    ensures 'A' <= c <= 'Z' ==> 'a' <= d <= 'z'
    ensures !('A' <= c <= 'Z') ==> d == c
  {
    if 'A' <= c <= 'Z' then (c as int + 32) as char else c
  }

  /** `toLowerCase()` on the ASCII letters; other characters are kept. */
  function ToLower(s: string): (r: string)
    ensures |r| == |s|
    ensures forall i | 0 <= i < |s| :: r[i] == LowerChar(s[i])
  {
    seq(|s|, i requires 0 <= i < |s| => LowerChar(s[i]))
  }

  lemma ToLowerIdempotent(s: string)
    ensures ToLower(ToLower(s)) == ToLower(s)
  {
  }

  /** A lower-cased, trimmed text, as a schema field with `lowercase` and
      `trim` stores it. */
  predicate NormalEmail(e: string) {
    ToLower(e) == e && Tight(e)
  }

  lemma LowerKeepsTight(s: string)
    requires Tight(s)
    ensures Tight(ToLower(s))
  {
  }

  /** A truthy body field, trimmed; absent otherwise. */
  function TrimmedIfTruthy(f: Option<string>): (r: Option<string>)
    ensures r.Some? <==> Truthy(f)
    ensures r.Some? ==> r.value == Trim(f.value) && Tight(r.value)
  {
    if Truthy(f) then Some(Trim(f.value)) else None
  }

  /** A truthy e-mail field, trimmed and lower-cased; absent otherwise. */
  function EmailIfTruthy(f: Option<string>): (r: Option<string>)
    ensures r.Some? <==> Truthy(f)
    ensures r.Some? ==> NormalEmail(r.value) && r.value == ToLower(Trim(f.value))
  {
    if Truthy(f) then
      LowerKeepsTight(Trim(f.value));
      ToLowerIdempotent(Trim(f.value));
      Some(ToLower(Trim(f.value)))
    else None
  }

  predicate IsDigit(c: char) {
    '0' <= c <= '9'
  }

  predicate AllDigits(s: string) {
    forall i | 0 <= i < |s| :: IsDigit(s[i])
  }

  function DigitValue(c: char): (v: nat)
    requires IsDigit(c)
    ensures v < 10
  {
    c as int - '0' as int
  }

  /** `parseInt(s, 10)` of a string of decimal digits. */
  function DecimalValue(s: string): nat
    requires AllDigits(s)
  {
    if s == [] then 0 else DecimalValue(s[..|s| - 1]) * 10 + DigitValue(s[|s| - 1])
  }

  lemma Decimal2(s: string)
    requires |s| == 2 && AllDigits(s)
    ensures DecimalValue(s) == DigitValue(s[0]) * 10 + DigitValue(s[1])
  {
    assert s[..1][..0] == [] && s[..1][0] == s[0];
    assert DecimalValue(s[..1]) == DigitValue(s[0]);
  }

  lemma Decimal4(s: string)
    requires |s| == 4 && AllDigits(s)
    ensures DecimalValue(s) == DecimalValue(s[..2]) * 100 + DecimalValue(s[2..])
    ensures DecimalValue(s) < 10000
  {
    Decimal2(s[..2]);
    Decimal2(s[2..]);
    assert s[..3][..2] == s[..2];
    assert s[..3][..2][..1][..0] == [];
  }

  function DigitChar(n: nat): (c: char)
    requires n < 10
    ensures IsDigit(c) && DigitValue(c) == n
  {
    ('0' as int + n) as char
  }

  /** Two-digit zero-padded decimal, as in "07". */
  function Pad2(n: nat): (s: string)
    requires n < 100
    ensures |s| == 2 && AllDigits(s) && Tight(s)
  {
    [DigitChar(n / 10), DigitChar(n % 10)]
  }

  /** Four-digit zero-padded decimal, as in "2024". */
  function Pad4(n: nat): (s: string)
    requires n < 10000
    ensures |s| == 4 && AllDigits(s) && Tight(s)
  {
    Pad2(n / 100) + Pad2(n % 100)
  }

  lemma Pad2Value(n: nat)
    requires n < 100
    ensures DecimalValue(Pad2(n)) == n
  {
    Decimal2(Pad2(n));
  }

  lemma Pad4Value(n: nat)
    requires n < 10000
    ensures DecimalValue(Pad4(n)) == n
  {
    var s := Pad4(n);
    Decimal4(s);
    assert s[..2] == Pad2(n / 100) && s[2..] == Pad2(n % 100);
    Pad2Value(n / 100);
    Pad2Value(n % 100);
  }
}
