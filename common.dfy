/** Value-level helpers shared by every screen and hook: optional values,
    the JavaScript string operations the client relies on (`trim`,
    `toLowerCase`, `length`, `||` defaults, `Number.prototype.toString`)
    and the code-point order the document store uses to compare strings. */
module Common {

  datatype Option<+T> = None | Some(value: T)

  /** `x || fallback` for an optional string: a missing or empty string
      falls back. */
  function StringOr(o: Option<string>, fallback: string): (r: string)
    ensures o.Some? && o.value != "" ==> r == o.value
    ensures (o.None? || o.value == "") ==> r == fallback
  {
    if o.Some? && o.value != "" then o.value else fallback
  }

  /** A present, non-empty string (the truthiness test `if (!x)`). */
  predicate Present(o: Option<string>) {
    o.Some? && o.value != ""
  }

  // ---------------------------------------------------------------------
  // String.prototype.trim

  /** The characters `trim` removes: ECMAScript WhiteSpace (TAB, VT, FF,
      SPACE, NBSP, ZWNBSP and the Space_Separator category) and
      LineTerminator (LF, CR, LS, PS). */
  predicate IsJsWhitespace(c: char) {
    || c == '\t' || c == '\U{B}' || c == '\U{C}' || c == ' ' || c == '\U{A0}'
    || c == '\U{FEFF}' || c == '\U{1680}' || ('\U{2000}' <= c <= '\U{200A}')
    || c == '\U{202F}' || c == '\U{205F}' || c == '\U{3000}'
    || c == '\n' || c == '\r' || c == '\U{2028}' || c == '\U{2029}'
  }

  ghost predicate AllWhitespace(s: string) {
    forall i :: 0 <= i < |s| ==> IsJsWhitespace(s[i])
  }

  function TrimStart(s: string): (r: string)
    ensures |r| <= |s|
    ensures r != [] ==> !IsJsWhitespace(r[0])
  {
    if |s| > 0 && IsJsWhitespace(s[0]) then TrimStart(s[1..]) else s
  }

  function TrimEnd(s: string): (r: string)
    ensures |r| <= |s|
    ensures r != [] ==> !IsJsWhitespace(r[|r| - 1])
  {
    if |s| > 0 && IsJsWhitespace(s[|s| - 1]) then TrimEnd(s[..|s| - 1]) else s
  }

  /** `r` is `s` with some whitespace removed from each end and nothing
      else. */
  ghost predicate StrippedOf(r: string, s: string) {
    exists k, m :: 0 <= k <= m <= |s| && r == s[k..m] && AllWhitespace(s[..k]) && AllWhitespace(s[m..])
  }

  /** `trim`: a piece of `s` that neither begins nor ends with
      whitespace (which piece is `TrimIsStripped`). */
  function Trim(s: string): (r: string)
    ensures |r| <= |s|
    ensures r != [] ==> !IsJsWhitespace(r[0]) && !IsJsWhitespace(r[|r| - 1])
  {
    var t := TrimStart(s);
    TrimEndIsPrefix(t);
    TrimEnd(t)
  }

  /** `trim` removes whitespace from the two ends of `s` and nothing
      else. */
  lemma TrimIsStripped(s: string)
    ensures StrippedOf(Trim(s), s)
  {
    var t := TrimStart(s);
    TrimStartIsSuffix(s);
    TrimEndIsPrefix(t);
    var k := |s| - |t|;
    var m := k + |TrimEnd(t)|;
    assert Trim(s) == s[k..m];
    assert s[m..] == t[|TrimEnd(t)|..];
  }

  /** `trimStart` drops a whitespace prefix. */
  lemma {:induction false} TrimStartIsSuffix(s: string)
    ensures var k := |s| - |TrimStart(s)|;
      TrimStart(s) == s[k..] && AllWhitespace(s[..k])
    decreases |s|
  {
    if |s| > 0 && IsJsWhitespace(s[0]) {
      TrimStartIsSuffix(s[1..]);
      var k := |s| - |TrimStart(s)|;
      assert s[1..][k - 1..] == s[k..];
      assert forall i :: 1 <= i < k ==> s[i] == s[1..][..k - 1][i - 1];
    }
  }

  /** `trimEnd` drops a whitespace suffix. */
  lemma {:induction false} TrimEndIsPrefix(s: string)
    ensures TrimEnd(s) == s[..|TrimEnd(s)|] && AllWhitespace(s[|TrimEnd(s)|..])
    decreases |s|
  {
    if |s| > 0 && IsJsWhitespace(s[|s| - 1]) {
      var p := s[..|s| - 1];
      TrimEndIsPrefix(p);
      var j := |TrimEnd(s)|;
      assert p[..j] == s[..j];
      assert forall i :: j <= i < |s| - 1 ==> s[i] == p[j..][i - j];
    }
  }

  /** `!s.trim()`: the string is empty once trimmed. */
  predicate IsBlank(s: string) {
    Trim(s) == ""
  }

  lemma {:induction false} TrimStartEmpty(s: string)
    ensures TrimStart(s) == "" <==> AllWhitespace(s)
    decreases |s|
  {
    if |s| > 0 && IsJsWhitespace(s[0]) {
      TrimStartEmpty(s[1..]);
      assert AllWhitespace(s) <==> AllWhitespace(s[1..]) by {
        if AllWhitespace(s[1..]) {
          forall i | 0 <= i < |s| ensures IsJsWhitespace(s[i]) {
            if i > 0 { assert s[i] == s[1..][i - 1]; }
          }
        }
      }
    }
  }

  lemma {:induction false} TrimEndOfNonBlankHead(t: string)
    requires t != [] && !IsJsWhitespace(t[0])
    ensures TrimEnd(t) != []
    decreases |t|
  {
    if IsJsWhitespace(t[|t| - 1]) {
      TrimEndOfNonBlankHead(t[..|t| - 1]);
    }
  }

  /** A string is blank exactly when every character is one `trim` removes. */
  lemma BlankIffAllWhitespace(s: string)
    ensures IsBlank(s) <==> AllWhitespace(s)
  {
    TrimStartEmpty(s);
    var t := TrimStart(s);
    if t != [] {
      TrimEndOfNonBlankHead(t);
    }
  }

  // ---------------------------------------------------------------------
  // Code-point order on strings (the store's comparison of string fields)

  /** Strict lexicographic order on code points. */
  predicate LexLt(a: string, b: string)
    decreases |a|
  {
    |b| > 0 && (|a| == 0 || a[0] < b[0] || (a[0] == b[0] && LexLt(a[1..], b[1..])))
  }

  predicate LexLe(a: string, b: string) {
    a == b || LexLt(a, b)
  }

  lemma {:induction false} LexLtIrreflexive(a: string)
    ensures !LexLt(a, a)
    decreases |a|
  {
    if |a| > 0 { LexLtIrreflexive(a[1..]); }
  }

  lemma {:induction false} LexLtAsymmetric(a: string, b: string)
    ensures !(LexLt(a, b) && LexLt(b, a))
    decreases |a|
  {
    if |a| > 0 && |b| > 0 && a[0] == b[0] { LexLtAsymmetric(a[1..], b[1..]); }
  }

  lemma {:induction false} LexLtTransitive(a: string, b: string, c: string)
    requires LexLt(a, b) && LexLt(b, c)
    ensures LexLt(a, c)
    decreases |a|
  {
    if |a| > 0 && a[0] == b[0] && b[0] == c[0] {
      LexLtTransitive(a[1..], b[1..], c[1..]);
    }
  }

  lemma {:induction false} LexLtTotal(a: string, b: string)
    ensures a == b || LexLt(a, b) || LexLt(b, a)
    decreases |a|
  {
    if |a| > 0 && |b| > 0 && a[0] == b[0] {
      LexLtTotal(a[1..], b[1..]);
      if a[1..] == b[1..] {
        assert a == [a[0]] + a[1..] && b == [b[0]] + b[1..];
      }
    }
  }

  predicate IsPrefix(p: string, s: string) {
    |p| <= |s| && s[..|p|] == p
  }

  // ---------------------------------------------------------------------
  // String.prototype.toLowerCase, restricted to ASCII letters

  function LowerChar(c: char): char {
    if 'A' <= c <= 'Z' then (c as int + 32) as char else c
  }

  function ToLowerAscii(s: string): (r: string)
    ensures |r| == |s|
    ensures forall i :: 0 <= i < |s| ==> r[i] == LowerChar(s[i])
  {
    seq(|s|, i requires 0 <= i < |s| => LowerChar(s[i]))
  }

  // ---------------------------------------------------------------------
  // String.prototype.length counts UTF-16 code units

  /** The JavaScript length of a string: characters outside the Basic
      Multilingual Plane take two code units. */
  function Utf16Length(s: string): (n: nat)
    ensures |s| <= n <= 2 * |s|
    ensures (forall i :: 0 <= i < |s| ==> s[i] as int <= 0xFFFF) ==> n == |s|
  {
    if |s| == 0 then 0 else (if s[0] as int > 0xFFFF then 2 else 1) + Utf16Length(s[1..])
  }

  // ---------------------------------------------------------------------
  // Number.prototype.toString for non-negative integers

  function DigitChar(d: nat): (c: char)
    requires d < 10
    ensures '0' <= c <= '9'
    ensures DigitValue(c) == d
  {
    ('0' as int + d) as char
  }

  /** The value of a decimal digit character. */
  function DigitValue(c: char): nat {
    if '0' <= c <= '9' then c as int - '0' as int else 0
  }

  /** A decimal numeral without leading zeros. */
  predicate IsDecimal(s: string) {
    && |s| >= 1
    && (forall i :: 0 <= i < |s| ==> '0' <= s[i] <= '9')
    && (s[0] == '0' ==> |s| == 1)
  }

  /** The number a string of decimal digits denotes, most significant
      digit first. */
  function DecimalValue(s: string): nat
    decreases |s|
  {
    if s == [] then 0 else 10 * DecimalValue(s[..|s| - 1]) + DigitValue(s[|s| - 1])
  }

  /** `String(n)` for a non-negative integer: its decimal digits. */
  function NatToString(n: nat): (r: string)
    ensures IsDecimal(r)
    ensures n >= 1 ==> r[0] != '0'
    decreases n
  {
    if n < 10 then [DigitChar(n)] else NatToString(n / 10) + [DigitChar(n % 10)]
  }

  /** The digits `NatToString` writes denote `n`. */
  lemma {:induction false} NatToStringValue(n: nat)
    ensures DecimalValue(NatToString(n)) == n
    decreases n
  {
    var r := NatToString(n);
    if n < 10 {
      assert r[..0] == [];
    } else {
      NatToStringValue(n / 10);
      assert r[..|r| - 1] == NatToString(n / 10);
    }
  }

  /** Distinct numbers are written differently. */
  lemma NatToStringInjective(a: nat, b: nat)
    requires NatToString(a) == NatToString(b)
    ensures a == b
  {
    NatToStringValue(a);
    NatToStringValue(b);
  }
}
