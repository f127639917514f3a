/** String helpers with the JavaScript meaning the services rely on:
    `toLowerCase`, `trim`, decimal rendering of numbers in template
    strings (`$${paramCount}`), and `Array.prototype.join`. */
module Text {
  import opened Wrappers

  /** `toLowerCase`, restricted to the ASCII letters. */
  function LowerChar(c: char): char {
    if 'A' <= c <= 'Z' then (c as int + 32) as char else c
  }

  function ToLower(s: string): (r: string)
    ensures |r| == |s|
    ensures forall i :: 0 <= i < |s| ==> r[i] == LowerChar(s[i])
  {
    if s == [] then [] else [LowerChar(s[0])] + ToLower(s[1..])
  }

  /** Lower-casing twice is lower-casing once. */
  lemma ToLowerIdempotent(s: string)
    ensures ToLower(ToLower(s)) == ToLower(s)
  {
  }

  /** The characters `String.prototype.trim` removes: white space and line terminators. */
  predicate IsJsWhitespace(c: char) {
    var n := c as int;
    n == 0x09 || n == 0x0A || n == 0x0B || n == 0x0C || n == 0x0D || n == 0x20 ||
    n == 0xA0 || n == 0x1680 || (0x2000 <= n <= 0x200A) || n == 0x2028 || n == 0x2029 ||
    n == 0x202F || n == 0x205F || n == 0x3000 || n == 0xFEFF
  }

  function TrimStart(s: string): (r: string)
    ensures |r| <= |s| && r == s[|s| - |r|..]
    ensures r != [] ==> !IsJsWhitespace(r[0])
    ensures forall i :: 0 <= i < |s| - |r| ==> IsJsWhitespace(s[i])
  {
    if s != [] && IsJsWhitespace(s[0]) then TrimStart(s[1..]) else s
  }

  function TrimEnd(s: string): (r: string)
    ensures |r| <= |s| && r == s[..|r|]
    ensures r != [] ==> !IsJsWhitespace(r[|r| - 1])
    ensures forall i :: |r| <= i < |s| ==> IsJsWhitespace(s[i])
  {
    if s != [] && IsJsWhitespace(s[|s| - 1]) then TrimEnd(s[..|s| - 1]) else s
  }

  /** `s.trim()`. */
  function Trim(s: string): string {
    TrimEnd(TrimStart(s))
  }

  /** Every character is white space (so `s.trim() === ''`). */
  predicate IsBlank(s: string) {
    forall i :: 0 <= i < |s| ==> IsJsWhitespace(s[i])
  }

  lemma TrimEmptyIffBlank(s: string)
    ensures Trim(s) == "" <==> IsBlank(s)
  {
    var t := TrimStart(s);
    if Trim(s) == "" {
      forall i | |s| - |t| <= i < |s| ensures IsJsWhitespace(s[i]) {
        assert s[i] == t[i - (|s| - |t|)];
      }
    }
  }

  /** The decimal digit character of `d`. */
  function DigitChar(d: nat): char
    requires d < 10
  {
    ('0' as int + d) as char
  }

  predicate IsDigit(c: char) {
    '0' <= c <= '9'
  }

  function DigitValue(c: char): (d: nat)
    requires IsDigit(c)
    ensures d < 10 && DigitChar(d) == c
  {
    c as int - '0' as int
  }

  /** How JavaScript renders a non-negative integer in a template string: `${n}`. */
  function Dec(n: nat): (r: string)
    decreases n
  {
    if n < 10 then [DigitChar(n)] else Dec(n / 10) + [DigitChar(n % 10)]
  }

  /** Reads back a canonical decimal numeral: digits only, no leading zero except "0". */
  function ParseDec(s: string): (r: Option<nat>) {
    if s == [] || (s[0] == '0' && |s| > 1) || !(forall i :: 0 <= i < |s| ==> IsDigit(s[i])) then None
    else Some(DigitsValue(s))
  }

  function DigitsValue(s: string): nat
    requires forall i :: 0 <= i < |s| ==> IsDigit(s[i])
  {
    if s == [] then 0 else DigitsValue(s[..|s| - 1]) * 10 + DigitValue(s[|s| - 1])
  }

  lemma {:induction false} DecShape(n: nat)
    ensures |Dec(n)| >= 1
    ensures forall i :: 0 <= i < |Dec(n)| ==> IsDigit(Dec(n)[i])
    ensures Dec(n)[0] == '0' ==> n == 0
    ensures DigitsValue(Dec(n)) == n
  {
    if n >= 10 {
      DecShape(n / 10);
      var p := Dec(n / 10);
      assert Dec(n) == p + [DigitChar(n % 10)];
      assert Dec(n)[..|Dec(n)| - 1] == p;
    }
  }

  /** Rendering then reading back gives the number. */
  lemma DecRoundTrip(n: nat)
    ensures ParseDec(Dec(n)) == Some(n)
  {
    DecShape(n);
    if n >= 10 {
      assert |Dec(n)| > 1;
    }
  }

  lemma LastDigit(v: nat, d: nat)
    requires d < 10
    ensures (v * 10 + d) / 10 == v && (v * 10 + d) % 10 == d
  {
  }

  lemma {:induction false} DigitsRender(s: string)
    requires |s| >= 1 && forall i :: 0 <= i < |s| ==> IsDigit(s[i])
    requires s[0] == '0' ==> |s| == 1
    ensures Dec(DigitsValue(s)) == s
  {
    if |s| > 1 {
      var p := s[..|s| - 1];
      var c := s[|s| - 1];
      DigitsRender(p);
      var v := DigitsValue(p);
      assert p[0] == s[0] != '0';
      assert Dec(0) == ['0'];
      assert v >= 1;
      var n := DigitsValue(s);
      assert n == v * 10 + DigitValue(c);
      LastDigit(v, DigitValue(c));
      assert n >= 10;
      assert Dec(n) == Dec(v) + [DigitChar(DigitValue(c))];
      assert s == p + [c];
    }
  }

  /** Reading a numeral and rendering the number gives the numeral back. */
  lemma ParseDecCanonical(s: string, n: nat)
    requires ParseDec(s) == Some(n)
    ensures Dec(n) == s
  {
    DigitsRender(s);
  }

  lemma DecInjective(m: nat, n: nat)
    requires Dec(m) == Dec(n)
    ensures m == n
  {
    DecRoundTrip(m);
    DecRoundTrip(n);
  }

  /** `parts.join(sep)`. */
  function Join(parts: seq<string>, sep: string): string {
    if parts == [] then ""
    else if |parts| == 1 then parts[0]
    else parts[0] + sep + Join(parts[1..], sep)
  }
}
