/**
 * The JavaScript string built-ins the core relies on: `trim`, `join`,
 * integer `toString` and `parseInt` with an absent radix. Strings are
 * sequences of characters; whitespace is the ECMAScript set that `trim`
 * and `parseInt` strip (WhiteSpace and LineTerminator).
 */
module Strings {
  import opened Types

  predicate IsLineTerminator(c: char) {
    c == '\n' || c == '\r' || c == '\U{2028}' || c == '\U{2029}'
  }

  predicate IsWhitespace(c: char) {
    || c == '\t' || c == '\U{000B}' || c == '\U{000C}' || c == ' ' || c == '\U{00A0}'
    || c == '\U{FEFF}' || c == '\U{1680}' || ('\U{2000}' <= c <= '\U{200A}')
    || c == '\U{202F}' || c == '\U{205F}' || c == '\U{3000}'
    || IsLineTerminator(c)
  }

  predicate AllWhitespace(s: string) {
    forall i :: 0 <= i < |s| ==> IsWhitespace(s[i])
  }

  /** A string with no whitespace at either end. */
  predicate IsTrimmed(s: string) {
    |s| == 0 || (!IsWhitespace(s[0]) && !IsWhitespace(s[|s| - 1]))
  }

  /** `trimStart`: drops the leading whitespace and nothing else. */
  function TrimStart(s: string): (r: string)
    ensures |r| <= |s| && r == s[|s| - |r|..]
    ensures AllWhitespace(s[..|s| - |r|])
    ensures |r| == 0 || !IsWhitespace(r[0])
  {
    if |s| > 0 && IsWhitespace(s[0]) then
      var r := TrimStart(s[1..]);
      assert s[1..][..|s| - 1 - |r|] == s[1..|s| - |r|];
      r
    else s
  }

  /** `trimEnd`: drops the trailing whitespace and nothing else. */
  function TrimEnd(s: string): (r: string)
    ensures |r| <= |s| && r == s[..|r|]
    ensures AllWhitespace(s[|r|..])
    ensures |r| == 0 || !IsWhitespace(r[|r| - 1])
  {
    if |s| > 0 && IsWhitespace(s[|s| - 1]) then
      var r := TrimEnd(s[..|s| - 1]);
      assert s[..|s| - 1][|r|..] == s[|r|..|s| - 1];
      r
    else s
  }

  /** `trim`: the input with its whitespace borders removed. */
  function Trim(s: string): (r: string)
    ensures IsTrimmed(r)
    ensures exists i, j :: 0 <= i <= j <= |s| && r == s[i..j]
                           && AllWhitespace(s[..i]) && AllWhitespace(s[j..])
  {
    var t := TrimStart(s);
    var r := TrimEnd(t);
    assert r == s[|s| - |t|..|s| - |t| + |r|];
    assert s[|s| - |t| + |r|..] == t[|r|..];
    r
  }

  lemma {:induction false} TrimStartPadded(w: string, x: string)
    requires AllWhitespace(w)
    requires |x| == 0 || !IsWhitespace(x[0])
    ensures TrimStart(w + x) == x
  {
    if |w| > 0 {
      assert (w + x)[1..] == w[1..] + x;
      TrimStartPadded(w[1..], x);
    }
  }

  lemma {:induction false} TrimEndPadded(x: string, w: string)
    requires AllWhitespace(w)
    requires |x| == 0 || !IsWhitespace(x[|x| - 1])
    ensures TrimEnd(x + w) == x
  {
    if |w| > 0 {
      assert (x + w)[..|x + w| - 1] == x + w[..|w| - 1];
      TrimEndPadded(x, w[..|w| - 1]);
    } else {
      assert x + w == x;
    }
  }

  /** Whitespace around a trimmed string is exactly what `trim` removes. */
  lemma TrimPadded(w: string, x: string, w': string)
    requires AllWhitespace(w) && AllWhitespace(w') && IsTrimmed(x)
    ensures Trim(w + x + w') == x
  {
    if |x| == 0 {
      assert w + x + w' == w + w';
      assert AllWhitespace(w + w');
      TrimStartPadded(w + w', "");
      assert w + w' + "" == w + w';
    } else {
      assert w + x + w' == w + (x + w');
      TrimStartPadded(w, x + w');
      TrimEndPadded(x, w');
    }
  }

  /** `xs.join(sep)`. */
  function Join(xs: seq<string>, sep: string): string {
    if |xs| == 0 then "" else if |xs| == 1 then xs[0] else xs[0] + sep + Join(xs[1..], sep)
  }

  predicate IsDigit(c: char) {
    '0' <= c <= '9'
  }

  function DigitChar(d: nat): (c: char)
    requires d < 10
    ensures IsDigit(c) && (c as int) - ('0' as int) == d
  {
    ['0', '1', '2', '3', '4', '5', '6', '7', '8', '9'][d]
  }

  /** The decimal numeral of a natural number, as `String(n)` prints it. */
  function NatToString(n: nat): (r: string)
    ensures |r| > 0
    ensures forall i :: 0 <= i < |r| ==> IsDigit(r[i])
    ensures r[0] == '0' ==> n == 0 && r == "0"
  {
    if n < 10 then [DigitChar(n)] else NatToString(n / 10) + [DigitChar(n % 10)]
  }

  /** `String(i)` for an integer-valued number. */
  function IntToString(i: int): (r: string)
    ensures |r| > 0
    ensures i < 0 <==> r[0] == '-'
  {
    if i < 0 then "-" + NatToString(-i) else NatToString(i)
  }

  /** The value of `c` as a digit in base 10 or 16, if it is one. */
  function DigitValue(c: char, radix: nat): (r: Option<nat>)
    requires radix == 10 || radix == 16
    ensures r.Some? ==> r.value < radix
    ensures radix == 10 ==> (r.Some? <==> IsDigit(c))
  {
    if '0' <= c <= '9' then Some((c as int) - ('0' as int))
    else if radix == 16 && 'a' <= c <= 'f' then Some((c as int) - ('a' as int) + 10)
    else if radix == 16 && 'A' <= c <= 'F' then Some((c as int) - ('A' as int) + 10)
    else None
  }

  /** The longest prefix of `s` made of digits of the radix. */
  function DigitPrefix(s: string, radix: nat): (r: string)
    requires radix == 10 || radix == 16
    ensures |r| <= |s| && r == s[..|r|]
    ensures forall i :: 0 <= i < |r| ==> DigitValue(r[i], radix).Some?
    ensures |r| < |s| ==> DigitValue(s[|r|], radix).None?
  {
    if |s| > 0 && DigitValue(s[0], radix).Some? then [s[0]] + DigitPrefix(s[1..], radix) else ""
  }

  /** The value of a digit string, most significant digit first. */
  function DigitsValue(ds: string, radix: nat): nat
    requires radix == 10 || radix == 16
    requires forall i :: 0 <= i < |ds| ==> DigitValue(ds[i], radix).Some?
  {
    if |ds| == 0 then 0
    else DigitsValue(ds[..|ds| - 1], radix) * radix + DigitValue(ds[|ds| - 1], radix).value
  }

  /** The digits after an optional sign: base 16 after `0x`/`0X`, else base 10. */
  function ParseUnsigned(u: string): Option<nat> {
    var hex := |u| >= 2 && u[0] == '0' && (u[1] == 'x' || u[1] == 'X');
    var radix := if hex then 16 else 10;
    var ds := DigitPrefix(if hex then u[2..] else u, radix);
    if |ds| == 0 then None else Some(DigitsValue(ds, radix))
  }

  /**
   * `parseInt(s)` with no radix: skip leading whitespace, take one sign,
   * read the longest digit prefix; `None` stands for NaN (no digit at all).
   */
  function ParseInt(s: string): Option<int> {
    var t := TrimStart(s);
    var negative := |t| > 0 && t[0] == '-';
    var u := if |t| > 0 && (t[0] == '-' || t[0] == '+') then t[1..] else t;
    match ParseUnsigned(u)
    case None => None
    case Some(n) => Some(if negative then -(n as int) else n as int)
  }

  lemma {:induction false} NatToStringValue(n: nat)
    ensures forall i :: 0 <= i < |NatToString(n)| ==> DigitValue(NatToString(n)[i], 10).Some?
    ensures DigitsValue(NatToString(n), 10) == n
  {
    var r := NatToString(n);
    if n >= 10 {
      NatToStringValue(n / 10);
      assert r[..|r| - 1] == NatToString(n / 10);
    }
  }

  lemma NatToStringParses(n: nat)
    ensures ParseUnsigned(NatToString(n)) == Some(n)
  {
    var ds := NatToString(n);
    NatToStringValue(n);
    DigitPrefixAll(ds, 10);
  }

  /** Reading back a printed integer yields the integer. */
  lemma IntToStringParses(i: int)
    ensures ParseInt(IntToString(i)) == Some(i)
  {
    var n: nat := if i < 0 then -i else i;
    var s := IntToString(i);
    assert TrimStart(s) == s by { TrimStartPadded("", s); assert "" + s == s; }
    if i < 0 {
      assert s[1..] == NatToString(n);
    } else {
      assert s == NatToString(n);
    }
    NatToStringParses(n);
  }

  lemma {:induction false} DigitPrefixAll(s: string, radix: nat)
    requires radix == 10 || radix == 16
    requires forall i :: 0 <= i < |s| ==> DigitValue(s[i], radix).Some?
    ensures DigitPrefix(s, radix) == s
  {
    if |s| > 0 {
      DigitPrefixAll(s[1..], radix);
    }
  }
}
