/** Decimal integers as text: rendering a natural number (`fmt.Sprintf("%d", n)`,
    JavaScript `String(n)`), JavaScript `parseInt(s)` and Python `int(s)`. */
module Decimal {
  import opened Wrappers

  predicate IsDigit(c: char) {
    '0' <= c <= '9'
  }

  predicate AllDigits(s: string) {
    forall i :: 0 <= i < |s| ==> IsDigit(s[i])
  }

  function DigitValue(c: char): nat
    requires IsDigit(c)
  {
    c as int - '0' as int
  }

  function DigitChar(d: nat): (c: char)
    requires d < 10
    ensures IsDigit(c) && DigitValue(c) == d
  {
    ('0' as int + d) as char
  }

  /** Decimal rendering of `n`, without sign or leading zeros. */
  function NatToString(n: nat): (s: string)
    ensures |s| > 0 && AllDigits(s)
    ensures |s| > 1 ==> s[0] != '0'
  {
    if n < 10 then [DigitChar(n)] else NatToString(n / 10) + [DigitChar(n % 10)]
  }

  /** A string of digits holds no character that is not a digit. */
  lemma DigitsExclude(s: string, c: char)
    requires AllDigits(s) && !IsDigit(c)
    ensures c !in s
  {
    forall i | 0 <= i < |s| ensures s[i] != c {
      assert IsDigit(s[i]);
    }
  }

  /** Value of a string of decimal digits, most significant first. */
  function DigitsValue(s: string): nat
    requires AllDigits(s)
  {
    if |s| == 0 then 0 else 10 * DigitsValue(s[..|s| - 1]) + DigitValue(s[|s| - 1])
  }

  lemma {:induction false} DigitsValueOfNatToString(n: nat)
    ensures DigitsValue(NatToString(n)) == n
  {
    if n >= 10 {
      var s := NatToString(n);
      assert s[..|s| - 1] == NatToString(n / 10);
      DigitsValueOfNatToString(n / 10);
    }
  }

  /** The two languages whose number parsing is modelled; they skip different
      white space. */
  datatype Lang = JavaScript | Python

  /** `StrWhiteSpaceChar` of ECMAScript: white space (tab, vertical tab, form feed,
      space, no-break space, the byte-order mark and the other space separators) and
      line terminators. */
  predicate JsSpace(c: char) {
    c == '\t' || c == '\U{000B}' || c == '\U{000C}' || c == ' ' || c == '\U{00A0}' || c == '\U{FEFF}'
    || c == '\U{1680}' || '\U{2000}' <= c <= '\U{200A}' || c == '\U{202F}' || c == '\U{205F}' || c == '\U{3000}'
    || c == '\n' || c == '\r' || c == '\U{2028}' || c == '\U{2029}'
  }

  /** Python `str.isspace`: the ASCII blanks, the information separators 0x1C-0x1F,
      next line, no-break space and the other Unicode spaces, but not the byte-order mark. */
  predicate PySpace(c: char) {
    c == '\t' || c == '\n' || c == '\U{000B}' || c == '\U{000C}' || c == '\r'
    || '\U{001C}' <= c <= '\U{001F}' || c == ' ' || c == '\U{0085}' || c == '\U{00A0}'
    || c == '\U{1680}' || '\U{2000}' <= c <= '\U{200A}' || c == '\U{2028}' || c == '\U{2029}'
    || c == '\U{202F}' || c == '\U{205F}' || c == '\U{3000}'
  }

  predicate IsSpace(lang: Lang, c: char) {
    match lang
    case JavaScript => JsSpace(c)
    case Python => PySpace(c)
  }

  function TrimStart(lang: Lang, s: string): (r: string)
    ensures |r| <= |s| && r == s[|s| - |r|..]
    ensures |r| > 0 ==> !IsSpace(lang, r[0])
  {
    if |s| > 0 && IsSpace(lang, s[0]) then TrimStart(lang, s[1..]) else s
  }

  function TrimEnd(lang: Lang, s: string): (r: string)
    ensures |r| <= |s| && r == s[..|r|]
    ensures |r| > 0 ==> !IsSpace(lang, r[|r| - 1])
  {
    if |s| > 0 && IsSpace(lang, s[|s| - 1]) then TrimEnd(lang, s[..|s| - 1]) else s
  }

  /** The longest prefix of `s` made of decimal digits. */
  function DigitPrefix(s: string): (r: string)
    ensures AllDigits(r) && r <= s
    ensures |r| < |s| ==> !IsDigit(s[|r|])
  {
    if |s| > 0 && IsDigit(s[0]) then [s[0]] + DigitPrefix(s[1..]) else []
  }

  predicate IsHexDigit(c: char) {
    IsDigit(c) || 'a' <= c <= 'f' || 'A' <= c <= 'F'
  }

  function HexDigitValue(c: char): (d: nat)
    requires IsHexDigit(c)
    ensures d < 16
  {
    if IsDigit(c) then DigitValue(c)
    else if 'a' <= c <= 'f' then c as int - 'a' as int + 10
    else c as int - 'A' as int + 10
  }

  predicate AllHexDigits(s: string) {
    forall i :: 0 <= i < |s| ==> IsHexDigit(s[i])
  }

  /** Value of a string of hexadecimal digits, most significant first. */
  function HexDigitsValue(s: string): nat
    requires AllHexDigits(s)
  {
    if |s| == 0 then 0 else 16 * HexDigitsValue(s[..|s| - 1]) + HexDigitValue(s[|s| - 1])
  }

  /** The longest prefix of `s` made of hexadecimal digits. */
  function HexPrefix(s: string): (r: string)
    ensures AllHexDigits(r) && r <= s
    ensures |r| < |s| ==> !IsHexDigit(s[|r|])
  {
    if |s| > 0 && IsHexDigit(s[0]) then [s[0]] + HexPrefix(s[1..]) else []
  }

  /** With the default radix, `0x` or `0X` after the sign switches `parseInt` to base 16. */
  predicate HasHexPrefix(u: string) {
    |u| >= 2 && u[0] == '0' && (u[1] == 'x' || u[1] == 'X')
  }

  /** JavaScript `parseInt(s)` with the default radix: leading white space, an
      optional sign, an optional `0x`/`0X` that selects base 16, then the longest
      run of digits of that base; `None` is NaN. */
  function ParseInt(s: string): (r: Option<int>)
    ensures var u := SkipSign(TrimStart(JavaScript, s));
      r.None? <==> if HasHexPrefix(u) then |u| == 2 || !IsHexDigit(u[2]) else |u| == 0 || !IsDigit(u[0])
    ensures r.Some? && r.value < 0 ==> TrimStart(JavaScript, s)[0] == '-'
  {
    var t := TrimStart(JavaScript, s);
    var negative := |t| > 0 && t[0] == '-';
    var u := SkipSign(t);
    var v: Option<int> :=
      if HasHexPrefix(u) then
        var digits := HexPrefix(u[2..]);
        if |digits| == 0 then None else Some(HexDigitsValue(digits))
      else
        var digits := DigitPrefix(u);
        if |digits| == 0 then None else Some(DigitsValue(digits));
    if v.None? then None else Some(if negative then -v.value else v.value)
  }

  function SkipSign(t: string): string {
    if |t| > 0 && (t[0] == '-' || t[0] == '+') then t[1..] else t
  }

  lemma AllDigitsPrefix(s: string)
    requires AllDigits(s)
    ensures DigitPrefix(s) == s
  {
  }

  lemma {:induction false} TrimStartSpaces(lang: Lang, pad: string, s: string)
    requires forall i :: 0 <= i < |pad| ==> IsSpace(lang, pad[i])
    requires |s| > 0 && !IsSpace(lang, s[0])
    ensures TrimStart(lang, pad + s) == s
  {
    if |pad| > 0 {
      assert (pad + s)[1..] == pad[1..] + s;
      TrimStartSpaces(lang, pad[1..], s);
    }
  }

  /** `parseInt` reads back a rendered natural number, whatever white space precedes it. */
  lemma ParseIntNatToString(pad: string, n: nat)
    requires forall i :: 0 <= i < |pad| ==> JsSpace(pad[i])
    ensures ParseInt(pad + NatToString(n)) == Some(n)
  {
    var s := NatToString(n);
    TrimStartSpaces(JavaScript, pad, s);
    AllDigitsPrefix(s);
    DigitsValueOfNatToString(n);
  }

  lemma AllHexDigitsPrefix(s: string)
    requires AllHexDigits(s)
    ensures HexPrefix(s) == s
  {
  }

  /** After an optional minus sign, `0x` or `0X` followed by hexadecimal digits is
      read in base 16; with no digit after the prefix the result is NaN, not zero. */
  lemma ParseIntHex(negative: bool, x: char, h: string)
    requires x == 'x' || x == 'X'
    requires AllHexDigits(h)
    ensures var s := (if negative then "-" else "") + (['0', x] + h);
      && (|h| > 0 ==> ParseInt(s).Some? && ParseInt(s).value == if negative then 0 - HexDigitsValue(h) as int else HexDigitsValue(h))
      && (h == [] ==> ParseInt(s) == None)
  {
    var u := ['0', x] + h;
    var s := (if negative then "-" else "") + u;
    SignedHexShape(negative, x, h);
    AllHexDigitsPrefix(h);
    if |h| > 0 {
      ParseIntHexBody(s, u, h);
    } else {
      ParseIntHexEmpty(s, u);
    }
  }

  /** The blanks, sign and prefix that `parseInt` strips from a signed `0x` literal. */
  lemma SignedHexShape(negative: bool, x: char, h: string)
    requires x == 'x' || x == 'X'
    ensures var u := ['0', x] + h;
      var s := (if negative then "-" else "") + u;
      && SkipSign(TrimStart(JavaScript, s)) == u && HasHexPrefix(u) && u[2..] == h
      && (TrimStart(JavaScript, s)[0] == '-' <==> negative)
  {
    var u := ['0', x] + h;
    if negative {
      UnsignedAfterMinus(u);
    } else {
      assert TrimStart(JavaScript, u) == u;
    }
    assert u[2..] == h;
  }

  lemma UnsignedAfterMinus(u: string)
    ensures TrimStart(JavaScript, "-" + u) == "-" + u
    ensures SkipSign("-" + u) == u
  {
    assert ("-" + u)[0] == '-';
    assert ("-" + u)[1..] == u;
  }

  lemma ParseIntHexBody(s: string, u: string, h: string)
    requires SkipSign(TrimStart(JavaScript, s)) == u && HasHexPrefix(u) && u[2..] == h
    requires AllHexDigits(h) && HexPrefix(h) == h && |h| > 0
    ensures var v: int := HexDigitsValue(h);
      ParseInt(s).Some? && ParseInt(s).value == if TrimStart(JavaScript, s)[0] == '-' then -v else v
  {
  }

  lemma ParseIntHexEmpty(s: string, u: string)
    requires SkipSign(TrimStart(JavaScript, s)) == u && HasHexPrefix(u) && |u| == 2
    ensures ParseInt(s) == None
  {
  }

  /** Python `int(s)` on decimal input: surrounding white space, an optional sign
      and at least one digit, nothing else; `None` is a ValueError. */
  function PyInt(s: string): (r: Option<int>)
    ensures r.Some? ==> exists k :: 0 <= k < |s| && IsDigit(s[k])
  {
    var t := TrimEnd(Python, TrimStart(Python, s));
    var body := SkipSign(t);
    if |body| == 0 || !AllDigits(body) then None
    else
      assert body[0] == s[|s| - |TrimStart(Python, s)| + (|t| - |body|)];
      var v: int := DigitsValue(body);
      Some(if t[0] == '-' then -v else v)
  }

  lemma PyIntNatToString(n: nat)
    ensures PyInt(NatToString(n)) == Some(n)
  {
    var s := NatToString(n);
    assert !IsSpace(Python, s[0]) && !IsSpace(Python, s[|s| - 1]);
    DigitsValueOfNatToString(n);
  }
}
