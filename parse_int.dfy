/** JavaScript's `parseInt(string, 16)` (section 19.2.5 of ECMA-262), the only
    numeric decoder the page uses: leading white space is skipped, one `+` or
    `-` sign is taken, an optional `0x`/`0X` prefix is dropped, and the longest
    run of hexadecimal digits that follows is read. With no digit the result
    is NaN. Values are exact integers here (see README, "Left out"). */
module JsParseInt {

  datatype ParseResult = NaN | Int(value: int)

  /** What `String(undefined)` yields: `parseInt(undefined, 16)` parses this. */
  const UNDEFINED_TEXT: string := "undefined"

  /** StrWhiteSpaceChar of ECMA-262: WhiteSpace (tab, VT, FF, space, NBSP,
      BOM and the Zs category) and LineTerminator (LF, CR, LS, PS). */
  predicate IsWhiteSpace(c: char) {
    var n := c as int;
    || 0x09 <= n <= 0x0D
    || n == 0x20 || n == 0xA0 || n == 0x1680
    || 0x2000 <= n <= 0x200A
    || n == 0x2028 || n == 0x2029 || n == 0x202F || n == 0x205F
    || n == 0x3000 || n == 0xFEFF
  }

  predicate IsHexDigit(c: char) {
    '0' <= c <= '9' || 'a' <= c <= 'f' || 'A' <= c <= 'F'
  }

  function DigitValue(c: char): (d: nat)
    requires IsHexDigit(c)
    ensures d < 16
  {
    if '0' <= c <= '9' then c as int - '0' as int
    else if 'a' <= c <= 'f' then c as int - 'a' as int + 10
    else c as int - 'A' as int + 10
  }

  /** The text left once leading white space is removed. */
  function TrimStart(s: string): (r: string)
    ensures |r| <= |s| && r == s[|s| - |r|..]
    ensures forall i :: 0 <= i < |s| - |r| ==> IsWhiteSpace(s[i])
    ensures r == [] || !IsWhiteSpace(r[0])
  {
    if |s| > 0 && IsWhiteSpace(s[0]) then TrimStart(s[1..]) else s
  }

  /** Length of the longest prefix of `s` made of hexadecimal digits. */
  function HexRunLength(s: string): (n: nat)
    ensures n <= |s|
    ensures forall i :: 0 <= i < n ==> IsHexDigit(s[i])
    ensures n == |s| || !IsHexDigit(s[n])
  {
    if |s| > 0 && IsHexDigit(s[0]) then 1 + HexRunLength(s[1..]) else 0
  }

  /** Base-16 value of a digit string, most significant digit first. */
  function HexValue(digits: string): nat
    requires forall i :: 0 <= i < |digits| ==> IsHexDigit(digits[i])
  {
    if digits == [] then 0
    else HexValue(digits[..|digits| - 1]) * 16 + DigitValue(digits[|digits| - 1])
  }

  /** `t` without its leading sign character, if it has one. */
  function StripSign(t: string): string {
    if |t| > 0 && (t[0] == '-' || t[0] == '+') then t[1..] else t
  }

  /** `u` without its leading `0x` or `0X`, if it has one. */
  function StripHexPrefix(u: string): string {
    if |u| >= 2 && u[0] == '0' && (u[1] == 'x' || u[1] == 'X') then u[2..] else u
  }

  /** The text after white space, sign and `0x` prefix: where digits are read. */
  function DigitsPart(s: string): string {
    StripHexPrefix(StripSign(TrimStart(s)))
  }

  predicate IsNegative(s: string) {
    var t := TrimStart(s);
    |t| > 0 && t[0] == '-'
  }

  /** `parseInt(s, 16)`. A result of -0 is the integer 0 here; the page only
      uses it where -0 and +0 behave alike (both falsy, both shown as `0`). */
  function ParseInt16(s: string): (r: ParseResult)
    ensures r.NaN? <==> HexRunLength(DigitsPart(s)) == 0
  {
    var v := DigitsPart(s);
    var n := HexRunLength(v);
    if n == 0 then NaN
    else
      var magnitude: int := HexValue(v[..n]);
      Int(if IsNegative(s) then -magnitude else magnitude)
  }

  // ---------------------------------------------------------------------
  // The encoding the feeds use: `0x` followed by lower-case hex digits.

  function HexChar(d: nat): (c: char)
    requires d < 16
    ensures IsHexDigit(c) && DigitValue(c) == d
  {
    if d < 10 then ('0' as int + d) as char else ('a' as int + d - 10) as char
  }

  /** Shortest lower-case hexadecimal spelling of `n` (no prefix). */
  function ToHex(n: nat): (s: string)
    ensures |s| >= 1
    ensures forall i :: 0 <= i < |s| ==> IsHexDigit(s[i])
  {
    if n < 16 then [HexChar(n)] else ToHex(n / 16) + [HexChar(n % 16)]
  }

  /** The `0x…` quantity format of the JSON-RPC feed and of the fast feed. */
  function EncodeQuantity(n: nat): string {
    "0x" + ToHex(n)
  }

  lemma {:induction false} HexValueOfToHex(n: nat)
    ensures HexValue(ToHex(n)) == n
  {
    if n >= 16 {
      var s := ToHex(n);
      assert s[..|s| - 1] == ToHex(n / 16);
      HexValueOfToHex(n / 16);
    }
  }

  lemma {:induction false} HexRunOfDigits(d: string, rest: string)
    requires forall i :: 0 <= i < |d| ==> IsHexDigit(d[i])
    requires rest == [] || !IsHexDigit(rest[0])
    ensures HexRunLength(d + rest) == |d|
  {
    if d != [] {
      assert (d + rest)[1..] == d[1..] + rest;
      HexRunOfDigits(d[1..], rest);
    }
  }

  /** Parsing a quantity written by `EncodeQuantity`, with an optional minus
      sign, leading white space and trailing text that does not start with a
      hex digit, gives back the number (with the sign). */
  lemma ParseEncodedQuantity(ws: string, negative: bool, n: nat, rest: string)
    requires forall i :: 0 <= i < |ws| ==> IsWhiteSpace(ws[i])
    requires rest == [] || !IsHexDigit(rest[0])
    ensures ParseInt16(ws + (if negative then "-" else "") + EncodeQuantity(n) + rest)
            == Int(if negative then -(n as int) else n)
  {
    var s := ws + (if negative then "-" else "") + EncodeQuantity(n) + rest;
    var digits := ToHex(n) + rest;
    SplitEncoded(ws, negative, n, rest);
    HexRunOfDigits(ToHex(n), rest);
    assert digits[..|ToHex(n)|] == ToHex(n);
    HexValueOfToHex(n);
  }

  /** Any spelling of a hex number that `parseInt(s, 16)` reads in full: white
      space, an optional sign, an optional `0x`/`0X`, a non-empty run of hex
      digits (leading zeros and upper case allowed) and text that does not
      continue the run. Without a prefix, a lone `0` followed by `x` or `X`
      would itself be read as the prefix, so that case is excluded. */
  lemma ParseSpelledNumber(ws: string, sign: string, prefix: string, d: string, rest: string)
    requires forall i :: 0 <= i < |ws| ==> IsWhiteSpace(ws[i])
    requires sign == "" || sign == "+" || sign == "-"
    requires prefix == "" || prefix == "0x" || prefix == "0X"
    requires |d| > 0 && forall i :: 0 <= i < |d| ==> IsHexDigit(d[i])
    requires rest == [] || !IsHexDigit(rest[0])
    requires prefix == "" && d == "0" ==> rest == [] || (rest[0] != 'x' && rest[0] != 'X')
    ensures ParseInt16(ws + sign + prefix + d + rest)
            == Int(if sign == "-" then -(HexValue(d) as int) else HexValue(d))
  {
    var s := ws + sign + prefix + d + rest;
    var tail := d + rest;
    var body := sign + prefix + tail;
    RegroupSpelling(ws, sign, prefix, d, rest);
    PrefixNotSpelledByDigits(prefix, d, rest);
    StripSignAndPrefix(sign, prefix, tail);
    TrimAfterWhiteSpace(ws, body);
    assert DigitsPart(s) == tail;
    assert IsNegative(s) == (sign == "-");
    ParseOfDigitsPart(s, d, rest);
  }

  /** Once the digits part is known to be a run `d` that `rest` does not
      continue, the parse is the signed value of `d`. */
  lemma ParseOfDigitsPart(s: string, d: string, rest: string)
    requires |d| > 0 && forall i :: 0 <= i < |d| ==> IsHexDigit(d[i])
    requires rest == [] || !IsHexDigit(rest[0])
    requires DigitsPart(s) == d + rest
    ensures ParseInt16(s) == Int(if IsNegative(s) then -(HexValue(d) as int) else HexValue(d))
  {
    HexRunOfDigits(d, rest);
    assert (d + rest)[..|d|] == d;
  }

  lemma RegroupSpelling(ws: string, sign: string, prefix: string, d: string, rest: string)
    ensures ws + sign + prefix + d + rest == ws + (sign + prefix + (d + rest))
  {
  }

  /** Without a spelled prefix, the digits and what follows them do not begin
      with `0x`/`0X` unless the run is a lone `0`. */
  lemma PrefixNotSpelledByDigits(prefix: string, d: string, rest: string)
    requires |d| > 0 && forall i :: 0 <= i < |d| ==> IsHexDigit(d[i])
    requires prefix == "" && d == "0" ==> rest == [] || (rest[0] != 'x' && rest[0] != 'X')
    ensures var tail := d + rest;
            && |tail| > 0 && IsHexDigit(tail[0])
            && (prefix == "" && |tail| >= 2 && tail[0] == '0' ==> tail[1] != 'x' && tail[1] != 'X')
  {
    var tail := d + rest;
    assert tail[0] == d[0];
    if |tail| >= 2 {
      if |d| >= 2 {
        assert tail[1] == d[1];
      } else {
        assert tail[1] == rest[0];
      }
    }
  }

  /** The sign and the prefix come off exactly when spelled, and only a minus
      makes the parse negative. */
  lemma StripSignAndPrefix(sign: string, prefix: string, tail: string)
    requires sign == "" || sign == "+" || sign == "-"
    requires prefix == "" || prefix == "0x" || prefix == "0X"
    requires |tail| > 0 && IsHexDigit(tail[0])
    requires prefix == "" && |tail| >= 2 && tail[0] == '0' ==> tail[1] != 'x' && tail[1] != 'X'
    ensures var body := sign + prefix + tail;
            && !IsWhiteSpace(body[0])
            && StripHexPrefix(StripSign(body)) == tail
            && (body[0] == '-' <==> sign == "-")
  {
    var body := sign + prefix + tail;
    assert StripSign(body) == prefix + tail by {
      if sign == "" {
        assert body == prefix + tail;
      }
    }
  }

  lemma SplitEncoded(ws: string, negative: bool, n: nat, rest: string)
    requires forall i :: 0 <= i < |ws| ==> IsWhiteSpace(ws[i])
    ensures var s := ws + (if negative then "-" else "") + EncodeQuantity(n) + rest;
            DigitsPart(s) == ToHex(n) + rest && IsNegative(s) == negative
  {
    var s := ws + (if negative then "-" else "") + EncodeQuantity(n) + rest;
    var digits := ToHex(n) + rest;
    var u := "0x" + digits;
    var body := if negative then "-" + u else u;
    assert s == ws + body;
    assert body[0] == (if negative then '-' else '0');
    TrimAfterWhiteSpace(ws, body);
    assert TrimStart(s) == body;
    SignThenPrefix(negative, digits);
  }

  lemma SignThenPrefix(negative: bool, digits: string)
    ensures var body := if negative then "-" + ("0x" + digits) else "0x" + digits;
            StripHexPrefix(StripSign(body)) == digits && (body[0] == '-' <==> negative)
  {
  }

  lemma {:induction false} TrimAfterWhiteSpace(ws: string, body: string)
    requires forall i :: 0 <= i < |ws| ==> IsWhiteSpace(ws[i])
    requires body == [] || !IsWhiteSpace(body[0])
    ensures TrimStart(ws + body) == body
  {
    if ws != [] {
      assert (ws + body)[1..] == ws[1..] + body;
      TrimAfterWhiteSpace(ws[1..], body);
    }
  }

  /** The round trip every well-formed feed quantity takes. */
  lemma ParseQuantityRoundTrip(n: nat)
    ensures ParseInt16(EncodeQuantity(n)) == Int(n)
  {
    var s := EncodeQuantity(n);
    assert "" + "" + s + "" == s;
    ParseEncodedQuantity("", false, n, "");
  }

  /** Text with no hex digit where the digits should start is NaN: the empty
      string, a bare `0x`, and the text of `undefined` among them. */
  lemma ParseWithoutDigits(s: string)
    requires DigitsPart(s) == [] || !IsHexDigit(DigitsPart(s)[0])
    ensures ParseInt16(s) == NaN
  {
  }

  lemma ParseUndefinedIsNaN()
    ensures ParseInt16(UNDEFINED_TEXT) == NaN
  {
    assert !IsWhiteSpace(UNDEFINED_TEXT[0]);
    assert TrimStart(UNDEFINED_TEXT) == UNDEFINED_TEXT;
    assert DigitsPart(UNDEFINED_TEXT) == UNDEFINED_TEXT;
    assert !IsHexDigit(UNDEFINED_TEXT[0]);
  }
}
