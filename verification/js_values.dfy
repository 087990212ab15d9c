/** The slice of JavaScript value semantics the connector depends on: a
    number value that may be NaN, truthiness of optional strings and numbers,
    `parseInt(s, 10)` and the decimal rendering of an integer (what
    `String(n)` yields for the integers the connector sends upstream). */
module JsValues {
  import opened Wrappers

  /** A JavaScript number restricted to integers, plus NaN. */
  datatype JsNumber = Int(value: int) | NaN

  /** JavaScript truthiness of a number: everything but 0 and NaN. */
  predicate NumberIsTruthy(n: JsNumber) {
    n.Int? && n.value != 0
  }

  /** JavaScript truthiness of an optional string: present and non-empty. */
  predicate StringIsTruthy(s: Option<string>) {
    s.Some? && s.value != ""
  }

  predicate IsDigit(c: char) {
    '0' <= c <= '9'
  }

  predicate AllDigits(s: string) {
    forall i :: 0 <= i < |s| ==> IsDigit(s[i])
  }

  function DigitValue(c: char): (d: nat)
    requires IsDigit(c)
    ensures d < 10
  {
    (c as int) - ('0' as int)
  }

  function DigitChar(d: nat): (c: char)
    requires d < 10
    ensures IsDigit(c) && DigitValue(c) == d
  {
    (('0' as int) + d) as char
  }

  /** The characters `parseInt` skips before the number: StrWhiteSpaceChar,
      that is the WhiteSpace and LineTerminator code points of sections 12.2
      and 12.3 of ECMA-262, 15th edition (ECMAScript 2024). */
  predicate IsJsWhitespace(c: char) {
    var u := c as int;
    || u == 0x09 || u == 0x0B || u == 0x0C || u == 0x20 || u == 0xA0
    || u == 0xFEFF || u == 0x1680 || (0x2000 <= u <= 0x200A)
    || u == 0x202F || u == 0x205F || u == 0x3000
    || u == 0x0A || u == 0x0D || u == 0x2028 || u == 0x2029
  }

  predicate AllWhitespace(s: string) {
    forall i :: 0 <= i < |s| ==> IsJsWhitespace(s[i])
  }

  /** `s` with its leading white space removed. */
  function TrimStart(s: string): (r: string)
    ensures |r| <= |s| && r == s[|s| - |r|..]
    ensures AllWhitespace(s[..|s| - |r|])
    ensures |r| == 0 || !IsJsWhitespace(r[0])
  {
    if |s| > 0 && IsJsWhitespace(s[0]) then TrimStart(s[1..]) else s
  }

  /** Length of the longest prefix of `s` made of decimal digits. */
  function DigitRun(s: string): (n: nat)
    ensures n <= |s|
    ensures AllDigits(s[..n])
    ensures n == |s| || !IsDigit(s[n])
  {
    if |s| > 0 && IsDigit(s[0]) then 1 + DigitRun(s[1..]) else 0
  }

  /** The value of a string of decimal digits, most significant first. */
  function DigitsValue(s: string): nat
    requires AllDigits(s)
  {
    if |s| == 0 then 0 else DigitsValue(s[..|s| - 1]) * 10 + DigitValue(s[|s| - 1])
  }

  /** The shortest decimal digits of `n` (no leading zero except for 0 itself). */
  function NatToDigits(n: nat): (s: string)
    ensures 1 <= |s| && AllDigits(s)
    ensures |s| > 1 ==> s[0] != '0'
  {
    if n < 10 then [DigitChar(n)] else NatToDigits(n / 10) + [DigitChar(n % 10)]
  }

  /** The decimal text of an integer, a leading '-' for negatives. */
  function ToDecimal(n: int): string {
    if n < 0 then "-" + NatToDigits(-n) else NatToDigits(n)
  }

  /** `parseInt(s, 10)`: skip leading white space, take one optional sign,
      then the longest run of decimal digits; NaN when that run is empty.
      Both -0 and +0 are the integer 0 here. */
  function ParseInt(s: string): (r: JsNumber)
    ensures r.Int? <==> DigitRun(UnsignedPart(s)) > 0
    ensures r.Int? && SignIsMinus(s) ==> r.value <= 0
    ensures r.Int? && !SignIsMinus(s) ==> r.value >= 0
  {
    var u := UnsignedPart(s);
    var z := u[..DigitRun(u)];
    if |z| == 0 then NaN
    else if SignIsMinus(s) then Int(-(DigitsValue(z) as int))
    else Int(DigitsValue(z))
  }

  /** Whether the text after leading white space starts with '-'. */
  predicate SignIsMinus(s: string) {
    var t := TrimStart(s);
    |t| > 0 && t[0] == '-'
  }

  /** The text after leading white space and one optional sign. */
  function UnsignedPart(s: string): string {
    var t := TrimStart(s);
    if |t| > 0 && (t[0] == '-' || t[0] == '+') then t[1..] else t
  }

  /** Reading back the digits of `n` yields `n`. */
  lemma {:induction false} DigitsRoundTrip(n: nat)
    ensures DigitsValue(NatToDigits(n)) == n
  {
    if n >= 10 {
      var p := NatToDigits(n / 10);
      var s := p + [DigitChar(n % 10)];
      assert s[..|s| - 1] == p;
      DigitsRoundTrip(n / 10);
    }
  }

  lemma {:induction false} DigitRunStopsAt(d: string, rest: string)
    requires AllDigits(d)
    requires |rest| == 0 || !IsDigit(rest[0])
    ensures DigitRun(d + rest) == |d|
  {
    if |d| > 0 {
      assert (d + rest)[1..] == d[1..] + rest;
      DigitRunStopsAt(d[1..], rest);
    } else {
      assert d + rest == rest;
    }
  }

  lemma {:induction false} TrimStartSkipsWhitespace(ws: string, t: string)
    requires AllWhitespace(ws)
    requires |t| == 0 || !IsJsWhitespace(t[0])
    ensures TrimStart(ws + t) == t
  {
    if |ws| > 0 {
      var s := ws + t;
      assert s[0] == ws[0];
      assert s[1..] == ws[1..] + t;
      TrimStartSkipsWhitespace(ws[1..], t);
      assert TrimStart(s) == TrimStart(s[1..]);
    } else {
      assert ws + t == t;
    }
  }

  /** Once the unsigned part is known to be digits `d` followed by a
      non-digit, `parseInt` yields the signed value of `d`. */
  lemma ParseIntOfDigits(s: string, d: string, rest: string)
    requires UnsignedPart(s) == d + rest
    requires 1 <= |d| && AllDigits(d)
    requires |rest| == 0 || !IsDigit(rest[0])
    ensures ParseInt(s) == Int(if SignIsMinus(s) then -(DigitsValue(d) as int) else DigitsValue(d))
  {
    DigitRunStopsAt(d, rest);
    assert (d + rest)[..|d|] == d;
  }

  /** The decimal text of `n` starts with '-' exactly for negatives, and
      without its sign it is the digits of the magnitude. */
  lemma DecimalParts(n: int, rest: string)
    ensures var t := ToDecimal(n) + rest;
      && |t| > 0
      && (t[0] == '-' <==> n < 0)
      && (if t[0] == '-' || t[0] == '+' then t[1..] else t) == NatToDigits(if n < 0 then -n else n) + rest
  {
    var d := NatToDigits(if n < 0 then -n else n);
    if n < 0 {
      assert ToDecimal(n) + rest == ['-'] + (d + rest);
    } else {
      assert ToDecimal(n) + rest == d + rest;
    }
  }

  /** `parseInt` reads back the decimal text of any integer, whatever white
      space precedes it and whatever non-digit text follows it
      (so `parseInt("8080", 10)` is 8080 and `parseInt(" 42px", 10)` is 42). */
  lemma {:induction false} ParseIntReadsDecimal(ws: string, n: int, rest: string)
    requires AllWhitespace(ws)
    requires |rest| == 0 || !IsDigit(rest[0])
    ensures ParseInt(ws + ToDecimal(n) + rest) == Int(n)
  {
    var m: nat := if n < 0 then -n else n;
    var s := ws + ToDecimal(n) + rest;
    var body := ToDecimal(n) + rest;
    assert body[0] == ToDecimal(n)[0];
    assert s == ws + body;
    TrimStartSkipsWhitespace(ws, body);
    DecimalParts(n, rest);
    ParseIntOfDigits(s, NatToDigits(m), rest);
    DigitsRoundTrip(m);
  }

  /** Round trip of the decimal rendering on its own. */
  lemma ParseIntOfDecimal(n: int)
    ensures ParseInt(ToDecimal(n)) == Int(n)
  {
    assert "" + ToDecimal(n) + "" == ToDecimal(n);
    ParseIntReadsDecimal("", n, "");
  }

  /** Text whose first non-white-space character is neither a sign nor a
      digit parses to NaN (`parseInt("abc", 10)`). */
  lemma ParseIntNaN(s: string)
    requires var t := TrimStart(s); |t| == 0 || !(IsDigit(t[0]) || t[0] == '-' || t[0] == '+')
    ensures ParseInt(s) == NaN
  {
  }
}
