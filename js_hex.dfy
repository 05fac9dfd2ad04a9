/**
 The JavaScript built-ins that the driver's result decoder leans on, on
 non-negative integers and strings:
 - `Number.prototype.toString(16)`: shortest lower-case hexadecimal digits;
 - `String.prototype.slice(-2)`: the last two characters;
 - `Number(s)` for a hexadecimal integer literal `0x…` (ECMAScript section
   7.1.4.1.1, StringToNumber, HexIntegerLiteral branch), with `NaN` when the
   digits are missing or malformed.
 */
module JsHex {

  /** A JavaScript number as far as the decoder can produce one. */
  datatype JsNumber = NaN | Int(value: nat)

  predicate IsHexDigit(c: char) {
    '0' <= c <= '9' || 'a' <= c <= 'f' || 'A' <= c <= 'F'
  }

  predicate AllHexDigits(s: string) {
    forall i :: 0 <= i < |s| ==> IsHexDigit(s[i])
  }

  /** The value of one hexadecimal digit, either case. */
  function DigitValue(c: char): (v: int)
    requires IsHexDigit(c)
    ensures 0 <= v < 16
  {
    if c <= '9' then c as int - '0' as int
    else if 'a' <= c then c as int - 'a' as int + 10
    else c as int - 'A' as int + 10
  }

  /** The digit `toString(16)` writes for `d`: lower case. */
  function HexDigit(d: int): (c: char)
    requires 0 <= d < 16
    ensures IsHexDigit(c) && DigitValue(c) == d
    ensures 'a' <= c ==> c <= 'f'
  {
    if d < 10 then ('0' as int + d) as char else ('a' as int + d - 10) as char
  }

  /** `n.toString(16)`: the shortest digit string, "0" for zero. */
  function ToHexString(n: nat): (s: string)
    ensures |s| >= 1 && AllHexDigits(s)
    ensures |s| == 1 <==> n < 16
    ensures s[0] == '0' <==> n == 0
  {
    if n < 16 then [HexDigit(n)] else ToHexString(n / 16) + [HexDigit(n % 16)]
  }

  /** The value of a digit string, most significant digit first. */
  function HexValue(s: string): nat
    requires AllHexDigits(s)
  {
    if s == [] then 0 else HexValue(s[..|s| - 1]) * 16 + DigitValue(s[|s| - 1])
  }

  /** Reading back what `toString(16)` wrote gives the number again. */
  lemma {:induction false} ToHexStringRoundTrip(n: nat)
    ensures HexValue(ToHexString(n)) == n
  {
    if n >= 16 {
      var s := ToHexString(n);
      assert s[..|s| - 1] == ToHexString(n / 16);
      ToHexStringRoundTrip(n / 16);
    }
  }

  /** `s.slice(-2)`: the last two characters, or all of `s` when shorter. */
  function SliceLast2(s: string): (r: string)
    ensures |r| == if |s| < 2 then |s| else 2
    ensures r == s[|s| - |r|..]
  {
    if |s| < 2 then s else s[|s| - 2..]
  }

  /**
   `Number(s)` on a string that starts with the hexadecimal prefix `0x` or `0X`:
   the value of the digits after the prefix, or `NaN` when there are none or
   one of them is not a hexadecimal digit.
   */
  function HexLiteralNumber(s: string): (r: JsNumber)
    requires |s| >= 2 && s[0] == '0' && (s[1] == 'x' || s[1] == 'X')
    ensures r.Int? <==> |s| > 2 && AllHexDigits(s[2..])
  {
    if |s| > 2 && AllHexDigits(s[2..]) then Int(HexValue(s[2..])) else NaN
  }

  /** `Number("0x" + n.toString(16))` is `n` again. */
  lemma HexLiteralRoundTrip(n: nat)
    ensures HexLiteralNumber("0x" + ToHexString(n)) == Int(n)
  {
    var s := "0x" + ToHexString(n);
    assert s[2..] == ToHexString(n);
    ToHexStringRoundTrip(n);
  }
}
