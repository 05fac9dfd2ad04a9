/**
 The decoding done by `getResult`: each byte read from the bus is written as
 two hexadecimal digits, the digits are appended to "0x" by a left fold, and
 the string is converted with `Number`.
 */
module ResultDecoding {
  import opened JsHex

  /** A byte as the bus read hands it over: a number from 0 to 255. */
  type Byte = x: int | 0 <= x < 256

  /** `('0' + b.toString(16)).slice(-2)`: one read byte as exactly two hexadecimal digits worth the byte. */
  function PadByte(b: Byte): (p: string)
    ensures |p| == 2 && AllHexDigits(p)
    ensures HexValue(p) == b
  {
    PadDigits(b);
    HexValueTwoDigits([HexDigit(b / 16), HexDigit(b % 16)]);
    SliceLast2("0" + ToHexString(b))
  }

  /**
   The `reduce` of getResult: append each byte's two digits to `memo`, left to
   right. The seed stays in front and every byte adds two characters.
   */
  function ReduceHex(bytes: seq<Byte>, memo: string): (r: string)
    ensures |r| == |memo| + 2 * |bytes|
    ensures r[..|memo|] == memo
  {
    if bytes == [] then memo
    else
      var r := ReduceHex(bytes[1..], memo + PadByte(bytes[0]));
      assert r[..|memo|] == (memo + PadByte(bytes[0]))[..|memo|];
      r
  }

  /**
   What getResult returns for the bytes read: `Number` of `"0x"` and the padded
   digits. That is the big-endian value of any non-empty read, and NaN for an
   empty one; the two-digit padding is what makes the concatenation exact.
   */
  function DecodeResult(bytes: seq<Byte>): (r: JsNumber)
    ensures r == if bytes == [] then NaN else Int(BigEndian(bytes))
  {
    var s := ReduceHex(bytes, "0x");
    ReduceHexIsConcat(bytes, "0x");
    PaddedHexValue(bytes);
    assert s[2..] == PaddedHex(bytes);
    HexLiteralNumber(s)
  }

  /** The padded digits of all bytes, in order. */
  function PaddedHex(bytes: seq<Byte>): string
  {
    if bytes == [] then "" else PaddedHex(bytes[..|bytes| - 1]) + PadByte(bytes[|bytes| - 1])
  }

  /** The bytes read as one unsigned big-endian integer. */
  function BigEndian(bytes: seq<Byte>): nat
  {
    if bytes == [] then 0 else BigEndian(bytes[..|bytes| - 1]) * 256 + bytes[|bytes| - 1]
  }

  /** A number below 256, written by `toString(16)` after a '0' and cut to two characters. */
  lemma PadDigits(n: nat)
    requires n < 256
    ensures SliceLast2("0" + ToHexString(n)) == [HexDigit(n / 16), HexDigit(n % 16)]
  {
    if n < 16 {
      PadDigitsSmall(n);
    } else {
      PadDigitsLarge(n);
    }
  }

  /** A number below 16 is one digit; the '0' in front is kept. */
  lemma PadDigitsSmall(n: nat)
    requires n < 16
    ensures SliceLast2("0" + ToHexString(n)) == [HexDigit(0), HexDigit(n)]
  {
    assert ToHexString(n) == [HexDigit(n)];
    assert "0" + [HexDigit(n)] == [HexDigit(0), HexDigit(n)];
  }

  /** A number from 16 to 255 is two digits; the '0' in front is cut off. */
  lemma PadDigitsLarge(n: nat)
    requires 16 <= n < 256
    ensures SliceLast2("0" + ToHexString(n)) == [HexDigit(n / 16), HexDigit(n % 16)]
  {
    var q, r := n / 16, n % 16;
    assert q < 16;
    assert ToHexString(q) == [HexDigit(q)];
    assert ToHexString(n) == [HexDigit(q), HexDigit(r)];
    var s := "0" + [HexDigit(q), HexDigit(r)];
    assert |s| == 3;
    assert SliceLast2(s) == s[1..];
  }

  lemma HexValueAppendDigit(s: string, c: char)
    requires AllHexDigits(s) && IsHexDigit(c)
    ensures AllHexDigits(s + [c]) && HexValue(s + [c]) == HexValue(s) * 16 + DigitValue(c)
  {
    assert (s + [c])[..|s|] == s;
  }

  lemma HexValueTwoDigits(p: string)
    requires |p| == 2 && AllHexDigits(p)
    ensures HexValue(p) == DigitValue(p[0]) * 16 + DigitValue(p[1])
  {
    assert p == [p[0]] + [p[1]];
    HexValueAppendDigit([], p[0]);
    HexValueAppendDigit([p[0]], p[1]);
  }

  lemma {:induction false} ReduceHexSnoc(bytes: seq<Byte>, b: Byte, memo: string)
    ensures ReduceHex(bytes + [b], memo) == ReduceHex(bytes, memo) + PadByte(b)
    decreases |bytes|
  {
    if bytes == [] {
      assert ReduceHex([b], memo) == ReduceHex([], memo + PadByte(b));
    } else {
      assert (bytes + [b])[1..] == bytes[1..] + [b];
      ReduceHexSnoc(bytes[1..], b, memo + PadByte(bytes[0]));
    }
  }

  /** The left fold of getResult appends the padded digits of all bytes to its seed. */
  lemma {:induction false} ReduceHexIsConcat(bytes: seq<Byte>, memo: string)
    ensures ReduceHex(bytes, memo) == memo + PaddedHex(bytes)
    decreases |bytes|
  {
    if bytes != [] {
      var init, last := bytes[..|bytes| - 1], bytes[|bytes| - 1];
      assert bytes == init + [last];
      ReduceHexIsConcat(init, memo);
      ReduceHexSnoc(init, last, memo);
    }
  }

  /** The padded digits are exactly two per byte and spell the big-endian value. */
  lemma {:induction false} PaddedHexValue(bytes: seq<Byte>)
    ensures |PaddedHex(bytes)| == 2 * |bytes| && AllHexDigits(PaddedHex(bytes))
    ensures HexValue(PaddedHex(bytes)) == BigEndian(bytes)
    decreases |bytes|
  {
    if bytes != [] {
      var init, last := bytes[..|bytes| - 1], bytes[|bytes| - 1];
      PaddedHexValue(init);
      HexValueAppendPair(PaddedHex(init), PadByte(last));
    }
  }

  /** Appending two digits shifts the value by one byte. */
  lemma HexValueAppendPair(front: string, p: string)
    requires AllHexDigits(front) && |p| == 2 && AllHexDigits(p)
    ensures AllHexDigits(front + p)
    ensures HexValue(front + p) == HexValue(front) * 256 + HexValue(p)
  {
    assert front + p == (front + [p[0]]) + [p[1]];
    HexValueAppendDigit(front, p[0]);
    HexValueAppendDigit(front + [p[0]], p[1]);
    HexValueTwoDigits(p);
  }

  /** What getResult returns for a read of the two bytes `hi`, `lo`: a 16-bit big-endian value. */
  function DecodeRead(hi: Byte, lo: Byte): (r: nat)
    ensures DecodeResult([hi, lo]) == Int(r)
    ensures r == hi * 256 + lo && r < 65536
  {
    assert [hi, lo][..1] == [hi];
    assert BigEndian([hi]) == hi by {
      assert [hi][..0] == [];
    }
    DecodeResult([hi, lo]).value
  }

  /** Distinct two-byte reads give distinct results. */
  lemma DecodeTwoBytesInjective(hi: Byte, lo: Byte, hi': Byte, lo': Byte)
    requires DecodeResult([hi, lo]) == DecodeResult([hi', lo'])
    ensures hi == hi' && lo == lo'
  {
    var r, r' := DecodeRead(hi, lo), DecodeRead(hi', lo');
    Base256Digits(hi, lo, hi', lo');
  }

  lemma Base256Digits(h: int, l: int, h': int, l': int)
    requires 0 <= l < 256 && 0 <= l' < 256
    requires h * 256 + l == h' * 256 + l'
    ensures h == h' && l == l'
  {
  }

  /** The bytes 0x01, 0x02 read as 258. */
  lemma DecodeExample()
    ensures DecodeResult([0x01, 0x02]) == Int(258)
  {
    var r := DecodeRead(0x01, 0x02);
  }
}
