/** The conversion of a text file's bytes into the digit string the text mapper reads:
    hexlify the bytes, read the hex string as a base-16 integer, render it in decimal. */
module TextSource {
  import opened Errors
  import opened Digits

  type Byte = x: int | 0 <= x < 256

  /** The bytes read as one big-endian base-256 number. */
  function BigEndian(bs: seq<Byte>): nat {
    if bs == [] then 0 else 256 * BigEndian(bs[..|bs| - 1]) + bs[|bs| - 1]
  }

  predicate IsHexDigit(c: char) {
    '0' <= c <= '9' || 'a' <= c <= 'f' || 'A' <= c <= 'F'
  }

  function HexDigitValue(c: char): (d: nat)
    requires IsHexDigit(c)
    ensures d < 16
  {
    if '0' <= c <= '9' then (c as int - '0' as int) as nat
    else if 'a' <= c <= 'f' then (c as int - 'a' as int + 10) as nat
    else (c as int - 'A' as int + 10) as nat
  }

  /** The lower-case hex digit binascii.hexlify writes for a nibble. */
  function HexChar(d: nat): (c: char)
    requires d < 16
    ensures IsHexDigit(c) && HexDigitValue(c) == d
  {
    if d < 10 then ('0' as int + d) as char else ('a' as int + d - 10) as char
  }

  /** binascii.hexlify(bs).decode(): two hex digits per byte, high nibble first. */
  function Hexlify(bs: seq<Byte>): string {
    if bs == [] then []
    else Hexlify(bs[..|bs| - 1]) + [HexChar(bs[|bs| - 1] / 16), HexChar(bs[|bs| - 1] % 16)]
  }

  predicate IsHexDigits(s: string) {
    forall i :: 0 <= i < |s| ==> IsHexDigit(s[i])
  }

  /** int(s, 16) for a non-empty hex string s, read left to right. */
  function HexValue(s: string): nat
    requires IsHexDigits(s)
  {
    if s == [] then 0 else 16 * HexValue(s[..|s| - 1]) + HexDigitValue(s[|s| - 1])
  }

  /** The conversion part of parse_txt_data on the encoded bytes of the file.
      An empty file gives int('', 16), which raises. */
  function ParseTxtData(bs: seq<Byte>): (r: Result<string>)
    ensures bs == [] <==> r == Err(InvalidLiteral)
    ensures r.Ok? ==> IsDigits(r.value) && |r.value| >= 1
    ensures r.Ok? ==> DigitsValue(r.value) == BigEndian(bs)
    ensures r.Ok? ==> (r.value[0] == '0' <==> r.value == "0")
  {
    if bs == [] then Err(InvalidLiteral)
    else
      HexlifyIsHex(bs);
      var n := HexValue(Hexlify(bs));
      HexlifyValue(bs);
      DecimalValue(n);
      DecimalNoLeadingZero(n);
      Ok(Decimal(n))
  }

  lemma {:induction false} HexlifyIsHex(bs: seq<Byte>)
    ensures |Hexlify(bs)| == 2 * |bs| && IsHexDigits(Hexlify(bs))
  {
    if bs != [] {
      HexlifyIsHex(bs[..|bs| - 1]);
    }
  }

  /** Reading hexlify's output in base 16 gives the bytes' big-endian value. */
  lemma {:induction false} HexlifyValue(bs: seq<Byte>)
    ensures IsHexDigits(Hexlify(bs)) && HexValue(Hexlify(bs)) == BigEndian(bs)
  {
    HexlifyIsHex(bs);
    if bs != [] {
      var init := bs[..|bs| - 1];
      var b := bs[|bs| - 1];
      var h := Hexlify(init);
      var s := Hexlify(bs);
      HexlifyValue(init);
      assert s == h + [HexChar(b / 16)] + [HexChar(b % 16)];
      assert s[..|s| - 1] == h + [HexChar(b / 16)];
      assert (h + [HexChar(b / 16)])[..|h|] == h;
      calc {
        HexValue(s);
        16 * HexValue(h + [HexChar(b / 16)]) + b % 16;
        16 * (16 * HexValue(h) + b / 16) + b % 16;
        256 * BigEndian(init) + b;
      }
    }
  }

  /** A leading zero byte does not change the number the bytes denote. */
  lemma {:induction false} BigEndianLeadingZero(bs: seq<Byte>)
    ensures BigEndian([0] + bs) == BigEndian(bs)
  {
    if bs != [] {
      BigEndianLeadingZero(bs[..|bs| - 1]);
      assert ([0] + bs)[..|bs|] == [0] + bs[..|bs| - 1];
    }
  }

  /** Leading zero bytes of the file leave no trace in the digit string. */
  lemma LeadingZeroBytesVanish(bs: seq<Byte>)
    requires bs != []
    ensures ParseTxtData([0] + bs) == ParseTxtData(bs)
  {
    BigEndianLeadingZero(bs);
    HexlifyValue(bs);
    HexlifyValue([0] + bs);
  }
}
