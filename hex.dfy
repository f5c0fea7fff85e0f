/** encoding/hex: lower-case encoding and case-insensitive decoding. */
module Hex {
  import opened Results
  import opened Strings

  /** The lower-case digit of Go's table "0123456789abcdef". */
  function HexChar(d: int): char
    requires 0 <= d < 16
  {
    if d < 10 then ('0' as int + d) as char else ('a' as int + d - 10) as char
  }

  function EncodeByte(b: byte): string {
    [HexChar(b as int / 16), HexChar(b as int % 16)]
  }

  /** hex.EncodeToString. */
  function HexEncode(bs: seq<byte>): (s: string)
    ensures |s| == 2 * |bs|
  {
    if bs == [] then "" else EncodeByte(bs[0]) + HexEncode(bs[1..])
  }

  /** The value of one hex digit, either case. */
  function DigitValue(c: char): Option<int> {
    if '0' <= c <= '9' then Some(c as int - '0' as int)
    else if 'a' <= c <= 'f' then Some(c as int - 'a' as int + 10)
    else if 'A' <= c <= 'F' then Some(c as int - 'A' as int + 10)
    else None
  }

  /**
   * hex.DecodeString: `None` for an odd length or any character that is not a
   * hex digit. Decoding characters instead of the UTF-8 bytes gives the same
   * verdict, since a non-ASCII character is never a hex digit.
   */
  function HexDecode(s: string): (r: Option<seq<byte>>)
    ensures r.Some? ==> 2 * |r.value| == |s|
    decreases |s|
  {
    if s == "" then Some([])
    else if |s| == 1 then None
    else
      match (DigitValue(s[0]), DigitValue(s[1]), HexDecode(s[2..]))
      case (Some(hi), Some(lo), Some(rest)) =>
        assert 0 <= hi < 16 && 0 <= lo < 16;
        Some([(16 * hi + lo) as byte] + rest)
      case _ => None
  }

  /** Decoding undoes encoding: a hex secret gives back the bytes it was made from. */
  lemma {:induction false} DecodeEncode(bs: seq<byte>)
    ensures HexDecode(HexEncode(bs)) == Some(bs)
  {
    if bs != [] {
      DecodeEncode(bs[1..]);
      var s := HexEncode(bs);
      assert s[2..] == HexEncode(bs[1..]);
      var b := bs[0] as int;
      assert DigitValue(s[0]) == Some(b / 16);
      assert DigitValue(s[1]) == Some(b % 16);
      assert (16 * (b / 16) + b % 16) as byte == bs[0];
      assert [bs[0]] + bs[1..] == bs;
    }
  }

  /** Encoded text is plain ASCII, so its Go length is its character count. */
  lemma {:induction false} EncodeIsAscii(bs: seq<byte>)
    ensures IsAscii(HexEncode(bs))
    ensures ByteLen(HexEncode(bs)) == 2 * |bs|
  {
    if bs != [] {
      EncodeIsAscii(bs[1..]);
      var s := HexEncode(bs);
      forall i | 0 <= i < |s| ensures s[i] as int < 0x80 {
        if i >= 2 { assert s[i] == HexEncode(bs[1..])[i - 2]; }
      }
    }
    ByteLenAtLeastLength(HexEncode(bs));
  }
}
