/** Bytes and their hexadecimal text, as `bytesToHex` of @stacks/common
    writes it: two lower-case hex digits per byte, most significant first. */
module Hex {
  import opened Wrappers

  type Byte = b: int | 0 <= b < 256

  const HexDigits: string := "0123456789abcdef"

  function HexDigit(v: int): (c: char)
    requires 0 <= v < 16
  {
    HexDigits[v]
  }

  /** Value of one hex digit (either case), if `c` is one. */
  function DigitValue(c: char): (r: Option<int>)
    ensures r.Some? ==> 0 <= r.value < 16
  {
    if '0' <= c <= '9' then Some(c as int - '0' as int)
    else if 'a' <= c <= 'f' then Some(c as int - 'a' as int + 10)
    else if 'A' <= c <= 'F' then Some(c as int - 'A' as int + 10)
    else None
  }

  function ByteToHex(b: Byte): (s: string)
  {
    [HexDigit(b / 16), HexDigit(b % 16)]
  }

  function BytesToHex(bs: seq<Byte>): (s: string)
    ensures |s| == 2 * |bs|
    ensures forall k :: 0 <= k < |s| ==> s[k] in HexDigits
  {
    if bs == [] then [] else ByteToHex(bs[0]) + BytesToHex(bs[1..])
  }

  /** Reads hex text back into bytes; fails on odd length or a non-hex character. */
  function ParseHex(s: string): (r: Option<seq<Byte>>)
    ensures r.Some? ==> 2 * |r.value| == |s|
  {
    if s == [] then Some([])
    else if |s| == 1 then None
    else
      match (DigitValue(s[0]), DigitValue(s[1]), ParseHex(s[2..]))
      case (Some(hi), Some(lo), Some(rest)) => Some([16 * hi + lo] + rest)
      case _ => None
  }

  lemma DigitValueOfHexDigit(v: int)
    requires 0 <= v < 16
    ensures DigitValue(HexDigit(v)) == Some(v)
  {
  }

  /** The two digits `ByteToHex` writes read back as that byte, ahead of the rest. */
  lemma ParseByteToHex(b: Byte, t: string)
    ensures ParseHex(ByteToHex(b) + t) ==
            (if ParseHex(t).Some? then Some([b] + ParseHex(t).value) else None)
  {
    var s := ByteToHex(b) + t;
    DigitValueOfHexDigit(b / 16);
    DigitValueOfHexDigit(b % 16);
    assert s[0] == HexDigit(b / 16) && s[1] == HexDigit(b % 16) && s[2..] == t;
  }

  /** Hex text written by `BytesToHex` reads back as the same bytes. */
  lemma {:induction false} ParseBytesToHex(bs: seq<Byte>)
    ensures ParseHex(BytesToHex(bs)) == Some(bs)
  {
    if bs != [] {
      ParseBytesToHex(bs[1..]);
      ParseByteToHex(bs[0], BytesToHex(bs[1..]));
      assert [bs[0]] + bs[1..] == bs;
    }
  }

  /** Distinct byte strings have distinct hex text. */
  lemma BytesToHexInjective(a: seq<Byte>, b: seq<Byte>)
    requires BytesToHex(a) == BytesToHex(b)
    ensures a == b
  {
    ParseBytesToHex(a);
    ParseBytesToHex(b);
  }
}
