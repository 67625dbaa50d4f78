/** Bytes and their hexadecimal form: `hashlib`'s `.hexdigest()` (lower-case, two
    characters per byte) and `bytes.fromhex` as its inverse. */
module Hex {
  import opened Text

  newtype byte = x: int | 0 <= x < 256

  predicate IsLowerHexDigit(c: char) {
    '0' <= c <= '9' || 'a' <= c <= 'f'
  }

  predicate IsUpperHexDigit(c: char) {
    '0' <= c <= '9' || 'A' <= c <= 'F'
  }

  predicate IsLowerHex(s: string) {
    forall i :: 0 <= i < |s| ==> IsLowerHexDigit(s[i])
  }

  predicate IsUpperHex(s: string) {
    forall i :: 0 <= i < |s| ==> IsUpperHexDigit(s[i])
  }

  /** The lower-case hex digit of 0 <= k < 16. */
  function LowerDigit(k: int): (c: char)
    requires 0 <= k < 16
    ensures IsLowerHexDigit(c)
  {
    if k < 10 then ('0' as int + k) as char else ('a' as int + k - 10) as char
  }

  /** `.hexdigest()` of a digest. */
  function HexDigest(bs: seq<byte>): (r: string)
    ensures |r| == 2 * |bs|
    ensures IsLowerHex(r)
  {
    if |bs| == 0 then ""
    else [LowerDigit(bs[0] as int / 16), LowerDigit(bs[0] as int % 16)] + HexDigest(bs[1..])
  }

  /** The value of one hex digit of either case. */
  function NibbleValue(c: char): (v: int)
    ensures 0 <= v < 16
  {
    if '0' <= c <= '9' then c as int - '0' as int
    else if 'a' <= c <= 'f' then c as int - 'a' as int + 10
    else if 'A' <= c <= 'F' then c as int - 'A' as int + 10
    else 0
  }

  /** `bytes.fromhex(s)` for a string of hex digit pairs. */
  function Unhex(s: string): (r: seq<byte>)
    requires |s| % 2 == 0
    ensures |r| == |s| / 2
  {
    if |s| == 0 then []
    else [(16 * NibbleValue(s[0]) + NibbleValue(s[1])) as byte] + Unhex(s[2..])
  }

  lemma UpperConcat(a: string, b: string)
    ensures Upper(a + b) == Upper(a) + Upper(b)
  {
    assert forall i :: 0 <= i < |a + b| ==> Upper(a + b)[i] == (Upper(a) + Upper(b))[i];
  }

  lemma ByteNibbles(b: byte)
    ensures NibbleValue(LowerDigit(b as int / 16)) == b as int / 16
    ensures NibbleValue(LowerDigit(b as int % 16)) == b as int % 16
    ensures NibbleValue(UpperChar(LowerDigit(b as int / 16))) == b as int / 16
    ensures NibbleValue(UpperChar(LowerDigit(b as int % 16))) == b as int % 16
    ensures (16 * (b as int / 16) + b as int % 16) as byte == b
  {
  }

  /** Decoding the hex digest gives the digest back. */
  lemma {:induction false} UnhexHexDigest(bs: seq<byte>)
    ensures Unhex(HexDigest(bs)) == bs
  {
    if |bs| > 0 {
      UnhexHexDigest(bs[1..]);
      ByteNibbles(bs[0]);
      var h := HexDigest(bs);
      assert h[2..] == HexDigest(bs[1..]);
      assert [bs[0]] + bs[1..] == bs;
    }
  }

  /** `.lower()` does not change a hex digest: it is already lower-case. */
  lemma {:induction false} LowerHexDigest(bs: seq<byte>)
    ensures Lower(HexDigest(bs)) == HexDigest(bs)
  {
    var h := HexDigest(bs);
    forall i | 0 <= i < |h|
      ensures LowerChar(h[i]) == h[i]
    {
      assert IsLowerHexDigit(h[i]);
    }
  }

  /** `.upper()` of a hex digest is an upper-case hex string of the same length. */
  lemma UpperHexDigestShape(bs: seq<byte>)
    ensures |Upper(HexDigest(bs))| == 2 * |bs|
    ensures IsUpperHex(Upper(HexDigest(bs)))
  {
    var h := HexDigest(bs);
    forall i | 0 <= i < |h|
      ensures IsUpperHexDigit(Upper(h)[i])
    {
      assert IsLowerHexDigit(h[i]);
    }
  }

  /** `.upper()` of a hex digest still decodes to the digest. */
  lemma {:induction false} UpperHexDigestDecodes(bs: seq<byte>)
    ensures Unhex(Upper(HexDigest(bs))) == bs
  {
    if |bs| > 0 {
      UpperHexDigestDecodes(bs[1..]);
      ByteNibbles(bs[0]);
      var h := HexDigest(bs);
      var pair := [LowerDigit(bs[0] as int / 16), LowerDigit(bs[0] as int % 16)];
      assert h == pair + HexDigest(bs[1..]);
      UpperConcat(pair, HexDigest(bs[1..]));
      var u := Upper(h);
      assert u[2..] == Upper(HexDigest(bs[1..]));
      assert u[0] == UpperChar(pair[0]) && u[1] == UpperChar(pair[1]);
      assert [bs[0]] + bs[1..] == bs;
    }
  }
}
