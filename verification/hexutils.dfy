/** Hexadecimal text, section 8 of RFC 4648. */
module HexUtils {

  import opened Base58

  predicate IsHexCharacter(c: char) {
    '0' <= c <= '9' || 'a' <= c <= 'f' || 'A' <= c <= 'F'
  }

  function HexDigit(d: nat): (c: char)
    requires d < 16
    ensures IsHexCharacter(c)
  {
    if d < 10 then '0' + d as char else 'a' + (d - 10) as char
  }

  function HexValue(c: char): (d: nat)
    requires IsHexCharacter(c)
    ensures d < 16
  {
    if c <= '9' then (c - '0') as nat
    else if c <= 'F' then (c - 'A') as nat + 10
    else (c - 'a') as nat + 10
  }

  /** The table of section 8 of RFC 4648, and its letters in the other case. */
  lemma HexTable(d: nat)
    requires d < 16
    ensures HexDigit(d) == "0123456789abcdef"[d]
    ensures IsHexCharacter("0123456789abcdef"[d]) && HexValue("0123456789abcdef"[d]) == d
    ensures IsHexCharacter("0123456789ABCDEF"[d]) && HexValue("0123456789ABCDEF"[d]) == d
  {
  }

  /** hex.EncodeToString: two lower-case characters a byte. */
  function HexEncode(bs: seq<byte>): (s: string)
    ensures |s| == 2 * |bs|
  {
    if bs == [] then ""
    else
      var last := bs[|bs| - 1];
      HexEncode(bs[..|bs| - 1]) + [HexDigit(last / 16), HexDigit(last % 16)]
  }

  predicate AllHex(s: string) {
    forall i :: 0 <= i < |s| ==> IsHexCharacter(s[i])
  }

  function Pairs(s: string): (bs: seq<byte>)
    requires |s| % 2 == 0 && AllHex(s)
    ensures 2 * |bs| == |s|
  {
    if s == "" then []
    else
      var n := |s|;
      Pairs(s[..n - 2]) + [(HexValue(s[n - 2]) * 16 + HexValue(s[n - 1])) as byte]
  }

  /** hex.DecodeString. */
  function HexDecode(s: string): Result<seq<byte>> {
    if |s| % 2 != 0 || !AllHex(s) then Err(BadHex) else Ok(Pairs(s))
  }

  function LowerChar(c: char): char {
    if 'A' <= c <= 'F' then 'a' + (c - 'A') else c
  }

  function Lower(s: string): (l: string)
    ensures |l| == |s|
  {
    seq(|s|, i requires 0 <= i < |s| => LowerChar(s[i]))
  }

  lemma HexCharIsItsDigit(c: char, d: nat)
    requires d < 16
    ensures LowerChar(c) == HexDigit(d) <==> IsHexCharacter(c) && HexValue(c) == d
  {
  }

  lemma ByteOfDigits(hi: nat, lo: nat, b: byte)
    requires hi < 16 && lo < 16
    ensures hi * 16 + lo == b <==> hi == b / 16 && lo == b % 16
  {
  }

  lemma PairIsItsByte(hi: char, lo: char, b: byte)
    ensures LowerChar(hi) == HexDigit(b / 16) && LowerChar(lo) == HexDigit(b % 16)
            <==> IsHexCharacter(hi) && IsHexCharacter(lo) && HexValue(hi) * 16 + HexValue(lo) == b
  {
    HexCharIsItsDigit(hi, b / 16);
    HexCharIsItsDigit(lo, b % 16);
    if IsHexCharacter(hi) && IsHexCharacter(lo) { ByteOfDigits(HexValue(hi), HexValue(lo), b); }
  }

  lemma AppendEquals<T>(s: seq<T>, t: seq<T>, x: T, y: T, x': T, y': T)
    ensures s + [x, y] == t + [x', y'] <==> s == t && x == x' && y == y'
  {
    if s + [x, y] == t + [x', y'] {
      assert |s| == |t|;
      assert (s + [x, y])[..|s|] == s && (t + [x', y'])[..|s|] == t;
      assert (s + [x, y])[|s|] == x && (s + [x, y])[|s| + 1] == y;
    }
  }

  lemma LowerAppend(front: string, hi: char, lo: char)
    ensures Lower(front + [hi, lo]) == Lower(front) + [LowerChar(hi), LowerChar(lo)]
  {
  }

  lemma AllHexAppend(front: string, hi: char, lo: char)
    ensures AllHex(front + [hi, lo]) <==> AllHex(front) && IsHexCharacter(hi) && IsHexCharacter(lo)
  {
    var s := front + [hi, lo];
    if AllHex(s) {
      forall i | 0 <= i < |front| ensures IsHexCharacter(front[i]) { assert s[i] == front[i]; }
      assert s[|front|] == hi && s[|front| + 1] == lo;
    }
  }

  lemma PairsAppend(front: string, hi: char, lo: char, bs: seq<byte>, b: byte)
    requires |front| == 2 * |bs|
    ensures AllHex(front + [hi, lo]) && Pairs(front + [hi, lo]) == bs + [b]
            <==> AllHex(front) && Pairs(front) == bs
                 && IsHexCharacter(hi) && IsHexCharacter(lo) && HexValue(hi) * 16 + HexValue(lo) == b
  {
    AllHexAppend(front, hi, lo);
    var s := front + [hi, lo];
    assert s[..|s| - 2] == front;
    if AllHex(s) && Pairs(s) == bs + [b] {
      assert Pairs(s)[..|bs|] == Pairs(front) && (bs + [b])[..|bs|] == bs;
      assert Pairs(s)[|bs|] == (bs + [b])[|bs|];
    }
  }

  lemma EncodeAppend(bs: seq<byte>, b: byte)
    ensures HexEncode(bs + [b]) == HexEncode(bs) + [HexDigit(b / 16), HexDigit(b % 16)]
  {
    assert (bs + [b])[..|bs|] == bs;
  }

  lemma {:induction false} PairsAreExact(s: string, bs: seq<byte>)
    requires |s| == 2 * |bs|
    ensures AllHex(s) && Pairs(s) == bs <==> Lower(s) == HexEncode(bs)
  {
    if bs != [] {
      var front, hi, lo := s[..|s| - 2], s[|s| - 2], s[|s| - 1];
      var bfront, b := bs[..|bs| - 1], bs[|bs| - 1];
      assert s == front + [hi, lo] && bs == bfront + [b];
      PairsAreExact(front, bfront);
      PairsAppend(front, hi, lo, bfront, b);
      EncodeAppend(bfront, b);
      LowerAppend(front, hi, lo);
      PairIsItsByte(hi, lo, b);
      AppendEquals(Lower(front), HexEncode(bfront), LowerChar(hi), LowerChar(lo), HexDigit(b / 16), HexDigit(b % 16));
    }
  }

  /** A text decodes to the bytes whose encoding it is, up to the case of its letters; all other
      texts are refused. */
  lemma HexDecodeIsExact(s: string, bs: seq<byte>)
    ensures HexDecode(s) == Ok(bs) <==> Lower(s) == HexEncode(bs)
  {
    if |s| == 2 * |bs| { PairsAreExact(s, bs); }
  }

  predicate Has0xPrefix(s: string) {
    |s| >= 2 && s[0] == '0' && (s[1] == 'x' || s[1] == 'X')
  }

  function Without0x(s: string): string {
    if Has0xPrefix(s) then s[2..] else s
  }

  function FromHex(s: string): Result<seq<byte>> {
    var t := Without0x(s);
    HexDecode(if |t| % 2 == 1 then "0" + t else t)
  }

  method BytesToHexString(bs: seq<byte>) returns (s: string)
    ensures s == "0x" + HexEncode(bs)
  {
    var encode := new char[2 * |bs|];
    for i := 0 to |bs|
      invariant encode[..2 * i] == HexEncode(bs[..i])
    {
      encode[2 * i] := HexDigit(bs[i] / 16);
      encode[2 * i + 1] := HexDigit(bs[i] % 16);
      assert bs[..i + 1][..i] == bs[..i];
    }
    assert bs[..|bs|] == bs;
    s := "0x" + encode[..];
  }
}
