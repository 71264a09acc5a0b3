/** Base58 text, plain and with a checksum. */
module Base58 {

  import opened Numerals

  type byte = b: nat | b < 256

  /** What SHA-256 gives; the hash itself is a parameter. */
  type Digest = s: seq<byte> | |s| == 32 witness seq(32, _ => 0)
  type Sha256 = seq<byte> -> Digest

  const ADDRESS_LENGTH := 20
  const PREFIX_MAINNET: byte := 0x41

  datatype Error = BadBase58 | BadCheck | BadLength | BadPrefix | BadHex | BadFormat
  datatype Result<T> = Ok(value: T) | Err(error: Error)

  /** The alphabet 1-9, A-Z without I and O, a-z without l. */
  function CharOf(d: nat): char
    requires d < 58
  {
    if d < 9 then '1' + d as char
    else if d < 17 then 'A' + (d - 9) as char
    else if d < 22 then 'J' + (d - 17) as char
    else if d < 33 then 'P' + (d - 22) as char
    else if d < 44 then 'a' + (d - 33) as char
    else 'm' + (d - 44) as char
  }

  lemma AlphabetIs(d: nat)
    requires d < 58
    ensures CharOf(d) == ("123456789" + "ABCDEFGHJKLMNPQRSTUVWXYZ" + "abcdefghijkmnopqrstuvwxyz")[d]
  {
    var digits, capitals, smalls := "123456789", "ABCDEFGHJKLMNPQRSTUVWXYZ", "abcdefghijkmnopqrstuvwxyz";
    var alphabet := digits + capitals + smalls;
    if d < 9 {
      assert alphabet[d] == digits[d];
    } else if d < 33 {
      assert alphabet[d] == capitals[d - 9];
    } else {
      assert alphabet[d] == smalls[d - 33];
    }
  }

  predicate InAlphabet(c: char) {
    '1' <= c <= '9' || 'A' <= c <= 'H' || 'J' <= c <= 'N' || 'P' <= c <= 'Z' || 'a' <= c <= 'k' || 'm' <= c <= 'z'
  }

  function ValueOf(c: char): (d: nat)
    requires InAlphabet(c)
    ensures d < 58 && CharOf(d) == c
  {
    if c <= '9' then (c - '1') as nat
    else if c <= 'H' then (c - 'A') as nat + 9
    else if c <= 'N' then (c - 'J') as nat + 17
    else if c <= 'Z' then (c - 'P') as nat + 22
    else if c <= 'k' then (c - 'a') as nat + 33
    else (c - 'm') as nat + 44
  }

  lemma CharOfIsInverted(d: nat)
    requires d < 58
    ensures InAlphabet(CharOf(d)) && ValueOf(CharOf(d)) == d
  {
  }

  function Text(ds: seq<nat>): (s: string)
    requires Fits(ds, 58)
    ensures |s| == |ds|
  {
    seq(|ds|, i requires 0 <= i < |ds| => CharOf(ds[i]))
  }

  predicate IsBase58(s: string) {
    forall i :: 0 <= i < |s| ==> InAlphabet(s[i])
  }

  function Values(s: string): (ds: seq<nat>)
    requires IsBase58(s)
    ensures Fits(ds, 58) && Text(ds) == s
  {
    seq(|s|, i requires 0 <= i < |s| => ValueOf(s[i]))
  }

  lemma TextIsInverted(ds: seq<nat>)
    requires Fits(ds, 58)
    ensures IsBase58(Text(ds)) && Values(Text(ds)) == ds
  {
    forall i | 0 <= i < |ds| ensures InAlphabet(CharOf(ds[i])) && ValueOf(CharOf(ds[i])) == ds[i] {
      CharOfIsInverted(ds[i]);
    }
  }

  function Bytes(ds: seq<nat>): (bs: seq<byte>)
    requires Fits(ds, 256)
    ensures bs == ds
  {
    ds
  }

  function Encode(bs: seq<byte>): string {
    Text(ChangeBase(bs, 256, 58))
  }

  function Decode(s: string): Result<seq<byte>> {
    if s == "" || !IsBase58(s) then Err(BadBase58) else Ok(Bytes(ChangeBase(Values(s), 58, 256)))
  }

  /** Every byte string but the empty one is the decoding of exactly one text, its encoding. */
  lemma DecodeIsExact(s: string, bs: seq<byte>)
    ensures Decode(s) == Ok(bs) <==> s == Encode(bs) && bs != []
  {
    ChangeBack(bs, 256, 58);
    TextIsInverted(ChangeBase(bs, 256, 58));
    if s != "" && IsBase58(s) {
      ChangeBack(Values(s), 58, 256);
    }
  }

  function Checksum(sha: Sha256, bs: seq<byte>): (check: seq<byte>)
    ensures |check| == 4
  {
    sha(sha(bs))[..4]
  }

  function EncodeCheck(sha: Sha256, bs: seq<byte>): string {
    Encode(bs + Checksum(sha, bs))
  }

  function DecodeCheck(sha: Sha256, s: string): Result<seq<byte>> {
    var decoded := Decode(s);
    if decoded.Err? then decoded
    else
      var bs := decoded.value;
      if |bs| < 4 then Err(BadCheck)
      else if |bs| != ADDRESS_LENGTH + 4 + 1 then Err(BadLength)
      else if bs[0] != PREFIX_MAINNET then Err(BadPrefix)
      else
        var data := bs[..|bs| - 4];
        if Checksum(sha, data) == bs[|data|..] then Ok(data) else Err(BadCheck)
  }

  /** The 21-byte addresses of the main network. */
  predicate IsMainnet(a: seq<byte>) {
    |a| == ADDRESS_LENGTH + 1 && a[0] == PREFIX_MAINNET
  }

  /** A text decodes to an address if and only if it is the encoding of that address and the address
      is one of the main network: texts and main-network addresses are in one-to-one correspondence.
      What the text spells is 21 bytes led by 0x41, and the first four bytes of their double hash. */
  lemma DecodeCheckIsExact(sha: Sha256, s: string, a: seq<byte>)
    ensures DecodeCheck(sha, s) == Ok(a) <==> IsMainnet(a) && s == EncodeCheck(sha, a)
    ensures DecodeCheck(sha, s) == Ok(a) <==> |a| == 21 && a[0] == 0x41 && Decode(s) == Ok(a + sha(sha(a))[..4])
  {
    var bs := a + Checksum(sha, a);
    DecodeIsExact(s, bs);
    if IsMainnet(a) {
      assert bs[..|bs| - 4] == a;
    }
    if DecodeCheck(sha, s) == Ok(a) {
      var decoded := Decode(s).value;
      assert decoded == decoded[..|decoded| - 4] + decoded[|decoded| - 4..];
    }
  }

  /** 25 bytes led by 0x41 lie between 26 and 27 times the 33rd power of 58. */
  lemma PrefixBounds()
    ensures 26 * Pow(58, 33) <= 65 * Pow(256, 24) && 66 * Pow(256, 24) <= 27 * Pow(58, 33)
    ensures 256 * Pow(256, 24) < Pow(58, 35)
  {
    assert Pow(58, 9) == 7427658739644928;
    assert Pow(58, 18) == 55170114352623680311867516125184;
    assert Pow(58, 27) == 409784782038475358155993886453618449022558666752;
    assert Pow(58, 33) == 15599970876632771988160814054146447252125923204784443097088;
    assert Pow(58, 35) == 52478302028992644968172978478148648556151605660894866578604032;
    assert Pow(256, 8) == 18446744073709551616;
    assert Pow(256, 16) == 340282366920938463463374607431768211456;
    assert Pow(256, 24) == 6277101735386680763835789423207666416102355444464034512896;
  }

  /** The text of a main-network address has 34 characters and starts with T. */
  lemma MainnetTextShape(sha: Sha256, a: seq<byte>)
    requires IsMainnet(a)
    ensures |EncodeCheck(sha, a)| == 34 && EncodeCheck(sha, a)[0] == 'T'
  {
    var bs := a + Checksum(sha, a);
    NumBounds(bs, 256);
    PrefixBounds();
    LeadingDigit(Num(bs, 256), 58, 26, 33);
    assert LeadingZeros(bs) == 0;
    assert ChangeBase(bs, 256, 58) == Rep(Num(bs, 256), 58);
  }

  /** The text of any 21 bytes has at most 35 characters. */
  lemma TextLength(sha: Sha256, a: seq<byte>)
    requires |a| == ADDRESS_LENGTH + 1 && a[0] != 0
    ensures |EncodeCheck(sha, a)| <= 35
  {
    var bs := a + Checksum(sha, a);
    NumBounds(bs, 256);
    PrefixBounds();
    var first: nat := bs[0];
    Scale(first + 1, 256, Pow(256, 24));
    RepLength(Num(bs, 256), 58, 35);
    assert ChangeBase(bs, 256, 58) == Rep(Num(bs, 256), 58);
  }
}
