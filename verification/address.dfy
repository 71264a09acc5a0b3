/** The text forms of an address: base58 with a checksum, plain hex, and the hex of its last 20
    bytes in the style of Ethereum. */
module Addresses {

  import opened Base58
  import opened Decimals
  import opened HexUtils
  import opened Numerals

  const EVM_LENGTH := 20

  /** go-ethereum's BytesToAddress: cropped or padded on the left to 20 bytes. */
  function EvmBytes(bs: seq<byte>): (r: seq<byte>)
    ensures |r| == EVM_LENGTH
  {
    if |bs| > EVM_LENGTH then bs[|bs| - EVM_LENGTH..] else seq(EVM_LENGTH - |bs|, _ => 0) + bs
  }

  predicate IsHexAddress(s: string) {
    var t := Without0x(s);
    |t| == 2 * EVM_LENGTH && AllHex(t)
  }

  function StringToAddress(sha: Sha256, s: string): Result<seq<byte>> {
    if IsHexAddress(s) then Ok([PREFIX_MAINNET] + EvmBytes(Pairs(Without0x(s))))
    else if |s| == 2 * (ADDRESS_LENGTH + 1) && s[..2] == "41" then FromHex(s)
    else if |s| == 34 && s[0] == 'T' then DecodeCheck(sha, s)
    else Err(BadFormat)
  }

  function String(sha: Sha256, a: seq<byte>): string {
    if a == [] then ""
    else if a[0] == 0 then Digits(Num(a, 256))
    else EncodeCheck(sha, a)
  }

  function Hex(a: seq<byte>): string {
    ("0x" + HexEncode(a))[2..]
  }

  function EthAddress(a: seq<byte>): (e: seq<byte>)
    requires a != []
    ensures |e| == EVM_LENGTH
  {
    EvmBytes(a[1..])
  }

  function UpperChar(c: char): char {
    if 'a' <= c <= 'f' then 'A' + (c - 'a') else c
  }

  function Cased(upper: nat -> bool, s: string): (t: string)
    ensures |t| == |s|
  {
    seq(|s|, i requires 0 <= i < |s| => if upper(i) then UpperChar(s[i]) else s[i])
  }

  /** go-ethereum's Address.Hex: which letters are upper-case depends on a hash of the address. */
  function EvmHex(upper: nat -> bool, e: seq<byte>): string {
    "0x" + Cased(upper, HexEncode(e))
  }

  /** What the documentation of the formats says a text means. */
  predicate Denotes(sha: Sha256, s: string, a: seq<byte>) {
    && |a| == 21 && a[0] == 0x41
    && (Decode(s) == Ok(a + sha(sha(a))[..4])
        || Lower(s) == HexEncode(a) || Lower(Without0x(s)) == HexEncode(a[1..]))
  }

  lemma {:induction false} HexEncodeHead(bs: seq<byte>)
    requires bs != []
    ensures HexEncode(bs) == [HexDigit(bs[0] / 16), HexDigit(bs[0] % 16)] + HexEncode(bs[1..])
  {
    if |bs| > 1 {
      var front := bs[..|bs| - 1];
      HexEncodeHead(front);
      assert front[1..] == bs[1..][..|bs| - 2];
    }
  }

  /** Lower-casing gives no digit that was not there, so a text of an address in hex starts with 41. */
  lemma HexOfMainnet(s: string, a: seq<byte>)
    requires IsMainnet(a) && Lower(s) == HexEncode(a)
    ensures |s| == 42 && s[..2] == "41" && Without0x(s) == s
  {
    HexEncodeHead(a);
    assert Lower(s)[0] == '4' && Lower(s)[1] == '1';
    assert s[0] == '4' && s[1] == '1';
  }

  lemma HexForm(s: string, a: seq<byte>)
    requires |s| == 42 && s[..2] == "41"
    ensures FromHex(s) == Ok(a) <==> Lower(s) == HexEncode(a) && IsMainnet(a)
  {
    assert s[0] == '4' && s[1] == '1';
    HexDecodeIsExact(s, a);
    if Lower(s) == HexEncode(a) {
      HexEncodeHead(a);
      assert Lower(s)[0] == '4' && Lower(s)[1] == '1';
      assert HexDigit(a[0] / 16) == '4' && HexDigit(a[0] % 16) == '1';
      DigitOf(a[0] / 16, 4);
      DigitOf(a[0] % 16, 1);
    }
  }

  lemma DigitOf(d: nat, e: nat)
    requires d < 16 && e < 10 && HexDigit(d) == '0' + e as char
    ensures d == e
  {
  }

  lemma EvmForm(s: string, a: seq<byte>)
    requires IsHexAddress(s)
    ensures [PREFIX_MAINNET] + EvmBytes(Pairs(Without0x(s))) == a
            <==> IsMainnet(a) && Lower(Without0x(s)) == HexEncode(a[1..])
  {
    var e := Pairs(Without0x(s));
    assert EvmBytes(e) == e;
    if IsMainnet(a) {
      assert a == [PREFIX_MAINNET] + a[1..];
      HexDecodeIsExact(Without0x(s), a[1..]);
    }
    if [PREFIX_MAINNET] + e == a {
      assert a[1..] == e;
    }
  }

  lemma EvmTextIsHexAddress(s: string, a: seq<byte>)
    requires IsMainnet(a) && Lower(Without0x(s)) == HexEncode(a[1..])
    ensures IsHexAddress(s)
  {
    HexDecodeIsExact(Without0x(s), a[1..]);
  }

  /** A text is read as an address if and only if it is one of the forms of that address, and the
      address is one of the main network. */
  lemma StringToAddressIsExact(sha: Sha256, s: string, a: seq<byte>)
    ensures StringToAddress(sha, s) == Ok(a) <==> Denotes(sha, s, a)
  {
    DecodeCheckIsExact(sha, s, a);
    if DecodeCheck(sha, s) == Ok(a) { MainnetTextShape(sha, a); }
    if IsMainnet(a) && Lower(s) == HexEncode(a) { HexOfMainnet(s, a); }
    if IsMainnet(a) && Lower(Without0x(s)) == HexEncode(a[1..]) { EvmTextIsHexAddress(s, a); }
    if IsHexAddress(s) {
      EvmForm(s, a);
    } else if |s| == 42 && s[..2] == "41" {
      HexForm(s, a);
    }
  }

  lemma {:induction false} LowerOfHex(bs: seq<byte>)
    ensures Lower(HexEncode(bs)) == HexEncode(bs)
  {
    if bs != [] {
      LowerOfHex(bs[..|bs| - 1]);
      var front, last := HexEncode(bs[..|bs| - 1]), bs[|bs| - 1];
      assert Lower(HexEncode(bs)) == Lower(front) + [HexDigit(last / 16), HexDigit(last % 16)];
    }
  }

  lemma LowerOfCased(upper: nat -> bool, s: string)
    ensures Lower(Cased(upper, s)) == Lower(s)
  {
    forall i | 0 <= i < |s| ensures Lower(Cased(upper, s))[i] == Lower(s)[i] {
      CaseDoesNotMatter(s[i]);
    }
  }

  lemma CaseDoesNotMatter(c: char)
    ensures LowerChar(UpperChar(c)) == LowerChar(c)
  {
  }

  lemma LowerOfEvmHex(upper: nat -> bool, e: seq<byte>)
    ensures Lower(Without0x(EvmHex(upper, e))) == HexEncode(e)
  {
    LowerOfHex(e);
    LowerOfCased(upper, HexEncode(e));
    var s := EvmHex(upper, e);
    assert s[0] == '0' && s[1] == 'x' && s[2..] == Cased(upper, HexEncode(e));
    assert Has0xPrefix(s);
    assert Without0x(s) == Cased(upper, HexEncode(e));
  }

  /** Reading inverts each of the three printers on exactly the main-network addresses. */
  lemma PrintersAreInverted(sha: Sha256, upper: nat -> bool, a: seq<byte>)
    ensures StringToAddress(sha, String(sha, a)) == Ok(a) <==> IsMainnet(a)
    ensures a != [] && a[0] != 0 ==> Decode(String(sha, a)) == Ok(a + sha(sha(a))[..4])
    ensures StringToAddress(sha, Hex(a)) == Ok(a) <==> IsMainnet(a)
    ensures a != [] ==> (StringToAddress(sha, EvmHex(upper, EthAddress(a))) == Ok(a) <==> IsMainnet(a))
  {
    DecodeIsExact(String(sha, a), a + sha(sha(a))[..4]);
    DecodeCheckIsExact(sha, String(sha, a), a);
    StringToAddressIsExact(sha, String(sha, a), a);
    StringToAddressIsExact(sha, Hex(a), a);
    assert Hex(a) == HexEncode(a);
    LowerOfHex(a);
    if a != [] {
      StringToAddressIsExact(sha, EvmHex(upper, EthAddress(a)), a);
      LowerOfEvmHex(upper, EthAddress(a));
      if IsMainnet(a) { assert EthAddress(a) == a[1..]; }
    }
  }

  function MarshalJSON(sha: Sha256, a: seq<byte>): string {
    if a == [] then "\"\"" else "\"" + String(sha, a) + "\""
  }

  /** What UnmarshalJSON stores, or the error it returns. */
  function Unmarshalled(sha: Sha256, data: string): Result<seq<byte>> {
    if |data| < 2 || data[0] != '"' || data[|data| - 1] != '"' then Err(BadFormat)
    else
      var s := data[1..|data| - 1];
      if s == "" then Ok([])
      else if s[0] == 'T' then DecodeCheck(sha, s)
      else FromHex(s)
  }

  /** An address variable, written through a pointer. */
  class AddressVariable {
    var bytes: seq<byte>

    method UnmarshalJSON(sha: Sha256, data: string) returns (ok: bool)
      modifies this
      ensures ok <==> Unmarshalled(sha, data).Ok?
      ensures bytes == if ok then Unmarshalled(sha, data).value else old(bytes)
    {
      if |data| < 2 || data[0] != '"' || data[|data| - 1] != '"' {
        return false;
      }
      var s := data[1..|data| - 1];
      if s == "" {
        bytes := [];
        return true;
      }
      var address := if s[0] == 'T' then DecodeCheck(sha, s) else FromHex(s);
      if address.Err? {
        return false;
      }
      bytes := address.value;
      return true;
    }

    /** From a database column: only exactly 21 bytes are taken. */
    method Scan(src: seq<byte>) returns (ok: bool)
      modifies this
      ensures ok <==> |src| == ADDRESS_LENGTH + 1
      ensures bytes == if ok then src else old(bytes)
    {
      ok := |src| == ADDRESS_LENGTH + 1;
      if ok { bytes := src; }
    }
  }

  /** Hexadecimal text of bytes, in either case, with or without 0x, and without a leading zero if the
      bytes' text starts with one. */
  predicate IsHexOf(s: string, a: seq<byte>) {
    Lower(Without0x(s)) == HexEncode(a) || Lower("0" + Without0x(s)) == HexEncode(a)
  }

  lemma FromHexIsExact(s: string, a: seq<byte>)
    ensures FromHex(s) == Ok(a) <==> IsHexOf(s, a)
  {
    PaddedIsExact(Without0x(s), a);
  }

  lemma PaddedIsExact(t: string, a: seq<byte>)
    ensures HexDecode(if |t| % 2 == 1 then "0" + t else t) == Ok(a)
            <==> Lower(t) == HexEncode(a) || Lower("0" + t) == HexEncode(a)
  {
    if |t| % 2 == 1 {
      HexDecodeIsExact("0" + t, a);
      assert |Lower(t)| != |HexEncode(a)|;
    } else {
      HexDecodeIsExact(t, a);
      assert |Lower("0" + t)| != |HexEncode(a)|;
    }
  }

  lemma NoHexWithT(s: string, a: seq<byte>)
    requires s != "" && s[0] == 'T'
    ensures !IsHexOf(s, a)
  {
    assert Without0x(s) == s;
    HexDecodeIsExact(s, a);
    HexDecodeIsExact("0" + s, a);
    assert ("0" + s)[1] == s[0];
    assert !AllHex(s) && !AllHex("0" + s);
  }

  predicate IsTextOf(sha: Sha256, s: string, a: seq<byte>) {
    (|a| == 21 && a[0] == 0x41 && Decode(s) == Ok(a + sha(sha(a))[..4])) || IsHexOf(s, a)
  }

  /** What JSON data give an address: a text in quotes that is the base58 of a main-network address
      with its checksum, or the hexadecimal text of any bytes. */
  lemma JsonIsExact(sha: Sha256, data: string, a: seq<byte>)
    ensures Unmarshalled(sha, data) == Ok(a) <==> exists s :: data == "\"" + s + "\"" && IsTextOf(sha, s, a)
  {
    if |data| >= 2 && data[0] == '"' && data[|data| - 1] == '"' {
      var s := data[1..|data| - 1];
      assert data == "\"" + s + "\"";
      TextIsExact(sha, s, a);
    }
    forall s | data == "\"" + s + "\"" ensures s == data[1..|data| - 1] && data[0] == data[|data| - 1] == '"' {}
  }

  lemma TextIsExact(sha: Sha256, s: string, a: seq<byte>)
    ensures (if s == "" then a == [] else if s[0] == 'T' then DecodeCheck(sha, s) == Ok(a) else FromHex(s) == Ok(a))
            <==> IsTextOf(sha, s, a)
  {
    DecodeCheckIsExact(sha, s, a);
    FromHexIsExact(s, a);
    if DecodeCheck(sha, s) == Ok(a) { MainnetTextShape(sha, a); }
    if s != "" && s[0] == 'T' { NoHexWithT(s, a); }
    if s == "" { assert Decode(s).Err?; }
  }

  /** 21 bytes never fit the hex reading of a text of 40 characters. */
  lemma FromHexOfShort(s: string, a: seq<byte>)
    requires |s| <= 40 && |a| == 21
    ensures FromHex(s) != Ok(a)
  {
    var t := Without0x(s);
    HexDecodeIsExact(if |t| % 2 == 1 then "0" + t else t, a);
  }

  /** A decimal numeral is not the hex of 21 bytes that start with zero: it has no leading zeros. */
  lemma FromHexOfDecimal(n: nat, a: seq<byte>)
    requires |a| == 21 && a[0] == 0
    ensures FromHex(Digits(n)) != Ok(a)
  {
    var t := Digits(n);
    assert |t| >= 2 ==> t[1] in t;
    assert Without0x(t) == t;
    NoLeadingZero(n);
    var padded := if |t| % 2 == 1 then "0" + t else t;
    HexDecodeIsExact(padded, a);
    HexEncodeHead(a);
    assert HexEncode(a)[0] == HexEncode(a)[1] == '0';
    assert t[0] in t && padded[|padded| - |t|] == t[0];
    assert Lower(padded)[|padded| - |t|] == t[0];
  }

  /** A 21-byte address survives JSON if and only if it is one of the main network; so does the
      empty one. */
  lemma JsonRoundTrip(sha: Sha256, a: seq<byte>)
    requires a == [] || |a| == ADDRESS_LENGTH + 1
    ensures Unmarshalled(sha, MarshalJSON(sha, a)) == Ok(a) <==> a == [] || IsMainnet(a)
  {
    if a != [] {
      var s := String(sha, a);
      var data := MarshalJSON(sha, a);
      assert data[1..|data| - 1] == s;
      DecodeCheckIsExact(sha, s, a);
      if a[0] == 0 {
        FromHexOfDecimal(Num(a, 256), a);
        assert s[0] in s;
      } else if a[0] == PREFIX_MAINNET {
        MainnetTextShape(sha, a);
      } else {
        TextLength(sha, a);
        FromHexOfShort(s, a);
      }
    } else {
      assert MarshalJSON(sha, a)[1..1] == "";
    }
  }
}
