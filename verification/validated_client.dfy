/** The client that lets calls through only to a chain with the configured id, which it finds out
    once, with double-checked locking. */
module ValidatedClient {

  import opened Options
  import opened Base58
  import opened DoubleChecked
  import opened HexUtils
  import opened Numerals

  /** What validate makes of the genesis block.  A block id of fewer than eight characters makes
      the slice panic after done was set, with err still nil: the call that filled the cell ends
      with the panic, all others find no error. */
  datatype Verdict = Match | Mismatch | Unparsable | TooShort

  function HexNumber(s: string): nat
    requires AllHex(s)
  {
    if s == [] then 0 else 16 * HexNumber(s[..|s| - 1]) + HexValue(s[|s| - 1])
  }

  /** big.Int.SetString in base 16: digits after an optional sign. */
  function ParseHex(s: string): Option<int> {
    var negative := s != [] && s[0] == '-';
    var digits := if s != [] && (s[0] == '-' || s[0] == '+') then s[1..] else s;
    if digits == [] || !AllHex(digits) then None
    else
      var v: int := HexNumber(digits);
      Some(if negative then -v else v)
  }

  function Judge(blockId: string, chainID: int): Verdict {
    if |blockId| < 8 then TooShort
    else
      match ParseHex(blockId[|blockId| - 8..])
      case None => Unparsable
      case Some(id) => if id == chainID then Match else Mismatch
  }

  // ---------------------------------------------------------------- what the characters spell

  lemma {:induction false} HexNumberIsNum(t: string, bs: seq<byte>)
    requires Lower(t) == HexEncode(bs)
    ensures AllHex(t) && HexNumber(t) == Num(bs, 256)
  {
    HexDecodeIsExact(t, bs);
    if bs != [] {
      var n := |t|;
      var front, b := bs[..|bs| - 1], bs[|bs| - 1];
      var hi, lo := t[n - 2], t[n - 1];
      assert t == t[..n - 2] + [hi, lo] && bs == front + [b];
      LowerAppend(t[..n - 2], hi, lo);
      EncodeAppend(front, b);
      AppendEquals(Lower(t[..n - 2]), HexEncode(front), LowerChar(hi), LowerChar(lo),
                   HexDigit(b / 16), HexDigit(b % 16));
      HexNumberIsNum(t[..n - 2], front);
      PairIsItsByte(hi, lo, b);
      TwoDigits(t);
    }
  }

  lemma TwoDigits(t: string)
    requires |t| >= 2 && AllHex(t)
    ensures var n := |t|; HexNumber(t) == HexNumber(t[..n - 2]) * 256 + HexValue(t[n - 2]) * 16 + HexValue(t[n - 1])
  {
    var front := t[..|t| - 1];
    assert front[..|front| - 1] == t[..|t| - 2];
  }

  function LowByte(n: nat): (b: byte)
    ensures b == n % 256
  {
    DivMod(n, 256);
    n % 256
  }

  /** The four bytes of a number, most significant first. */
  function FourBytes(n: nat): (bs: seq<byte>)
    requires n < 0x1_0000_0000
  {
    [LowByte(n / 256 / 256 / 256), LowByte(n / 256 / 256), LowByte(n / 256), LowByte(n)]
  }

  lemma NumOfFour(bs: seq<byte>)
    requires |bs| == 4
    ensures Num(bs, 256) == ((bs[0] as nat * 256 + bs[1]) * 256 + bs[2]) * 256 + bs[3]
  {
    assert bs[..3][..2] == bs[..2] && bs[..2][..1] == bs[..1] && bs[..1][..0] == [];
    assert Num(bs[..1], 256) == bs[0];
    assert Num(bs[..2], 256) == Num(bs[..2][..1], 256) * 256 + bs[1];
    assert Num(bs[..3], 256) == Num(bs[..3][..2], 256) * 256 + bs[2];
  }

  lemma LastByte(n: nat, front: nat, b: byte)
    ensures front * 256 + b == n <==> front == n / 256 && b == LowByte(n)
  {
  }

  lemma FourBytesSpell(bs: seq<byte>, n: int)
    requires |bs| == 4
    ensures Num(bs, 256) == n <==> 0 <= n < 0x1_0000_0000 && bs == FourBytes(n)
  {
    NumOfFour(bs);
    if 0 <= n < 0x1_0000_0000 {
      LastByte(n, (bs[0] as nat * 256 + bs[1]) * 256 + bs[2], bs[3]);
      LastByte(n / 256, bs[0] as nat * 256 + bs[1], bs[2]);
      LastByte(n / 256 / 256, bs[0], bs[1]);
      assert n / 256 / 256 / 256 < 256;
    }
  }

  /** Eight hexadecimal characters, in either case, that spell n. */
  predicate IsHexOf(t: string, n: int) {
    0 <= n < 0x1_0000_0000 && Lower(t) == HexEncode(FourBytes(n))
  }

  lemma EightDigits(t: string, n: int)
    requires |t| == 8
    ensures AllHex(t) && HexNumber(t) == n <==> IsHexOf(t, n)
  {
    if AllHex(t) {
      var bs := Pairs(t);
      HexDecodeIsExact(t, bs);
      HexNumberIsNum(t, bs);
      FourBytesSpell(bs, n);
    }
    if IsHexOf(t, n) {
      HexDecodeIsExact(t, FourBytes(n));
      HexNumberIsNum(t, FourBytes(n));
      FourBytesSpell(FourBytes(n), n);
    }
  }

  lemma {:induction false} ZeroInFront(t: string)
    requires AllHex(t)
    ensures AllHex("0" + t) && HexNumber("0" + t) == HexNumber(t)
  {
    if t != "" {
      ZeroInFront(t[..|t| - 1]);
      assert ("0" + t)[..|t|] == "0" + t[..|t| - 1];
    }
  }

  /** The last eight characters of the block id spell the chain id: in hexadecimal, or with a sign in
      the first place. */
  predicate Spells(blockId: string, chainID: int) {
    |blockId| >= 8
    && var t := blockId[|blockId| - 8..];
       if t[0] == '-' then IsHexOf("0" + t[1..], -chainID)
       else if t[0] == '+' then IsHexOf("0" + t[1..], chainID)
       else IsHexOf(t, chainID)
  }

  lemma SpellsIsParsed(blockId: string, chainID: int)
    requires |blockId| >= 8
    ensures Spells(blockId, chainID) <==> ParseHex(blockId[|blockId| - 8..]) == Some(chainID)
  {
    var t := blockId[|blockId| - 8..];
    if t[0] == '-' || t[0] == '+' {
      SignedDigits(t, if t[0] == '-' then -chainID else chainID);
    } else {
      EightDigits(t, chainID);
    }
  }

  lemma SignedDigits(t: string, n: int)
    requires |t| == 8
    ensures AllHex(t[1..]) && HexNumber(t[1..]) == n <==> IsHexOf("0" + t[1..], n)
  {
    var digits := t[1..];
    EightDigits("0" + digits, n);
    if AllHex(digits) { ZeroInFront(digits); }
    if AllHex("0" + digits) {
      forall i | 0 <= i < |digits| ensures IsHexCharacter(digits[i]) { assert digits[i] == ("0" + digits)[i + 1]; }
    }
  }

  /** The chain id of the main network as its genesis block has it. */
  lemma MainnetMatches(front: string)
    ensures Judge(front + "2b6653dc", 728126428) == Match
  {
    var blockId := front + "2b6653dc";
    assert blockId[|blockId| - 8..] == "2b6653dc";
    FourBytesSpell([0x2b, 0x66, 0x53, 0xdc], 728126428);
    NumOfFour([0x2b, 0x66, 0x53, 0xdc]);
    MainnetText();
    SpellsIsParsed(blockId, 728126428);
  }

  lemma MainnetText()
    ensures Lower("2b6653dc") == HexEncode([0x2b, 0x66, 0x53, 0xdc])
  {
    var bs: seq<byte> := [0x2b, 0x66, 0x53, 0xdc];
    HexEncodeOfTwo(bs[..2]);
    HexEncodeOfTwo(bs[2..]);
    EncodeAppend(bs[..2], bs[2]);
    EncodeAppend(bs[..3], bs[3]);
    assert bs[..3] == bs[..2] + [bs[2]] && bs == bs[..3] + [bs[3]];
  }

  lemma HexEncodeOfTwo(bs: seq<byte>)
    requires |bs| == 2
    ensures HexEncode(bs) == [HexDigit(bs[0] / 16), HexDigit(bs[0] % 16), HexDigit(bs[1] / 16), HexDigit(bs[1] % 16)]
  {
    EncodeAppend([], bs[0]);
    EncodeAppend([bs[0]], bs[1]);
    assert [] + [bs[0]] == [bs[0]] && [bs[0]] + [bs[1]] == bs;
  }

  /** The error on record is nil. */
  predicate Passes(v: Verdict) {
    v == Match || v == TooShort
  }

  /** How a call of validate ends that has a verdict. */
  datatype Outcome = Passed | Stopped | Panicked

  function OutcomeOf(v: Verdict, filling: bool): Outcome {
    if v == TooShort && filling then Panicked else if Passes(v) then Passed else Stopped
  }

  /** The wrapped client's answers: blocks[i] is what GetBlockByNum(0) gives at step i. */
  ghost predicate Judged(r: Run<(), Verdict>, blocks: seq<Option<string>>, chainID: int) {
    |blocks| == |r.labels|
    && forall i :: 0 <= i < |r.labels| ==> JudgedAt(r.labels[i], blocks[i], chainID)
  }

  ghost predicate JudgedAt(l: Label<(), Verdict>, block: Option<string>, chainID: int) {
    l.Fill? ==> l.outcome == if block.None? then None else Some(Judge(block.value, chainID))
  }

  /** A verdict that is recorded is the one of a genesis block that was fetched. */
  lemma {:induction false} VerdictIsOfFetchedBlock(r: Run<(), Verdict>, blocks: seq<Option<string>>, chainID: int,
                                                   n: nat)
    returns (i: nat)
    requires IsRun(r) && Judged(r, blocks, chainID) && n < |r.states| && () in r.states[n].cells
    ensures i < n && r.labels[i].Fill? && blocks[i].Some?
    ensures r.states[n].cells[()] == Judge(blocks[i].value, chainID)
  {
    assert n > 0;
    RunKeepsInv(r, n - 1);
    assert StepAt(r, n - 1) && JudgedAt(r.labels[n - 1], blocks[n - 1], chainID);
    StepKeepsInv(r.states[n - 1], r.labels[n - 1]);
    if () in r.states[n - 1].cells {
      i := VerdictIsOfFetchedBlock(r, blocks, chainID, n - 1);
    } else {
      i := n - 1;
    }
  }

  /** A call passes the gate only after a verdict was recorded, exactly one, and that verdict is of
      a block that was fetched and, if its id is long enough to hold a chain id, ends in the
      configured chain id.  A failed fetch records nothing. */
  lemma GateNeedsMatch(r: Run<(), Verdict>, blocks: seq<Option<string>>, chainID: int, n: nat, t: Tid)
    returns (i: nat)
    requires IsRun(r) && Judged(r, blocks, chainID) && n < |r.states|
    requires t in r.states[n].threads && r.states[n].threads[t].Returned?
    requires r.states[n].threads[t].got.Some? && Passes(r.states[n].threads[t].got.value)
    ensures i < n && r.labels[i].Fill? && blocks[i].Some?
    ensures |blocks[i].value| >= 8 ==> Spells(blocks[i].value, chainID)
    ensures FillsOf(r, n, ()) == 1
    ensures forall k :: 0 <= k < n && r.labels[k].Fill? && blocks[k].None? ==>
              r.states[k + 1].cells == r.states[k].cells
  {
    RunKeepsInv(r, n);
    assert ThreadOk(r.states[n], t) && r.states[n].threads[t].key == ();
    i := VerdictIsOfFetchedBlock(r, blocks, chainID, n);
    if |blocks[i].value| >= 8 { SpellsIsParsed(blocks[i].value, chainID); }
    FilledOnce(r, n, ());
    forall k | 0 <= k < n && r.labels[k].Fill? && blocks[k].None? ensures r.states[k + 1].cells == r.states[k].cells {
      assert StepAt(r, k) && JudgedAt(r.labels[k], blocks[k], chainID);
    }
  }

  /** The last call of t before n is the one that filled the cell at step i. */
  ghost predicate FilledBy(r: Run<(), Verdict>, i: nat, n: nat, t: Tid) {
    i < n <= |r.labels| && r.labels[i].t == t && forall k :: i < k < n ==> r.labels[k] != Call(t, ())
  }

  /** After a fill there is no other. */
  lemma OnlyFill(r: Run<(), Verdict>, blocks: seq<Option<string>>, chainID: int, i: nat, k: nat)
    requires IsRun(r) && Judged(r, blocks, chainID) && i < |r.labels| && r.labels[i].Fill? && blocks[i].Some?
    requires i < k < |r.labels|
    ensures !r.labels[k].Fill?
  {
    assert StepAt(r, i) && JudgedAt(r.labels[i], blocks[i], chainID);
    assert r.states[i].threads[r.labels[i].t].key == ();
    CellsNeverChange(r, i + 1, k, ());
    RunKeepsInv(r, k);
    assert StepAt(r, k) && ThreadOk(r.states[k], r.labels[k].t);
    assert r.labels[k].Fill? ==> r.states[k].threads[r.labels[k].t].key == ();
  }

  /** The gate is exact: only one call can fill the cell, and whoever finds a verdict finds that of
      the block which that call fetched.  It passes if and only if the block's id ends in the chain
      id, or is too short to be read and another call has filled the cell; the filling call panics
      if and only if the id is too short.  That passing means a match holds if and only if the id
      has eight characters or the call is the filling one. */
  lemma GateIsExact(r: Run<(), Verdict>, blocks: seq<Option<string>>, chainID: int, n: nat, t: Tid, i: nat)
    requires IsRun(r) && Judged(r, blocks, chainID) && i < n < |r.states| && r.labels[i].Fill? && blocks[i].Some?
    requires t in r.states[n].threads && r.states[n].threads[t].Returned? && r.states[n].threads[t].got.Some?
    ensures r.states[n].threads[t].got == Some(Judge(blocks[i].value, chainID))
    ensures forall k :: i < k < |r.labels| ==> !r.labels[k].Fill?
    ensures var blockId, filling := blocks[i].value, FilledBy(r, i, n, t);
            var outcome := OutcomeOf(r.states[n].threads[t].got.value, filling);
            && (outcome == Passed <==> Spells(blockId, chainID) || (|blockId| < 8 && !filling))
            && (outcome == Panicked <==> |blockId| < 8 && filling)
            && ((outcome == Passed ==> Spells(blockId, chainID)) <==> |blockId| >= 8 || filling)
  {
    RunKeepsInv(r, n);
    assert ThreadOk(r.states[n], t) && r.states[n].threads[t].key == ();
    assert StepAt(r, i) && JudgedAt(r.labels[i], blocks[i], chainID);
    assert r.states[i].threads[r.labels[i].t].key == ();
    CellsNeverChange(r, i + 1, n, ());
    if |blocks[i].value| >= 8 { SpellsIsParsed(blocks[i].value, chainID); }
    forall k | i < k < |r.labels| ensures !r.labels[k].Fill? {
      OnlyFill(r, blocks, chainID, i, k);
    }
  }

  ghost predicate LastIs(r: Run<(), Verdict>, s: State<(), Verdict>) {
    IsRun(r) && r.states[|r.states| - 1] == s
  }

  lemma Extend(r: Run<(), Verdict>, l: Label<(), Verdict>) returns (r': Run<(), Verdict>)
    requires IsRun(r) && Enabled(r.states[|r.states| - 1], l)
    ensures LastIs(r', Next(r.states[|r.states| - 1], l))
    ensures r.labels <= r'.labels && |r'.labels| == |r.labels| + 1 && r'.labels[|r.labels|] == l
    ensures r.states <= r'.states
  {
    r' := Run(r.states + [Next(r.states[|r.states| - 1], l)], r.labels + [l]);
    forall i | 0 <= i < |r'.labels| ensures StepAt(r', i) {
      assert i < |r.labels| ==> StepAt(r, i);
    }
  }

  /** A thread that looks, finds nothing and fetches a block whose id gives this verdict. */
  lemma FillRun(verdict: Verdict) returns (r: Run<(), Verdict>)
    ensures LastIs(r, State(map[() := verdict], map[0 := Returned((), Some(verdict))], {}, None))
    ensures r.labels == [Call(0, ()), LockRead(0), Look(0), UnlockRead(0), LockWrite(0), LookAgain(0),
                         Fill(0, Some(verdict)), UnlockWrite(0)]
  {
    var start: State<(), Verdict> := State(map[], map[], {}, None);
    r := Run([start], []);
    r := Extend(r, Call(0, ()));
    r := Extend(r, LockRead(0));
    assert LastIs(r, State(map[], map[0 := Reading(())], {0}, None));
    r := Extend(r, Look(0));
    r := Extend(r, UnlockRead(0));
    assert LastIs(r, State(map[], map[0 := Missed(())], {}, None));
    r := Extend(r, LockWrite(0));
    r := Extend(r, LookAgain(0));
    assert LastIs(r, State(map[], map[0 := Filling(())], {}, Some(0)));
    r := Extend(r, Fill(0, Some(verdict)));
    r := Extend(r, UnlockWrite(0));
  }

  /** A block id of fewer than eight characters opens the gate, whatever chain id is configured: a
      run in which one thread fetches such a block and panics, and another passes after it. */
  lemma ShortIdOpensGate(blockId: string, chainID: int) returns (r: Run<(), Verdict>, blocks: seq<Option<string>>)
    requires |blockId| < 8
    ensures IsRun(r) && Judged(r, blocks, chainID)
    ensures |r.labels| == |blocks| == 12 && r.labels[6] == Fill(0, Some(TooShort)) && blocks[6] == Some(blockId)
    ensures var s := r.states[|r.states| - 1];
            && 0 in s.threads && s.threads[0] == Returned((), Some(TooShort))
            && 1 in s.threads && s.threads[1] == Returned((), Some(TooShort))
            && OutcomeOf(TooShort, FilledBy(r, 6, 12, 0)) == Panicked
            && OutcomeOf(TooShort, FilledBy(r, 6, 12, 1)) == Passed
  {
    r := FillRun(TooShort);
    r := Extend(r, Call(1, ()));
    r := Extend(r, LockRead(1));
    r := Extend(r, Look(1));
    r := Extend(r, UnlockRead(1));
    blocks := seq(|r.labels|, _ => Some(blockId));
    assert Judge(blockId, chainID) == TooShort;
    forall i | 0 <= i < |r.labels| ensures JudgedAt(r.labels[i], blocks[i], chainID) {
      assert r.labels[i].Fill? ==> i == 6;
    }
  }
}
