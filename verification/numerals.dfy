/** Positional numerals, most significant digit first. */
module Numerals {

  function Pow(b: nat, k: nat): nat {
    if k == 0 then 1 else b * Pow(b, k - 1)
  }

  predicate Fits(ds: seq<nat>, b: nat) {
    forall i :: 0 <= i < |ds| ==> ds[i] < b
  }

  /** The number the digits stand for in base b. */
  function Num(ds: seq<nat>, b: nat): nat {
    if ds == [] then 0 else Num(ds[..|ds| - 1], b) * b + ds[|ds| - 1]
  }

  lemma DivMod(n: nat, b: nat)
    requires b > 0
    ensures n == n / b * b + n % b && n % b < b
  {
  }

  lemma DivShrinks(n: nat, b: nat)
    requires n > 0 && b >= 2
    ensures n / b < n
  {
  }

  /** The digits of n in base b, without leading zeros. */
  function Rep(n: nat, b: nat): (ds: seq<nat>)
    requires b >= 2
    ensures Fits(ds, b) && (ds != [] ==> ds[0] != 0) && (ds == [] <==> n == 0)
  {
    if n == 0 then []
    else
      DivShrinks(n, b);
      DivMod(n, b);
      Rep(n / b, b) + [n % b]
  }

  lemma {:induction false} NumOfRep(n: nat, b: nat)
    requires b >= 2
    ensures Num(Rep(n, b), b) == n
  {
    if n > 0 {
      DivShrinks(n, b);
      DivMod(n, b);
      NumOfRep(n / b, b);
      assert Rep(n, b)[..|Rep(n, b)| - 1] == Rep(n / b, b);
    }
  }

  function Zeros(k: nat): seq<nat> {
    seq(k, _ => 0)
  }

  function LeadingZeros(ds: seq<nat>): (z: nat)
    ensures z <= |ds| && (z < |ds| ==> ds[z] != 0) && forall i :: 0 <= i < z ==> ds[i] == 0
  {
    if ds == [] || ds[0] != 0 then 0 else 1 + LeadingZeros(ds[1..])
  }

  /** The digits in base c of the number with digits ds in base b, with as many leading zeros. */
  function ChangeBase(ds: seq<nat>, b: nat, c: nat): (r: seq<nat>)
    requires c >= 2
    ensures Fits(r, c)
  {
    Zeros(LeadingZeros(ds)) + Rep(Num(ds, b), c)
  }

  lemma Scale(x: nat, y: nat, b: nat)
    requires x <= y
    ensures x * b <= y * b
  {
  }

  lemma Reassociate(x: nat, y: nat, z: nat)
    ensures x * (y * z) == x * z * y
  {
  }

  lemma Quotient(n: nat, lo: nat, hi: nat, b: nat)
    requires b > 0 && lo * b <= n < hi * b
    ensures lo <= n / b < hi
  {
    DivMod(n, b);
    if n / b < lo { Scale(n / b + 1, lo, b); }
    if n / b >= hi { Scale(hi, n / b, b); }
  }

  lemma DigitsAreUnique(n: nat, m: nat, d: nat, b: nat)
    requires d < b && n == m * b + d
    ensures n / b == m && n % b == d
  {
    assert (m + 1) * b == m * b + b;
    Quotient(n, m, m + 1, b);
    DivMod(n, b);
  }

  lemma {:induction false} RepOfNum(ds: seq<nat>, b: nat)
    requires b >= 2 && Fits(ds, b) && (ds != [] ==> ds[0] != 0)
    ensures Rep(Num(ds, b), b) == ds
  {
    if ds != [] {
      var front := ds[..|ds| - 1];
      RepOfNum(front, b);
      DigitsAreUnique(Num(ds, b), Num(front, b), ds[|ds| - 1], b);
      assert ds == front + [ds[|ds| - 1]];
    }
  }

  lemma {:induction false} NumSkipsZeros(z: nat, ds: seq<nat>, b: nat)
    ensures Num(Zeros(z) + ds, b) == Num(ds, b)
  {
    var all := Zeros(z) + ds;
    if ds != [] {
      assert all[..|all| - 1] == Zeros(z) + ds[..|ds| - 1];
      NumSkipsZeros(z, ds[..|ds| - 1], b);
    } else if z > 0 {
      assert all == Zeros(z);
      assert all[..|all| - 1] == Zeros(z - 1) + ds;
      NumSkipsZeros(z - 1, ds, b);
    }
  }

  lemma ZerosAreCounted(z: nat, ds: seq<nat>)
    requires ds != [] ==> ds[0] != 0
    ensures LeadingZeros(Zeros(z) + ds) == z
  {
    var all := Zeros(z) + ds;
    var y := LeadingZeros(all);
    assert forall i :: 0 <= i < z ==> all[i] == 0;
    if z < |all| { assert all[z] == ds[0]; }
  }

  /** Changing the base and back gives the same digits, leading zeros included. */
  lemma ChangeBack(ds: seq<nat>, b: nat, c: nat)
    requires b >= 2 && c >= 2 && Fits(ds, b)
    ensures ChangeBase(ChangeBase(ds, b, c), c, b) == ds
  {
    var z := LeadingZeros(ds);
    var rest := ds[z..];
    assert ds == Zeros(z) + rest;
    NumSkipsZeros(z, rest, b);
    NumSkipsZeros(z, Rep(Num(rest, b), c), c);
    ZerosAreCounted(z, Rep(Num(rest, b), c));
    NumOfRep(Num(rest, b), c);
    RepOfNum(rest, b);
  }

  lemma NextPower(x: nat, b: nat, k: nat)
    ensures x * Pow(b, k + 1) == x * Pow(b, k) * b
  {
    Reassociate(x, b, Pow(b, k));
  }

  lemma AppendBounds(lo: nat, n: nat, hi: nat, d: nat, b: nat)
    requires lo <= n < hi && d < b
    ensures lo * b <= n * b + d < hi * b
  {
    Scale(lo, n, b);
    Scale(n + 1, hi, b);
    assert (n + 1) * b == n * b + b;
  }

  lemma {:induction false} NumBounds(ds: seq<nat>, b: nat)
    requires ds != [] && Fits(ds, b)
    ensures ds[0] * Pow(b, |ds| - 1) <= Num(ds, b) < (ds[0] + 1) * Pow(b, |ds| - 1)
  {
    var front, last := ds[..|ds| - 1], ds[|ds| - 1];
    if front != [] {
      NumBounds(front, b);
      var p := Pow(b, |front| - 1);
      AppendBounds(ds[0] * p, Num(front, b), (ds[0] + 1) * p, last, b);
      NextPower(ds[0], b, |front| - 1);
      NextPower(ds[0] + 1, b, |front| - 1);
    }
  }

  lemma LastDigit(n: nat, b: nat)
    requires b >= 2 && n / b > 0
    ensures Rep(n, b) == Rep(n / b, b) + [n % b]
  {
    DigitsAreUnique(0, 0, 0, b);
  }

  lemma OneDigit(n: nat, b: nat)
    requires 0 < n < b
    ensures Rep(n, b) == [n]
  {
    DigitsAreUnique(n, 0, n, b);
  }

  lemma LeadingStep(n: nat, b: nat, d: nat, k: nat)
    requires b > 0 && d * Pow(b, k + 1) <= n < (d + 1) * Pow(b, k + 1)
    ensures d * Pow(b, k) <= n / b < (d + 1) * Pow(b, k)
  {
    NextPower(d, b, k);
    NextPower(d + 1, b, k);
    Quotient(n, d * Pow(b, k), (d + 1) * Pow(b, k), b);
  }

  predicate LeadsWith(ds: seq<nat>, d: nat, k: nat) {
    |ds| == k + 1 && ds[0] == d
  }

  lemma LeadsOn(n: nat, m: nat, b: nat, d: nat, k: nat)
    requires b >= 2 && m == n / b && LeadsWith(Rep(m, b), d, k)
    ensures LeadsWith(Rep(n, b), d, k + 1)
  {
    LastDigit(n, b);
  }

  /** A number between d and d + 1 times the k-th power of the base has k + 1 digits, the first d. */
  lemma {:induction false} LeadingDigit(n: nat, b: nat, d: nat, k: nat)
    requires 0 < d < b && d * Pow(b, k) <= n < (d + 1) * Pow(b, k)
    ensures LeadsWith(Rep(n, b), d, k)
    decreases k
  {
    if k == 0 {
      assert d * Pow(b, 0) == d && (d + 1) * Pow(b, 0) == d + 1;
      OneDigit(n, b);
    } else {
      LeadingStep(n, b, d, k - 1);
      var m := n / b;
      LeadingDigit(m, b, d, k - 1);
      LeadsOn(n, m, b, d, k - 1);
    }
  }

  lemma {:induction false} RepLength(n: nat, b: nat, k: nat)
    requires b >= 2 && n < Pow(b, k)
    ensures |Rep(n, b)| <= k
    decreases k
  {
    if n > 0 {
      Quotient(n, 0, Pow(b, k - 1), b);
      RepLength(n / b, b, k - 1);
    }
  }
}
