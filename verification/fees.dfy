/** The fee limit of a transaction: the price of its energy, padded once per bump and once more. */
module Fees {

  import opened Options
  import opened EnergyPrices
  import opened Manager
  import opened ManagerRuns

  const DEFAULT_ENERGY_MULTIPLIER := 1.5

  /** setDefaults: a multiplier below one counts as unset. */
  function EnergyMultiplier(configured: real): real {
    if configured < 1.0 then DEFAULT_ENERGY_MULTIPLIER else configured
  }

  /** Conversion to a 32-bit integer keeps the low 32 bits. */
  function Wrap32(n: int): int32 {
    (n + 0x8000_0000) % 0x1_0000_0000 - 0x8000_0000
  }

  lemma WrapIsTruncation(n: int)
    ensures -0x8000_0000 <= Wrap32(n) <= 0x7fff_ffff && exists k: int :: n == Wrap32(n) + k * 0x1_0000_0000
  {
    var k := (n + 0x8000_0000) / 0x1_0000_0000;
    assert n == Wrap32(n) + k * 0x1_0000_0000;
  }

  function Pow(x: real, n: nat): real {
    if n == 0 then 1.0 else x * Pow(x, n - 1)
  }

  function Trunc(x: real): int {
    if x < 0.0 then -(-x).Floor else x.Floor
  }

  /** None where the float does not fit: what the conversion gives then is up to the platform. */
  function CalculatePaddedFeeLimit(feeLimit: int32, bumpTimes: nat, multiplier: real): Option<int32> {
    var padded := Trunc(feeLimit as real * Pow(multiplier, bumpTimes + 1));
    if -MAX_INT32 - 1 <= padded <= MAX_INT32 then Some(padded) else None
  }

  function CalculateFeeLimit(price: int32, energyUsed: int, bumpTimes: nat, multiplier: real): Option<int32> {
    CalculatePaddedFeeLimit(Wrap32(price * Wrap32(energyUsed)), bumpTimes, multiplier)
  }

  lemma {:induction false} PowGrows(x: real, i: nat, j: nat)
    requires x >= 1.0 && i <= j
    ensures 1.0 <= Pow(x, i) <= Pow(x, j)
  {
    if i < j {
      PowGrows(x, i, j - 1);
    } else if i > 0 {
      PowGrows(x, i - 1, i - 1);
    }
  }

  lemma MulGrows(a: real, x: real, y: real)
    requires 0.0 <= a && x <= y
    ensures a * x <= a * y
  {
  }

  /** The exact fee: price times energy, padded. */
  function Padded(price: int, energy: int, bumps: nat, multiplier: real): real {
    (price * energy) as real * Pow(multiplier, bumps + 1)
  }

  /** The fee at no bumps is price times energy times the multiplier, and each bump multiplies it once
      more; a multiplier below one is taken as 1.5. */
  lemma FeePerBump(price: int, energy: int, bumps: nat, configured: real)
    ensures var multiplier := if configured < 1.0 then 1.5 else configured;
            && EnergyMultiplier(configured) == multiplier
            && Padded(price, energy, 0, multiplier) == (price * energy) as real * multiplier
            && Padded(price, energy, bumps + 1, multiplier) == Padded(price, energy, bumps, multiplier) * multiplier
  {
    var multiplier := EnergyMultiplier(configured);
    assert Pow(multiplier, 1) == multiplier * Pow(multiplier, 0);
    Rearrange((price * energy) as real, multiplier, Pow(multiplier, bumps + 1));
  }

  lemma Rearrange(x: real, y: real, z: real)
    ensures x * (y * z) == x * z * y
  {
  }

  lemma PaddedGrows(price: nat, energy: nat, i: nat, j: nat, multiplier: real)
    requires multiplier >= 1.0 && i <= j
    ensures (price * energy) as real <= Padded(price, energy, i, multiplier) <= Padded(price, energy, j, multiplier)
  {
    PowGrows(multiplier, 0, i + 1);
    PowGrows(multiplier, i + 1, j + 1);
    MulGrows((price * energy) as real, 1.0, Pow(multiplier, i + 1));
    MulGrows((price * energy) as real, Pow(multiplier, i + 1), Pow(multiplier, j + 1));
  }

  lemma ProductDoesNotWrap(price: nat, energy: nat)
    requires price * energy <= MAX_INT32 && price <= MAX_INT32
    ensures Wrap32(price * Wrap32(energy)) == price * energy
  {
    if price > 0 {
      assert energy <= price * energy;
    }
  }

  lemma SmallFeeIsExact(price: int32, energy: nat, bumps: nat, multiplier: real)
    requires price >= 0 && multiplier >= 1.0
    requires Padded(price, energy, bumps, multiplier) < 0x8000_0000 as real
    ensures CalculateFeeLimit(price, energy, bumps, multiplier)
            == Some(Padded(price, energy, bumps, multiplier).Floor)
  {
    PaddedGrows(price, energy, bumps, bumps, multiplier);
    var padded := Padded(price, energy, bumps, multiplier);
    assert 0.0 <= (price * energy) as real <= padded;
    ProductDoesNotWrap(price, energy);
    assert Trunc(padded) == padded.Floor;
    assert 0 <= padded.Floor <= MAX_INT32;
    var feeLimit := Wrap32(price * Wrap32(energy));
    assert feeLimit == price * energy;
    assert feeLimit as real * Pow(multiplier, bumps + 1) == padded;
    assert CalculatePaddedFeeLimit(feeLimit, bumps, multiplier).value == padded.Floor;
  }

  /** For a multiplier of at least one, the fee limit is the exact fee rounded down at all of the
      given bumps if and only if the fee at the last of them fits 32 bits. */
  lemma FeeIsExactIffItFits(price: int32, energy: nat, bumps: nat, multiplier: real)
    requires price >= 0 && multiplier >= 1.0
    ensures (forall b: nat :: b <= bumps ==>
               CalculateFeeLimit(price, energy, b, multiplier) == Some(Padded(price, energy, b, multiplier).Floor))
            <==> Padded(price, energy, bumps, multiplier) < 0x8000_0000 as real
  {
    if Padded(price, energy, bumps, multiplier) < 0x8000_0000 as real {
      forall b: nat | b <= bumps
        ensures CalculateFeeLimit(price, energy, b, multiplier) == Some(Padded(price, energy, b, multiplier).Floor)
      {
        PaddedGrows(price, energy, b, bumps, multiplier);
        SmallFeeIsExact(price, energy, b, multiplier);
      }
    }
  }

  /** In every state of every run, whatever counters the retries have left: if the exact fee at four
      bumps fits 32 bits, the fee limit of every transaction is exact, no less than the price of its
      energy, and no less than it was at any lower number of bumps. */
  lemma FeesAreSafe(r: Run, n: nat, x: Ref, price: int32, energy: nat, configured: real)
    requires IsRun(r) && n <= |r.labels| && x in r.states[n].heap
    requires price >= 0
    requires Padded(price, energy, 4, EnergyMultiplier(configured)) < 0x8000_0000 as real
    ensures var multiplier, bumps := EnergyMultiplier(configured), r.states[n].heap[x].bumps;
            var fee := CalculateFeeLimit(price, energy, bumps, multiplier);
            && fee == Some(Padded(price, energy, bumps, multiplier).Floor)
            && fee.value >= price * energy
            && forall b: nat :: b <= bumps ==>
                 && CalculateFeeLimit(price, energy, b, multiplier).Some?
                 && CalculateFeeLimit(price, energy, b, multiplier).value <= fee.value
  {
    var multiplier, bumps := EnergyMultiplier(configured), r.states[n].heap[x].bumps;
    CountersAreBounded(r, n, x);
    FeeIsExactIffItFits(price, energy, 4, multiplier);
    forall b: nat | b <= bumps
      ensures Padded(price, energy, b, multiplier) <= Padded(price, energy, bumps, multiplier)
      ensures (price * energy) as real <= Padded(price, energy, b, multiplier)
    {
      PaddedGrows(price, energy, b, bumps, multiplier);
    }
    assert CalculateFeeLimit(price, energy, bumps, multiplier) == Some(Padded(price, energy, bumps, multiplier).Floor);
  }
}
