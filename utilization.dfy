// How full a committed pallet is, and the "last pallet underutilized"
// warning (PalletizationService::palletUtilization,
// buildUnderutilizedWarnings).
//
// The source divides floats and rounds to three decimals; here a ratio
// used/max is kept as the pair of integers and round(used/max, 3) becomes
// the number of thousandths rounded half up, computed exactly.

module Utilization {
  import opened Domain

  /** round(used / max, 3) in thousandths (half up; 0 when max is 0). */
  function RoundPermille(used: nat, max: nat): nat
  {
    if max > 0 then (2000 * used + max) / (2 * max) else 0
  }

  /** RoundPermille is the rounding of used/max to the nearest thousandth:
      r is within half a thousandth of 1000 * used / max, ties going up. */
  lemma {:induction false} RoundPermilleNearest(used: nat, max: nat)
    requires max > 0
    ensures var r := RoundPermille(used, max);
      (2 * r - 1) * max <= 2000 * used < (2 * r + 1) * max
  {
    var r := RoundPermille(used, max);
    var n := 2000 * used + max;
    assert r * (2 * max) <= n < r * (2 * max) + 2 * max;
    assert (2 * r - 1) * max == r * (2 * max) - max;
    assert (2 * r + 1) * max == r * (2 * max) + max;
  }

  lemma MulLe(x: int, y: int, k: int)
    requires x <= y && k >= 0
    ensures x * k <= y * k
  {}

  lemma MulLt(x: int, y: int, k: int)
    requires x < y && k > 0
    ensures x * k < y * k
  {}

  lemma MulCancel(x: int, y: int, k: int)
    requires k > 0 && x * k <= y * k
    ensures x <= y
  {
    if x > y { MulLt(y, x, k); }
  }

  /** A full pallet rounds to at most 1000 thousandths. */
  lemma {:induction false} RoundPermilleAtMost(used: nat, max: nat)
    requires used <= max
    ensures RoundPermille(used, max) <= 1000
  {
    if max > 0 {
      var r := RoundPermille(used, max);
      RoundPermilleNearest(used, max);
      MulLe(used, max, 2000);
      assert (2 * r - 1) * max <= 2000 * max;
      MulCancel(2 * r - 1, 2000, max);
    }
  }

  /** The rounded ratio is at most 25% exactly when the true ratio is below
      0.2505, i.e. when 2000 * used < 501 * max. */
  lemma {:induction false} RoundPermilleLowIff(used: nat, max: nat)
    ensures RoundPermille(used, max) <= 250 <==> max == 0 || 2000 * used < 501 * max
  {
    if max > 0 {
      var r := RoundPermille(used, max);
      RoundPermilleNearest(used, max);
      if r <= 250 {
        MulLe(2 * r + 1, 501, max);
      } else {
        MulLe(501, 2 * r - 1, max);
      }
    }
  }

  /** Rounding preserves the order of ratios: a/m <= b/n implies
      round(a/m) <= round(b/n). */
  lemma {:induction false} RoundPermilleMonotone(a: nat, m: nat, b: nat, n: nat)
    requires m > 0 && n > 0 && a * n <= b * m
    ensures RoundPermille(a, m) <= RoundPermille(b, n)
  {
    var r := RoundPermille(a, m);
    var s := RoundPermille(b, n);
    RoundPermilleNearest(a, m);
    RoundPermilleNearest(b, n);
    if r > s {
      // 2000 b < (2s+1) n <= (2r-1) n, and (2r-1) m <= 2000 a
      MulLe(2 * s + 1, 2 * r - 1, n);
      var x := (2 * r - 1) * n;
      MulLt(2000 * b, x, m);
      MulLe((2 * r - 1) * m, 2000 * a, n);
      MulLe(a * n, b * m, 2000);
      assert false;
    }
  }

  /** used/maxA is the larger of the two ratios (a zero budget gives 0). */
  predicate RatioAtLeast(usedA: nat, maxA: nat, usedB: nat, maxB: nat)
  {
    if maxB == 0 then true
    else if maxA == 0 then usedB == 0
    else usedB * maxA <= usedA * maxB
  }

  /** palletUtilization: the height and weight used, each as a rounded
      fraction of the pallet type's budget, and the rounded larger one. */
  function PalletUtil(p: Pallet, maxH: nat, maxW: nat): (r: Utilization)
    ensures r.permille == Max(r.heightPermille, r.weightPermille)
    ensures r.usedHeightCm == Max(0, maxH - p.heightLeftCm) && r.usedWeight == Max(0, maxW - p.weightLeft)
    ensures r.heightPermille == RoundPermille(r.usedHeightCm, maxH)
    ensures r.weightPermille == RoundPermille(r.usedWeight, maxW)
    ensures p.heightLeftCm >= 0 && p.weightLeft >= 0 ==> r.permille <= 1000
  {
    var usedH: nat := Max(0, maxH - p.heightLeftCm);
    var usedW: nat := Max(0, maxW - p.weightLeft);
    var hp := RoundPermille(usedH, maxH);
    var wp := RoundPermille(usedW, maxW);
    // u = max(uH, uW), then rounded
    var u := if RatioAtLeast(usedH, maxH, usedW, maxW) then hp else wp;
    LargerRatioRounds(usedH, maxH, usedW, maxW);
    if p.heightLeftCm >= 0 && p.weightLeft >= 0 then
      RoundPermilleAtMost(usedH, maxH);
      RoundPermilleAtMost(usedW, maxW);
      Utilization(u, hp, wp, usedH, usedW)
    else
      Utilization(u, hp, wp, usedH, usedW)
  }

  /** Rounding the larger ratio gives the larger of the rounded ratios. */
  lemma {:induction false} LargerRatioRounds(usedA: nat, maxA: nat, usedB: nat, maxB: nat)
    ensures RatioAtLeast(usedA, maxA, usedB, maxB) ==> RoundPermille(usedB, maxB) <= RoundPermille(usedA, maxA)
    ensures !RatioAtLeast(usedA, maxA, usedB, maxB) ==> RoundPermille(usedA, maxA) <= RoundPermille(usedB, maxB)
  {
    if maxA > 0 && maxB > 0 {
      if usedB * maxA <= usedA * maxB {
        RoundPermilleMonotone(usedB, maxB, usedA, maxA);
      } else {
        RoundPermilleMonotone(usedA, maxA, usedB, maxB);
      }
    }
  }

  const UnderutilizedKind := "underutilized_last_pallet"
  /** At or below this utilization (in thousandths) the last pallet is underused. */
  const LastPalletThreshold := 250
  /** At or below this many boxes the last pallet is underused. */
  const VeryLowBoxesThreshold := 8

  /** buildUnderutilizedWarnings: at most one warning, about the last pallet. */
  function UnderutilizedWarnings(pallets: seq<Pallet>, maxH: nat, maxW: nat): (r: seq<Warning>)
    ensures |r| <= 1
    ensures r != [] ==> r[0].kind == UnderutilizedKind && r[0].lastPalletIndex == |pallets|
  {
    if |pallets| == 0 then []
    else
      var last := pallets[|pallets| - 1];
      var u := PalletUtil(last, maxH, maxW);
      var boxes := last.load.Total();
      if u.permille <= LastPalletThreshold || boxes <= VeryLowBoxesThreshold then
        [Warning(UnderutilizedKind, |pallets|, u, boxes)]
      else []
  }

  /** The warning is raised exactly when the last pallet holds at most 8
      boxes or uses less than 25.05% of both its height and its weight. */
  lemma UnderutilizedIff(pallets: seq<Pallet>, maxH: nat, maxW: nat)
    requires pallets != []
    ensures var last := pallets[|pallets| - 1];
      var usedH: nat := Max(0, maxH - last.heightLeftCm);
      var usedW: nat := Max(0, maxW - last.weightLeft);
      UnderutilizedWarnings(pallets, maxH, maxW) != []
      <==> last.load.Total() <= 8
           || ((maxH == 0 || 2000 * usedH < 501 * maxH) && (maxW == 0 || 2000 * usedW < 501 * maxW))
  {
    var last := pallets[|pallets| - 1];
    var u := PalletUtil(last, maxH, maxW);
    RoundPermilleLowIff(u.usedHeightCm, maxH);
    RoundPermilleLowIff(u.usedWeight, maxW);
  }

  /** The per-pallet utilization metrics, numbered from 1. */
  function Utilizations(pallets: seq<Pallet>, maxH: nat, maxW: nat): (r: seq<PalletUtilization>)
    ensures |r| == |pallets|
    ensures forall i :: 0 <= i < |r| ==> r[i] == PalletUtilization(i + 1, PalletUtil(pallets[i], maxH, maxW))
  {
    if pallets == [] then []
    else Utilizations(pallets[..|pallets| - 1], maxH, maxW)
         + [PalletUtilization(|pallets|, PalletUtil(pallets[|pallets| - 1], maxH, maxW))]
  }

  /** The metrics loop of simulatePackingForPalletType. */
  method UtilizationsOf(pallets: seq<Pallet>, maxH: nat, maxW: nat) returns (r: seq<PalletUtilization>)
    ensures r == Utilizations(pallets, maxH, maxW)
  {
    r := [];
    for i := 0 to |pallets|
      invariant r == Utilizations(pallets[..i], maxH, maxW)
    {
      assert pallets[..i + 1][..i] == pallets[..i];
      r := r + [PalletUtilization(i + 1, PalletUtil(pallets[i], maxH, maxW))];
    }
    assert pallets[..|pallets|] == pallets;
  }
}
