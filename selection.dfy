// Plan candidates, their ordering by total price, and the near-optimal
// recommendations (PalletizationService::hasWarning, buildRecommendations,
// and the usort calls of calculateBestPlan).

module Selection {
  import opened Domain
  import opened Utilization

  /** Extra figures a candidate carries: the utilizations of a one-type
      plan, or the split of a two-type plan. */
  datatype Metrics =
    | PackingMetrics(utilizations: seq<PalletUtilization>)
    | MixMetrics(codeA: string, countA: nat, codeB: string, countB: nat, costA: int, costB: int)

  /** A plan candidate; prices in cents, no price per pallet for a mix. */
  datatype Candidate = Candidate(
    code: string,
    palletCount: nat,
    pricePerPallet: Option<int>,
    totalPrice: int,
    pallets: seq<Pallet>,
    metrics: Metrics,
    warnings: seq<Warning>)

  // ---------------------------------------------------------------------
  // Ordering by total price (usort on total_price; PHP's sort is stable)

  predicate SortedByPrice(s: seq<Candidate>)
  {
    forall i, j :: 0 <= i < j < |s| ==> s[i].totalPrice <= s[j].totalPrice
  }

  /** Insert x into a sorted sequence after every candidate no dearer than it. */
  function InsertByPrice(x: Candidate, s: seq<Candidate>): (r: seq<Candidate>)
    requires SortedByPrice(s)
    ensures SortedByPrice(r)
    ensures multiset(r) == multiset(s) + multiset{x}
    ensures |r| == |s| + 1
    ensures r[0] == x || (s != [] && r[0] == s[0])
  {
    if s == [] then [x]
    else if x.totalPrice < s[0].totalPrice then [x] + s
    else
      var rest := InsertByPrice(x, s[1..]);
      assert s == [s[0]] + s[1..];
      assert rest[0].totalPrice >= s[0].totalPrice;
      [s[0]] + rest
  }

  /** The stable sort by total price. */
  function SortByPrice(s: seq<Candidate>): (r: seq<Candidate>)
    ensures SortedByPrice(r)
    ensures multiset(r) == multiset(s)
    ensures |r| == |s|
  {
    if s == [] then []
    else
      assert s == s[..|s| - 1] + [s[|s| - 1]];
      InsertByPrice(s[|s| - 1], SortByPrice(s[..|s| - 1]))
  }

  /** Index of the first candidate of least total price. */
  function FirstCheapest(s: seq<Candidate>): (i: nat)
    requires s != []
    ensures i < |s|
    ensures forall j :: 0 <= j < |s| ==> s[i].totalPrice <= s[j].totalPrice
    ensures forall j :: 0 <= j < i ==> s[j].totalPrice > s[i].totalPrice
  {
    if |s| == 1 then 0
    else
      var k := FirstCheapest(s[..|s| - 1]);
      if s[|s| - 1].totalPrice < s[k].totalPrice then |s| - 1 else k
  }

  /** Stability where it matters: the sorted sequence starts with the first
      cheapest candidate in the original order. */
  lemma {:induction false} SortByPriceHead(s: seq<Candidate>)
    requires s != []
    ensures SortByPrice(s)[0] == s[FirstCheapest(s)]
  {
    var init := s[..|s| - 1];
    var last := s[|s| - 1];
    if init != [] {
      SortByPriceHead(init);
      var sorted := SortByPrice(init);
      assert sorted[0] == init[FirstCheapest(init)];
    }
  }

  /** The candidates of s whose total price is p, in their order in s. */
  function OfPrice(s: seq<Candidate>, p: int): seq<Candidate>
  {
    if s == [] then []
    else (if s[0].totalPrice == p then [s[0]] else []) + OfPrice(s[1..], p)
  }

  lemma OfPriceCons(x: Candidate, s: seq<Candidate>, p: int)
    ensures OfPrice([x] + s, p) == (if x.totalPrice == p then [x] else []) + OfPrice(s, p)
  {
    var t := [x] + s;
    assert t[0] == x && t[1..] == s;
  }

  lemma {:induction false} OfPriceAppend(a: seq<Candidate>, b: seq<Candidate>, p: int)
    ensures OfPrice(a + b, p) == OfPrice(a, p) + OfPrice(b, p)
  {
    if a == [] {
      assert a + b == b;
    } else {
      assert a == [a[0]] + a[1..];
      assert a + b == [a[0]] + (a[1..] + b);
      OfPriceCons(a[0], a[1..] + b, p);
      OfPriceCons(a[0], a[1..], p);
      OfPriceAppend(a[1..], b, p);
    }
  }

  /** A sequence whose candidates all cost more than p has none of price p. */
  lemma {:induction false} OfPriceAbove(s: seq<Candidate>, p: int)
    requires forall i :: 0 <= i < |s| ==> s[i].totalPrice > p
    ensures OfPrice(s, p) == []
  {
    if s != [] {
      OfPriceAbove(s[1..], p);
    }
  }

  /** A candidate cheaper than the whole sorted s goes in front of it, and
      after its own price's (none) there. */
  lemma InsertFrontOfPrice(x: Candidate, s: seq<Candidate>, p: int)
    requires SortedByPrice(s) && s != [] && x.totalPrice < s[0].totalPrice
    ensures OfPrice([x] + s, p) == OfPrice(s, p) + (if x.totalPrice == p then [x] else [])
  {
    OfPriceCons(x, s, p);
    if x.totalPrice == p {
      OfPriceAbove(s, p);
    }
  }

  /** Inserting x puts it after every candidate of its price already there. */
  lemma {:induction false} InsertOfPrice(x: Candidate, s: seq<Candidate>, p: int)
    requires SortedByPrice(s)
    ensures OfPrice(InsertByPrice(x, s), p) == OfPrice(s, p) + (if x.totalPrice == p then [x] else [])
  {
    if s == [] {
      OfPriceCons(x, [], p);
      assert [x] + [] == [x];
    } else if x.totalPrice < s[0].totalPrice {
      InsertFrontOfPrice(x, s, p);
    } else {
      OfPriceCons(s[0], InsertByPrice(x, s[1..]), p);
      InsertOfPrice(x, s[1..], p);
    }
  }

  /** The sort is stable: the candidates of each price keep their original
      order. */
  lemma {:induction false} SortByPriceStable(s: seq<Candidate>, p: int)
    ensures OfPrice(SortByPrice(s), p) == OfPrice(s, p)
  {
    if s != [] {
      var init := s[..|s| - 1];
      var last := s[|s| - 1];
      assert s == init + [last];
      SortByPriceStable(init, p);
      InsertOfPrice(last, SortByPrice(init), p);
      OfPriceAppend(init, [last], p);
      OfPriceCons(last, [], p);
      assert [last] + [] == [last];
    }
  }

  // ---------------------------------------------------------------------
  // Warnings and recommendations

  /** hasWarning: some warning of the candidate has the given kind. */
  function HasWarning(ws: seq<Warning>, kind: string): (r: bool)
    ensures r <==> exists i :: 0 <= i < |ws| && ws[i].kind == kind
  {
    if ws == [] then false
    else ws[0].kind == kind || HasWarning(ws[1..], kind)
  }

  /** An alternative may be dearer than the best by at most this percentage. */
  const MaxDeltaPercent := 3

  /** A near-optimal alternative as buildRecommendations reports it; the
      flags are the two reasons the message gives. */
  datatype Recommendation = Recommendation(
    deltaBasisPoints: int,
    bestTotal: int,
    altTotal: int,
    altCode: string,
    altPalletCount: nat,
    improvesPalletCount: bool,
    removesUnderutilized: bool)

  /** round(100 * (alt - best) / best, 2) in hundredths of a percent,
      halves rounded away from zero. */
  function DeltaBasisPoints(best: int, alt: int): int
    requires best > 0
  {
    var num := 10000 * (alt - best);
    if num >= 0 then (2 * num + best) / (2 * best)
    else -((2 * -num + best) / (2 * best))
  }

  /** The delta is the nearest hundredth of a percent to the true ratio. */
  lemma {:induction false} DeltaBasisPointsNearest(best: int, alt: int)
    requires best > 0
    ensures var d := DeltaBasisPoints(best, alt);
      -best <= 2 * d * best - 20000 * (alt - best) <= best
  {
    var num := 10000 * (alt - best);
    var n := if num >= 0 then num else -num;
    var q := (2 * n + best) / (2 * best);
    assert q * (2 * best) <= 2 * n + best < q * (2 * best) + 2 * best;
    assert 2 * q * best == q * (2 * best);
  }

  /** The price test of buildRecommendations, exact on cents: the relative
      difference (alt - best) / best is at least -0.00001 and at most 3%. */
  predicate WithinBand(best: int, alt: int)
  {
    !(100000 * (alt - best) < -best) && !(100 * (alt - best) > MaxDeltaPercent * best)
  }

  /** The recommendation for one alternative, when it qualifies. */
  function RecommendationFor(best: Candidate, alt: Candidate): (r: Option<Recommendation>)
    requires best.totalPrice > 0
  {
    if alt.totalPrice <= 0 then None
    else if !WithinBand(best.totalPrice, alt.totalPrice) then None
    else
      var improves := alt.palletCount > 0 && alt.palletCount < best.palletCount;
      var removes := HasWarning(best.warnings, UnderutilizedKind) && !HasWarning(alt.warnings, UnderutilizedKind);
      if improves || removes then
        Some(Recommendation(DeltaBasisPoints(best.totalPrice, alt.totalPrice), best.totalPrice, alt.totalPrice,
                            alt.code, alt.palletCount, improves, removes))
      else None
  }

  /** The condition under which buildRecommendations reports an alternative:
      a positive price within the band above the best, and either fewer (but
      some) pallets or no last-pallet warning where the best has one. */
  predicate Qualifies(best: Candidate, alt: Candidate)
  {
    best.totalPrice > 0 && alt.totalPrice > 0
    && -best.totalPrice <= 100000 * (alt.totalPrice - best.totalPrice)
    && 100 * (alt.totalPrice - best.totalPrice) <= 3 * best.totalPrice
    && ((0 < alt.palletCount < best.palletCount)
        || ((exists i :: 0 <= i < |best.warnings| && best.warnings[i].kind == UnderutilizedKind)
            && forall i :: 0 <= i < |alt.warnings| ==> alt.warnings[i].kind != UnderutilizedKind))
  }

  lemma RecommendationForIff(best: Candidate, alt: Candidate)
    requires best.totalPrice > 0
    ensures RecommendationFor(best, alt).Some? <==> Qualifies(best, alt)
    ensures RecommendationFor(best, alt).Some? ==>
              var r := RecommendationFor(best, alt).value;
              r.altTotal == alt.totalPrice && r.bestTotal == best.totalPrice && r.altCode == alt.code
              && r.altPalletCount == alt.palletCount && (r.improvesPalletCount || r.removesUnderutilized)
              && -best.totalPrice <= 20000 * (alt.totalPrice - best.totalPrice) - 2 * r.deltaBasisPoints * best.totalPrice <= best.totalPrice
  {
    if RecommendationFor(best, alt).Some? {
      DeltaBasisPointsNearest(best.totalPrice, alt.totalPrice);
    }
  }

  /** buildRecommendations: one recommendation per qualifying alternative,
      in order; none when the best is free. */
  function Recommendations(best: Candidate, alts: seq<Candidate>): (r: seq<Recommendation>)
    ensures |r| <= |alts|
  {
    if best.totalPrice <= 0 || alts == [] then []
    else
      var init := Recommendations(best, alts[..|alts| - 1]);
      match RecommendationFor(best, alts[|alts| - 1])
      case None => init
      case Some(rec) => init + [rec]
  }

  /** Every recommendation comes from a qualifying alternative. */
  lemma {:induction false} RecommendationsSound(best: Candidate, alts: seq<Candidate>)
    ensures forall r :: r in Recommendations(best, alts) ==>
              exists a :: a in alts && Qualifies(best, a) && RecommendationFor(best, a) == Some(r)
  {
    if best.totalPrice > 0 && alts != [] {
      var init := alts[..|alts| - 1];
      var last := alts[|alts| - 1];
      RecommendationsSound(best, init);
      RecommendationForIff(best, last);
      assert forall a :: a in init ==> a in alts;
      forall a | a in alts
        ensures RecommendationFor(best, a).Some? ==> Qualifies(best, a)
      {
        RecommendationForIff(best, a);
      }
    }
  }

  /** Every qualifying alternative is recommended. */
  lemma {:induction false} RecommendationsComplete(best: Candidate, alts: seq<Candidate>)
    ensures forall a :: a in alts && Qualifies(best, a) ==>
              RecommendationFor(best, a).Some? && RecommendationFor(best, a).value in Recommendations(best, alts)
  {
    if best.totalPrice > 0 && alts != [] {
      var init := alts[..|alts| - 1];
      var last := alts[|alts| - 1];
      RecommendationsComplete(best, init);
      assert alts == init + [last];
      forall a | a in alts && Qualifies(best, a)
        ensures RecommendationFor(best, a).Some? && RecommendationFor(best, a).value in Recommendations(best, alts)
      {
        RecommendationForIff(best, a);
        if a != last {
          assert a in init;
        }
      }
    } else if best.totalPrice <= 0 {
      assert forall a :: !Qualifies(best, a);
    }
  }

  /** The recommendation loop of buildRecommendations. */
  method BuildRecommendations(best: Candidate, alts: seq<Candidate>) returns (recs: seq<Recommendation>)
    ensures recs == Recommendations(best, alts)
  {
    recs := [];
    if best.totalPrice <= 0 { return; }
    for k := 0 to |alts|
      invariant recs == Recommendations(best, alts[..k])
    {
      assert alts[..k + 1][..k] == alts[..k];
      var alt := alts[k];
      if alt.totalPrice <= 0 { continue; }
      // only alternatives at most slightly cheaper (rounding) or up to 3% dearer
      if 100000 * (alt.totalPrice - best.totalPrice) < -best.totalPrice { continue; }
      if 100 * (alt.totalPrice - best.totalPrice) > MaxDeltaPercent * best.totalPrice { continue; }
      var improvesPalletCount := alt.palletCount > 0 && alt.palletCount < best.palletCount;
      var removesUnderutilized := HasWarning(best.warnings, UnderutilizedKind)
                                  && !HasWarning(alt.warnings, UnderutilizedKind);
      if improvesPalletCount || removesUnderutilized {
        recs := recs + [Recommendation(DeltaBasisPoints(best.totalPrice, alt.totalPrice), best.totalPrice,
                                       alt.totalPrice, alt.code, alt.palletCount, improvesPalletCount,
                                       removesUnderutilized)];
      }
    }
    assert alts[..|alts|] == alts;
  }
}
