// The plan search of PalletizationService::calculateBestPlan: one candidate
// per pallet type that can carry the whole order, then two-type mixes of the
// cheapest types, then the cheapest candidate, the next alternatives and the
// recommendations. The database tables it reads (box_types, pallet_types in
// id order, rates) are inputs.

module Planner {
  import opened Domain
  import opened Packer
  import opened Rates
  import opened Selection

  /** How many of the cheapest one-type plans' pallet types are mixed. */
  const MaxTypesForMixing := 3
  /** Each type of a mix is tried with 1 up to this many pallets. */
  const MaxPalletsPerTypeInMix := 3
  /** How many alternatives follow the best plan. */
  const MaxAlternatives := 5

  /** The fixed inputs of a search: the box types, the rates table, the
      destination zone and whether layers may mix heights. */
  datatype Env = Env(boxTypes: map<ItemType, BoxSpec>, rates: seq<RateTier>, zoneId: int, allowSeparators: bool)

  datatype PlanResult =
    | NoCandidates
    | Plan(best: Candidate, alternatives: seq<Candidate>, recommendations: seq<Recommendation>)

  // ---------------------------------------------------------------------
  // Which pallet types take part

  /** The pallet types whose code is listed, in their original order. */
  function WithCodes(pts: seq<PalletType>, codes: seq<string>): (r: seq<PalletType>)
    ensures forall p :: p in r <==> p in pts && p.code in codes
    ensures |r| <= |pts|
  {
    if pts == [] then []
    else
      var init := pts[..|pts| - 1];
      var last := pts[|pts| - 1];
      assert pts == init + [last];
      WithCodes(init, codes) + (if last.code in codes then [last] else [])
  }

  /** The allow-list filter: an empty list allows every pallet type. */
  function AllowedTypes(pts: seq<PalletType>, allowed: seq<string>): (r: seq<PalletType>)
    ensures forall p :: p in r <==> p in pts && (allowed == [] || p.code in allowed)
  {
    if |allowed| > 0 then WithCodes(pts, allowed) else pts
  }

  /** A single pallet type is kept exactly when its code is listed. */
  lemma WithCodesSingle(p: PalletType, codes: seq<string>)
    ensures WithCodes([p], codes) == if p.code in codes then [p] else []
  {
    assert [p][..0] == [];
  }

  /** The filter keeps order: filtering a concatenation is filtering each
      part (with WithCodesSingle this pins the result down). */
  lemma {:induction false} WithCodesAppend(a: seq<PalletType>, b: seq<PalletType>, codes: seq<string>)
    ensures WithCodes(a + b, codes) == WithCodes(a, codes) + WithCodes(b, codes)
    decreases |b|
  {
    if b == [] {
      assert a + b == a;
    } else {
      var init := b[..|b| - 1];
      var last := b[|b| - 1];
      var tail := if last.code in codes then [last] else [];
      assert (a + b)[..|a + b| - 1] == a + init && (a + b)[|a + b| - 1] == last;
      assert WithCodes(a + b, codes) == WithCodes(a + init, codes) + tail;
      assert WithCodes(b, codes) == WithCodes(init, codes) + tail;
      WithCodesAppend(a, init, codes);
    }
  }

  /** Pallet types are identified by their code. */
  ghost predicate CodesIdentify(pts: seq<PalletType>)
  {
    forall p, q :: p in pts && q in pts && p.code == q.code ==> p == q
  }

  // ---------------------------------------------------------------------
  // One-type candidates

  /** The candidate of one pallet type: its uncapped simulation, priced at
      the rate of its bracket; none when it builds no pallet or the type has
      no rate in the zone. */
  function MonoCandidate(env: Env, pt: PalletType, items: Counts): (r: Option<Candidate>)
    requires FootprintsDefined(env.boxTypes)
    ensures var sim := Simulate(pt, env.boxTypes, items, env.allowSeparators, None);
      r.None? <==> sim.palletCount == 0 || forall u :: u in env.rates ==> !ForType(u, env.zoneId, pt.id)
    ensures r.Some? ==>
              && r.value.code == pt.code
              && 1 <= r.value.palletCount == |r.value.pallets| <= MaxIterations
              && r.value.pricePerPallet.Some?
              && Some(r.value.totalPrice) == CostForPalletType(env.rates, env.zoneId, pt, r.value.palletCount)
              && r.value.pallets == Simulate(pt, env.boxTypes, items, env.allowSeparators, None).pallets
  {
    MonoOutcome(env, pt, Simulate(pt, env.boxTypes, items, env.allowSeparators, None))
  }

  /** A one-type candidate carries its simulation's count, warnings and
      metrics, and is priced at the looked-up tier: the price per pallet is
      that tier's, the total that price times the count. */
  lemma MonoCandidatePriced(env: Env, pt: PalletType, items: Counts)
    requires FootprintsDefined(env.boxTypes)
    requires MonoCandidate(env, pt, items).Some?
    ensures var sim := Simulate(pt, env.boxTypes, items, env.allowSeparators, None);
      var c := MonoCandidate(env, pt, items).value;
      && c.palletCount == sim.palletCount
      && LookupRate(env.rates, env.zoneId, pt.id, sim.palletCount).Some?
      && c.pricePerPallet == Some(LookupRate(env.rates, env.zoneId, pt.id, sim.palletCount).value.priceCents)
      && c.totalPrice == c.pricePerPallet.value * c.palletCount
      && c.warnings == sim.warnings
      && c.metrics == PackingMetrics(sim.utilizations)
  {}

  /** The candidate entry of a one-type plan priced at pricePerPallet. */
  function MonoEntry(pt: PalletType, sim: SimResult, pricePerPallet: int): Candidate
  {
    Candidate(pt.code, sim.palletCount, Some(pricePerPallet), pricePerPallet * sim.palletCount,
              sim.pallets, PackingMetrics(sim.utilizations), sim.warnings)
  }

  /** The candidate of the simulation sim of pt, if it builds a pallet and pt
      has a rate. */
  function MonoOutcome(env: Env, pt: PalletType, sim: SimResult): (r: Option<Candidate>)
    ensures r.None? <==> sim.palletCount <= 0 || forall u :: u in env.rates ==> !ForType(u, env.zoneId, pt.id)
  {
    if sim.palletCount <= 0 then None
    else
      match LookupRate(env.rates, env.zoneId, pt.id, sim.palletCount)
      case None => None
      case Some(rate) => Some(MonoEntry(pt, sim, rate.priceCents))
  }

  /** The candidate ships exactly the order: its pallets carry every box of
      it, and its count is the number of its pallets. */
  predicate ShipsOrder(c: Candidate, items: Counts)
  {
    SumLoads(c.pallets) == items && c.palletCount == |c.pallets|
  }

  /** A one-type plan that stays under the simulation's guard ships exactly
      the order. */
  lemma MonoCandidateShipsOrder(env: Env, pt: PalletType, items: Counts)
    requires FootprintsDefined(env.boxTypes)
    requires MonoCandidate(env, pt, items).Some?
    requires MonoCandidate(env, pt, items).value.palletCount < MaxIterations
    ensures SumLoads(MonoCandidate(env, pt, items).value.pallets) == items
    ensures Simulate(pt, env.boxTypes, items, env.allowSeparators, None).error.None?
  {
    var sim := Simulate(pt, env.boxTypes, items, env.allowSeparators, None);
    TotalZero(sim.remaining);
    PlusZero(sim.packed);
  }

  function OptSeq(o: Option<Candidate>): seq<Candidate>
  {
    if o.Some? then [o.value] else []
  }

  /** The one-type candidates, in pallet type order. */
  function MonoCandidates(env: Env, pts: seq<PalletType>, items: Counts): (r: seq<Candidate>)
    requires FootprintsDefined(env.boxTypes)
    ensures |r| <= |pts|
  {
    if pts == [] then []
    else
      var init := pts[..|pts| - 1];
      var last := pts[|pts| - 1];
      MonoCandidates(env, init, items) + OptSeq(MonoCandidate(env, last, items))
  }

  /** There is no one-type candidate exactly when no pallet type has one. */
  lemma {:induction false} MonoCandidatesEmpty(env: Env, pts: seq<PalletType>, items: Counts)
    requires FootprintsDefined(env.boxTypes)
    ensures MonoCandidates(env, pts, items) == [] <==> forall p :: p in pts ==> MonoCandidate(env, p, items).None?
  {
    if pts != [] {
      var init := pts[..|pts| - 1];
      var last := pts[|pts| - 1];
      assert pts == init + [last];
      MonoCandidatesEmpty(env, init, items);
    }
  }

  /** Every one-type candidate is that of one of the pallet types. */
  lemma {:induction false} MonoCandidatesFrom(env: Env, pts: seq<PalletType>, items: Counts)
    requires FootprintsDefined(env.boxTypes)
    ensures forall c :: c in MonoCandidates(env, pts, items) ==>
              exists p :: p in pts && MonoCandidate(env, p, items) == Some(c)
  {
    if pts != [] {
      var init := pts[..|pts| - 1];
      var last := pts[|pts| - 1];
      MonoCandidatesFrom(env, init, items);
      forall c | c in MonoCandidates(env, pts, items)
        ensures exists p :: p in pts && MonoCandidate(env, p, items) == Some(c)
      {
        if c in MonoCandidates(env, init, items) {
          var p :| p in init && MonoCandidate(env, p, items) == Some(c);
          assert p in pts;
        } else {
          assert last in pts && MonoCandidate(env, last, items) == Some(c);
        }
      }
    }
  }

  /** Every pallet type with a one-type candidate contributes it. */
  lemma {:induction false} MonoCandidatesComplete(env: Env, pts: seq<PalletType>, items: Counts)
    requires FootprintsDefined(env.boxTypes)
    ensures forall p :: p in pts && MonoCandidate(env, p, items).Some? ==>
              MonoCandidate(env, p, items).value in MonoCandidates(env, pts, items)
  {
    if pts != [] {
      var init := pts[..|pts| - 1];
      var last := pts[|pts| - 1];
      assert pts == init + [last];
      MonoCandidatesComplete(env, init, items);
    }
  }

  // ---------------------------------------------------------------------
  // Two-type candidates

  /** The codes of cs, in order. */
  function CodesOf(cs: seq<Candidate>): (r: seq<string>)
    ensures |r| == |cs| && forall i :: 0 <= i < |cs| ==> r[i] == cs[i].code
  {
    if cs == [] then [] else CodesOf(cs[..|cs| - 1]) + [cs[|cs| - 1].code]
  }

  /** The distinct strings of s, each at its first occurrence. */
  function Dedup(s: seq<string>): (r: seq<string>)
    ensures forall x :: x in r <==> x in s
    ensures forall i, j :: 0 <= i < j < |r| ==> r[i] != r[j]
    ensures |r| <= |s|
  {
    if s == [] then []
    else
      var init := Dedup(s[..|s| - 1]);
      var last := s[|s| - 1];
      assert s == s[..|s| - 1] + [last];
      if last in init then init else init + [last]
  }

  /** The first three distinct codes of the one-type plans taken in
      ascending order of price: each code once, at its cheapest plan. */
  function MixCodes(monos: seq<Candidate>): (r: seq<string>)
    ensures |r| <= MaxTypesForMixing
    ensures forall i, j :: 0 <= i < j < |r| ==> r[i] != r[j]
    ensures forall x :: x in r ==> exists c :: c in monos && c.code == x
  {
    var codes := Dedup(CodesOf(SortByPrice(monos)));
    var r := codes[..Min(MaxTypesForMixing, |codes|)];
    forall x | x in r
      ensures exists c :: c in monos && c.code == x
    {
      var sorted := SortByPrice(monos);
      assert x in CodesOf(sorted);
      var i :| 0 <= i < |sorted| && CodesOf(sorted)[i] == x;
      assert sorted[i] in multiset(monos);
    }
    r
  }

  /** The position of the first occurrence of x in s. */
  function FirstIndex(s: seq<string>, x: string): (r: nat)
    requires x in s
    ensures r < |s| && s[r] == x && forall k :: 0 <= k < r ==> s[k] != x
  {
    if s[0] == x then 0 else 1 + FirstIndex(s[1..], x)
  }

  /** Appending to s does not move the first occurrence of anything in s. */
  lemma FirstIndexAppend(s: seq<string>, y: string, x: string)
    requires x in s
    ensures FirstIndex(s + [y], x) == FirstIndex(s, x)
  {
    var k := FirstIndex(s, x);
    assert (s + [y])[k] == x;
  }

  /** One step of DedupOrder: appending last to the input keeps the order
      of the first occurrences already kept, and a new last comes after them. */
  lemma DedupOrderStep(init: seq<string>, last: string, ri: seq<string>, i: nat, j: nat)
    requires forall x :: x in ri <==> x in init
    requires forall i, j :: 0 <= i < j < |ri| ==> FirstIndex(init, ri[i]) < FirstIndex(init, ri[j])
    requires var r := if last in ri then ri else ri + [last];
      i < j < |r|
    ensures var r := if last in ri then ri else ri + [last];
      FirstIndex(init + [last], r[i]) < FirstIndex(init + [last], r[j])
  {
    var r := if last in ri then ri else ri + [last];
    assert r[i] == ri[i] && ri[i] in init;
    FirstIndexAppend(init, last, ri[i]);
    if j < |ri| {
      assert r[j] == ri[j] && ri[j] in init;
      FirstIndexAppend(init, last, ri[j]);
    } else {
      assert r[j] == last && last !in init;
      assert (init + [last])[|init|] == last;
    }
  }

  /** Dedup keeps first occurrences in the order they appear. */
  lemma {:induction false} DedupOrder(s: seq<string>)
    ensures forall i, j :: 0 <= i < j < |Dedup(s)| ==> FirstIndex(s, Dedup(s)[i]) < FirstIndex(s, Dedup(s)[j])
  {
    if s != [] {
      var init := s[..|s| - 1];
      var last := s[|s| - 1];
      assert s == init + [last];
      var ri := Dedup(init);
      DedupOrder(init);
      forall i, j | 0 <= i < j < |Dedup(s)|
        ensures FirstIndex(s, Dedup(s)[i]) < FirstIndex(s, Dedup(s)[j])
      {
        DedupOrderStep(init, last, ri, i, j);
      }
    }
  }

  /** A sequence without repeats has as many elements as its set. */
  lemma {:induction false} DistinctCard(s: seq<string>)
    requires forall i, j :: 0 <= i < j < |s| ==> s[i] != s[j]
    ensures |set x | x in s| == |s|
  {
    if s != [] {
      var init := s[..|s| - 1];
      DistinctCard(init);
      assert s == init + [s[|s| - 1]];
      assert (set x | x in s) == (set x | x in init) + {s[|s| - 1]};
    }
  }

  /** The distinct codes of the sorted plans are the codes of the plans. */
  lemma SortedCodesSet(monos: seq<Candidate>)
    ensures (set x | x in Dedup(CodesOf(SortByPrice(monos)))) == (set c | c in monos :: c.code)
  {
    var sorted := SortByPrice(monos);
    PermutedCodes(sorted, monos);
  }

  /** A permutation of the plans has the same codes. */
  lemma PermutedCodes(sorted: seq<Candidate>, monos: seq<Candidate>)
    requires multiset(sorted) == multiset(monos)
    ensures (set x | x in Dedup(CodesOf(sorted))) == (set c | c in monos :: c.code)
  {
    var s := CodesOf(sorted);
    forall x | x in Dedup(s)
      ensures x in (set c | c in monos :: c.code)
    {
      var i :| 0 <= i < |s| && s[i] == x;
      assert sorted[i] in multiset(monos);
    }
    forall c | c in monos
      ensures c.code in Dedup(s)
    {
      assert c in multiset(sorted);
      var j :| 0 <= j < |sorted| && sorted[j] == c;
      assert s[j] == c.code;
    }
  }

  /** As many codes are mixed as there are distinct codes, up to three. */
  lemma MixCodesCount(monos: seq<Candidate>)
    ensures |MixCodes(monos)| == Min(MaxTypesForMixing, |set c | c in monos :: c.code|)
  {
    SortedCodesSet(monos);
    DistinctCard(Dedup(CodesOf(SortByPrice(monos))));
  }

  /** In a list sorted by price, a code kept among the first n distinct
      codes (taken in order of first occurrence) first occurs no later than
      any plan whose code was not kept. */
  lemma EarlierCodeCheaper(sorted: seq<Candidate>, s: seq<string>, codes: seq<string>, n: nat,
                           x: string, c: Candidate)
    requires SortedByPrice(sorted)
    requires |s| == |sorted| && forall i :: 0 <= i < |s| ==> s[i] == sorted[i].code
    requires forall y :: y in codes <==> y in s
    requires forall i, j :: 0 <= i < j < |codes| ==> FirstIndex(s, codes[i]) < FirstIndex(s, codes[j])
    requires n <= |codes| && x in codes[..n] && c in sorted && c.code !in codes[..n]
    ensures exists k :: 0 <= k < |sorted| && sorted[k].code == x && sorted[k].totalPrice <= c.totalPrice
  {
    var j :| 0 <= j < |sorted| && sorted[j] == c;
    assert s[j] == c.code && c.code in codes;
    var q :| 0 <= q < |codes| && codes[q] == c.code;
    var p :| 0 <= p < n && codes[p] == x;
    var k := FirstIndex(s, x);
    assert k < FirstIndex(s, c.code) <= j;
    assert sorted[k].code == x;
  }

  /** A mixed code belongs to a one-type plan no dearer than any plan whose
      code was left out. */
  lemma MixCodeCheaper(monos: seq<Candidate>, x: string, c: Candidate)
    requires x in MixCodes(monos) && c in monos && c.code !in MixCodes(monos)
    ensures exists m :: m in monos && m.code == x && m.totalPrice <= c.totalPrice
  {
    var sorted := SortByPrice(monos);
    var s := CodesOf(sorted);
    var codes := Dedup(s);
    DedupOrder(s);
    assert c in multiset(sorted);
    EarlierCodeCheaper(sorted, s, codes, Min(MaxTypesForMixing, |codes|), x, c);
    var k :| 0 <= k < |sorted| && sorted[k].code == x && sorted[k].totalPrice <= c.totalPrice;
    assert sorted[k] in multiset(monos);
  }

  /** The mixed codes are the cheapest distinct ones: as many as there are,
      up to three, each belonging to a one-type plan no dearer than any plan
      whose code was left out. */
  lemma MixCodesCheapest(monos: seq<Candidate>)
    ensures var r := MixCodes(monos);
      && |r| == Min(MaxTypesForMixing, |set c | c in monos :: c.code|)
      && forall x, c :: x in r && c in monos && c.code !in r ==>
           exists m :: m in monos && m.code == x && m.totalPrice <= c.totalPrice
  {
    MixCodesCount(monos);
    forall x, c | x in MixCodes(monos) && c in monos && c.code !in MixCodes(monos)
      ensures exists m :: m in monos && m.code == x && m.totalPrice <= c.totalPrice
    {
      MixCodeCheaper(monos, x, c);
    }
  }

  /** The pallet types that are mixed, in pallet type order. */
  function MixTypes(pts: seq<PalletType>, monos: seq<Candidate>): (r: seq<PalletType>)
    ensures forall p :: p in r <==> p in pts && p.code in MixCodes(monos)
  {
    WithCodes(pts, MixCodes(monos))
  }

  // The mix search below is written over a simulation run and a pass of
  // the bCount loop given as parameters, so that what it enumerates is
  // proved once for any of them; calculateBestPlan uses CappedRun(env)
  // and MixerOf(env, CappedRun(env)).

  /** A simulation run of the mix search: the pallet type, the counts to
      pack and the pallet limit. */
  type Run = (PalletType, Counts, nat) -> SimResult

  /** The pallet limit of a simulation run for a mix. */
  function RunCapped(env: Env, pt: PalletType, items: Counts, n: nat): SimResult
    requires FootprintsDefined(env.boxTypes)
  {
    Simulate(pt, env.boxTypes, items, env.allowSeparators, Some(n))
  }

  /** The run calculateBestPlan mixes with: the capped simulation on the
      order's box types and separator setting. */
  function CappedRun(env: Env): Run
    requires FootprintsDefined(env.boxTypes)
  {
    (pt: PalletType, items: Counts, n: nat) => RunCapped(env, pt, items, n)
  }

  /** The candidate entry of a mix: code "a+b", a's pallets then b's, the
      summed count and price, no price per pallet. */
  function MixEntry(a: PalletType, b: PalletType, simA: SimResult, simB: SimResult, costA: int, costB: int): Candidate
  {
    Candidate(a.code + "+" + b.code, simA.palletCount + simB.palletCount, None, costA + costB,
              simA.pallets + simB.pallets,
              MixMetrics(a.code, simA.palletCount, b.code, simB.palletCount, costA, costB),
              simA.warnings + simB.warnings)
  }

  /** The mix of simA's pallets of type a with the run simB of type b on
      what a left: emitted only when simB carries all of it and both types
      have a rate; its pallets are a's then b's, its count the sum of the
      two, its price the sum of the two bracket costs. */
  function MixOutcome(env: Env, a: PalletType, b: PalletType, simA: SimResult, simB: SimResult): (r: Option<Candidate>)
    ensures var costA := CostForPalletType(env.rates, env.zoneId, a, simA.palletCount);
      var costB := CostForPalletType(env.rates, env.zoneId, b, simB.palletCount);
      && (r.Some? <==> simB.remaining.Total() == 0 && costA.Some? && costB.Some?)
      && (r.Some? ==>
            && r.value.palletCount == simA.palletCount + simB.palletCount
            && r.value.pallets == simA.pallets + simB.pallets
            && r.value.pricePerPallet.None?
            && r.value.metrics == MixMetrics(a.code, simA.palletCount, b.code, simB.palletCount, costA.value, costB.value)
            && r.value.totalPrice == costA.value + costB.value)
  {
    if simB.remaining.Total() > 0 then None
    else
      var costA := CostForPalletType(env.rates, env.zoneId, a, simA.palletCount);
      var costB := CostForPalletType(env.rates, env.zoneId, b, simB.palletCount);
      if costA.None? || costB.None? then None
      else
        Some(MixEntry(a, b, simA, simB, costA.value, costB.value))
  }

  /** The mix with bCount pallets of b: b's run, limited to bCount pallets,
      on what a left. */
  function MixedCandidate(env: Env, run: Run, a: PalletType, b: PalletType, simA: SimResult, bCount: nat): Option<Candidate>
  {
    MixOutcome(env, a, b, simA, run(b, simA.remaining, bCount))
  }

  /** A pass of the bCount loop: the mix of a's run simA with b at a pallet
      limit for b. */
  type Mixer = (PalletType, PalletType, SimResult, nat) -> Option<Candidate>

  /** The pass calculateBestPlan makes: MixedCandidate on run. */
  function MixerOf(env: Env, run: Run): Mixer
  {
    (a: PalletType, b: PalletType, simA: SimResult, k: nat) => MixedCandidate(env, run, a, b, simA, k)
  }

  /** A mix of the capped simulation: b's run ships the rest of a non-empty
      remainder with no error, and with at most bCount pallets. */
  lemma MixedCandidateCapped(env: Env, a: PalletType, b: PalletType, simA: SimResult, bCount: nat)
    requires FootprintsDefined(env.boxTypes)
    requires MixedCandidate(env, CappedRun(env), a, b, simA, bCount).Some?
    ensures var simB := RunCapped(env, b, simA.remaining, bCount);
      && simB.remaining.Total() == 0
      && (simA.remaining.Total() > 0 ==> simB.error.None?)
      && simB.palletCount <= bCount
  {
    var simB := RunCapped(env, b, simA.remaining, bCount);
    assert CappedRun(env)(b, simA.remaining, bCount) == simB;
  }

  /** A mix whose first run has no error ships exactly the order, with the
      first type's full quota of pallets. */
  lemma MixedCandidateShipsOrder(env: Env, items: Counts, a: PalletType, b: PalletType, aCount: nat, bCount: nat,
                                 simA: SimResult, c: Candidate)
    requires FootprintsDefined(env.boxTypes)
    requires simA == RunCapped(env, a, items, aCount) && simA.remaining.Total() > 0
    requires MixedCandidate(env, CappedRun(env), a, b, simA, bCount) == Some(c)
    requires simA.error.None? && aCount < MaxIterations
    ensures simA.palletCount == aCount
    ensures ShipsOrder(c, items)
  {
    var simB := RunCapped(env, b, simA.remaining, bCount);
    assert CappedRun(env)(b, simA.remaining, bCount) == simB;
    PlusNothing(simB.packed, simB.remaining);
    assert SumLoads(simB.pallets) == simA.remaining;
    SumLoadsAppend(simA.pallets, simB.pallets);
  }

  /** The candidates f yields for 1..n, in that order. */
  function Collect(f: nat -> Option<Candidate>, n: nat): (r: seq<Candidate>)
    ensures |r| <= n
  {
    if n == 0 then [] else Collect(f, n - 1) + OptSeq(f(n))
  }

  /** The concatenation of g(lo), ..., g(hi - 1). */
  function Concat(g: nat -> seq<Candidate>, lo: nat, hi: nat): seq<Candidate>
    decreases hi
  {
    if hi <= lo then [] else Concat(g, lo, hi - 1) + g(hi - 1)
  }

  /** The mix of simA with k pallets of b, for each k. */
  function MixFn(mixer: Mixer, a: PalletType, b: PalletType, simA: SimResult): nat -> Option<Candidate>
  {
    (k: nat) => mixer(a, b, simA, k)
  }

  /** The bCount loop: the mixes of simA with b for 1..n pallets of b. */
  function MixB(mixer: Mixer, a: PalletType, b: PalletType, simA: SimResult, n: nat): (r: seq<Candidate>)
    ensures |r| <= n
  {
    Collect(MixFn(mixer, a, b, simA), n)
  }

  /** The mixes of a's run with k pallets and 1..cap pallets of b; a count
      that already carries the whole order is not a mix. */
  function MixesAt(run: Run, mixer: Mixer, items: Counts, a: PalletType, b: PalletType, cap: nat, k: nat): seq<Candidate>
  {
    var simA := run(a, items, k);
    if simA.remaining.Total() == 0 then [] else MixB(mixer, a, b, simA, cap)
  }

  /** MixesAt for each count of a. */
  function ACounts(run: Run, mixer: Mixer, items: Counts, a: PalletType, b: PalletType, cap: nat): nat -> seq<Candidate>
  {
    (k: nat) => MixesAt(run, mixer, items, a, b, cap, k)
  }

  /** The aCount loop: the mixes of a and b for 1..n pallets of a. */
  function MixA(run: Run, mixer: Mixer, items: Counts, a: PalletType, b: PalletType, cap: nat, n: nat): seq<Candidate>
  {
    Concat(ACounts(run, mixer, items, a, b, cap), 1, n + 1)
  }

  /** The pair mixes of mix[i], by the index of the partner; none past the
      end of mix. */
  function Partners(run: Run, mixer: Mixer, items: Counts, mix: seq<PalletType>, cap: nat, i: nat): nat -> seq<Candidate>
  {
    (k: nat) => if i < |mix| && k < |mix| then MixA(run, mixer, items, mix[i], mix[k], cap, cap) else []
  }

  /** The inner pair loop: the mixes of mix[i] with mix[i+1..j-1]. */
  function MixRow(run: Run, mixer: Mixer, items: Counts, mix: seq<PalletType>, cap: nat, i: nat, j: nat): seq<Candidate>
    requires i < j <= |mix|
  {
    Concat(Partners(run, mixer, items, mix, cap, i), i + 1, j)
  }

  /** The row of each first type, by its index. */
  function Rows(run: Run, mixer: Mixer, items: Counts, mix: seq<PalletType>, cap: nat): nat -> seq<Candidate>
  {
    (i: nat) => if i < |mix| then MixRow(run, mixer, items, mix, cap, i, |mix|) else []
  }

  /** The outer pair loop: the mixes of the pairs whose first type is among
      mix[..n]. */
  function MixAll(run: Run, mixer: Mixer, items: Counts, mix: seq<PalletType>, cap: nat, n: nat): seq<Candidate>
    requires n <= |mix|
  {
    Concat(Rows(run, mixer, items, mix, cap), 0, n)
  }

  /** Every pair i < j of the mixed types, when there are at least two. */
  function Mixing(run: Run, mixer: Mixer, items: Counts, mix: seq<PalletType>, cap: nat): seq<Candidate>
  {
    if |mix| >= 2 then MixAll(run, mixer, items, mix, cap, |mix|) else []
  }

  // ---------------------------------------------------------------------
  // The search

  /** All candidates: the one-type ones, then the mixes. */
  function Candidates(env: Env, pts: seq<PalletType>, items: Counts): seq<Candidate>
    requires FootprintsDefined(env.boxTypes)
  {
    var monos := MonoCandidates(env, pts, items);
    monos + Mixing(CappedRun(env), MixerOf(env, CappedRun(env)), items, MixTypes(pts, monos), MaxPalletsPerTypeInMix)
  }

  /** calculateBestPlan: no plan without a one-type candidate; otherwise the
      cheapest candidate, up to five next-cheapest alternatives, and the
      recommendations among them. */
  function BestPlan(env: Env, palletTypes: seq<PalletType>, allowed: seq<string>, items: Counts): (r: PlanResult)
    requires FootprintsDefined(env.boxTypes)
    ensures r.NoCandidates? <==>
              forall p :: p in palletTypes && (allowed == [] || p.code in allowed) ==> MonoCandidate(env, p, items).None?
  {
    var pts := AllowedTypes(palletTypes, allowed);
    MonoCandidatesEmpty(env, pts, items);
    if MonoCandidates(env, pts, items) == [] then NoCandidates
    else PlanOf(Candidates(env, pts, items))
  }

  /** The choice among the candidates: the first of least total price, up
      to five next-cheapest alternatives, and the recommendations among them. */
  function PlanOf(cands: seq<Candidate>): (r: PlanResult)
    requires cands != []
    ensures r.Plan?
  {
    var sorted := SortByPrice(cands);
    var alts := sorted[1..Min(1 + MaxAlternatives, |sorted|)];
    Plan(sorted[0], alts, Recommendations(sorted[0], alts))
  }

  // ---------------------------------------------------------------------
  // What the search promises

  /** A pallet type with a one-type candidate simulates without error. */
  lemma MonoCandidateSimulates(env: Env, pt: PalletType, items: Counts)
    requires FootprintsDefined(env.boxTypes)
    requires MonoCandidate(env, pt, items).Some?
    ensures Simulate(pt, env.boxTypes, items, env.allowSeparators, None).error.None?
  {}

  /** Every one-type candidate under the guard ships exactly the order. */
  lemma MonosShipOrder(env: Env, pts: seq<PalletType>, items: Counts)
    requires FootprintsDefined(env.boxTypes)
    ensures forall c :: c in MonoCandidates(env, pts, items) && c.palletCount < MaxIterations ==>
              ShipsOrder(c, items)
  {
    MonoCandidatesFrom(env, pts, items);
    forall c | c in MonoCandidates(env, pts, items) && c.palletCount < MaxIterations
      ensures ShipsOrder(c, items)
    {
      var p :| p in pts && MonoCandidate(env, p, items) == Some(c);
      MonoCandidateShipsOrder(env, p, items);
    }
  }

  /** c is the mix of aCount pallets of a with bCount pallets of b: a's
      capped run leaves something over and b's run on it yields c. */
  ghost predicate MixOf(run: Run, mixer: Mixer, items: Counts, a: PalletType, b: PalletType, aCount: nat, bCount: nat, c: Candidate)
  {
    run(a, items, aCount).remaining.Total() > 0
    && mixer(a, b, run(a, items, aCount), bCount) == Some(c)
  }

  /** c is the mix of simA with k pallets of b. */
  ghost predicate MixWith(mixer: Mixer, a: PalletType, b: PalletType, simA: SimResult, k: nat, c: Candidate)
  {
    mixer(a, b, simA, k) == Some(c)
  }

  /** Collect holds exactly what f yields for 1..n. */
  lemma {:induction false} CollectMembers(f: nat -> Option<Candidate>, n: nat, c: Candidate)
    ensures c in Collect(f, n) <==> exists k :: 1 <= k <= n && f(k) == Some(c)
  {
    if n > 0 {
      CollectMembers(f, n - 1, c);
      if f(n) == Some(c) {
        assert OptSeq(f(n)) == [c];
      }
    }
  }

  /** Concat holds exactly what the parts hold. */
  lemma {:induction false} ConcatMembers(g: nat -> seq<Candidate>, lo: nat, hi: nat)
    ensures forall c :: c in Concat(g, lo, hi) <==> exists k :: lo <= k < hi && c in g(k)
    decreases hi
  {
    if hi > lo {
      ConcatMembers(g, lo, hi - 1);
      forall c | exists k :: lo <= k < hi && c in g(k)
        ensures c in Concat(g, lo, hi)
      {
        var k :| lo <= k < hi && c in g(k);
        if k < hi - 1 {
          assert c in Concat(g, lo, hi - 1);
        }
      }
    }
  }

  /** One of g(lo), ..., g(hi - 1) holds c. */
  ghost predicate InSome(g: nat -> seq<Candidate>, lo: nat, hi: nat, c: Candidate)
  {
    exists k :: lo <= k < hi && c in g(k)
  }

  /** One candidate is in Concat exactly when one of the parts holds it. */
  lemma ConcatHas(g: nat -> seq<Candidate>, lo: nat, hi: nat, c: Candidate)
    ensures c in Concat(g, lo, hi) <==> InSome(g, lo, hi, c)
  {
    ConcatMembers(g, lo, hi);
  }

  /** A candidate of Concat is in one of the parts. */
  lemma ConcatHasSome(g: nat -> seq<Candidate>, lo: nat, hi: nat, c: Candidate)
    requires c in Concat(g, lo, hi)
    ensures InSome(g, lo, hi, c)
  {
    ConcatMembers(g, lo, hi);
  }

  /** A candidate of one of the parts is in Concat. */
  lemma ConcatHasAt(g: nat -> seq<Candidate>, lo: nat, hi: nat, k: nat, c: Candidate)
    requires lo <= k < hi && c in g(k)
    ensures c in Concat(g, lo, hi)
  {
    ConcatMembers(g, lo, hi);
  }

  /** The candidates so far extended by what f yields for n + 1. */
  lemma CollectExtend(f: nat -> Option<Candidate>, n: nat, s: seq<Candidate>, next: Option<Candidate>)
    requires s == Collect(f, n) && next == f(n + 1)
    ensures Collect(f, n + 1) == if next.Some? then s + [next.value] else s
  {}

  /** The concatenation so far, when the next part is empty. */
  lemma ConcatSkip(g: nat -> seq<Candidate>, lo: nat, hi: nat, s: seq<Candidate>)
    requires lo <= hi && s == Concat(g, lo, hi) && g(hi) == []
    ensures s == Concat(g, lo, hi + 1)
  {}

  /** The concatenation so far extended by the next part. */
  lemma ConcatExtend(g: nat -> seq<Candidate>, lo: nat, hi: nat, s: seq<Candidate>, part: seq<Candidate>)
    requires lo <= hi && s == Concat(g, lo, hi) && part == g(hi)
    ensures s + part == Concat(g, lo, hi + 1)
  {}

  /** One candidate is in MixB exactly when it is the mix with one of
      1..n pallets of b. */
  lemma MixBMember(mixer: Mixer, a: PalletType, b: PalletType, simA: SimResult, n: nat, c: Candidate)
    ensures c in MixB(mixer, a, b, simA, n) <==> exists k :: 1 <= k <= n && MixWith(mixer, a, b, simA, k, c)
  {
    var f := MixFn(mixer, a, b, simA);
    CollectMembers(f, n, c);
    if c in MixB(mixer, a, b, simA, n) {
      var k :| 1 <= k <= n && f(k) == Some(c);
      assert MixWith(mixer, a, b, simA, k, c);
    }
    if exists k :: 1 <= k <= n && MixWith(mixer, a, b, simA, k, c) {
      var k :| 1 <= k <= n && MixWith(mixer, a, b, simA, k, c);
      assert f(k) == Some(c);
    }
  }

  /** MixB holds exactly the mixes for 1..n pallets of b. */
  lemma MixBMembers(mixer: Mixer, a: PalletType, b: PalletType, simA: SimResult, n: nat)
    ensures forall c :: c in MixB(mixer, a, b, simA, n) <==> exists k :: 1 <= k <= n && MixWith(mixer, a, b, simA, k, c)
  {
    forall c ensures c in MixB(mixer, a, b, simA, n) <==> exists k :: 1 <= k <= n && MixWith(mixer, a, b, simA, k, c)
    {
      MixBMember(mixer, a, b, simA, n, c);
    }
  }

  /** The mixes for k pallets of a are those with 1..cap pallets of b. */
  lemma MixesAtMember(run: Run, mixer: Mixer, items: Counts, a: PalletType, b: PalletType, cap: nat, k: nat, c: Candidate)
    ensures c in MixesAt(run, mixer, items, a, b, cap, k) <==>
            exists bCount :: 1 <= bCount <= cap && MixOf(run, mixer, items, a, b, k, bCount, c)
  {
    var simA := run(a, items, k);
    MixBMembers(mixer, a, b, simA, cap);
    if c in MixesAt(run, mixer, items, a, b, cap, k) {
      var bCount :| 1 <= bCount <= cap && MixWith(mixer, a, b, simA, bCount, c);
      assert MixOf(run, mixer, items, a, b, k, bCount, c);
    }
    if exists bCount :: 1 <= bCount <= cap && MixOf(run, mixer, items, a, b, k, bCount, c) {
      var bCount :| 1 <= bCount <= cap && MixOf(run, mixer, items, a, b, k, bCount, c);
      assert MixWith(mixer, a, b, simA, bCount, c);
    }
  }

  /** One candidate is in MixA exactly when it is one of its mixes. */
  lemma MixAMember(run: Run, mixer: Mixer, items: Counts, a: PalletType, b: PalletType, cap: nat, n: nat, c: Candidate)
    ensures c in MixA(run, mixer, items, a, b, cap, n) <==>
            exists aCount, bCount :: 1 <= aCount <= n && 1 <= bCount <= cap && MixOf(run, mixer, items, a, b, aCount, bCount, c)
  {
    var g := ACounts(run, mixer, items, a, b, cap);
    ConcatHas(g, 1, n + 1, c);
    if c in MixA(run, mixer, items, a, b, cap, n) {
      var k :| 1 <= k < n + 1 && c in g(k);
      MixesAtMember(run, mixer, items, a, b, cap, k, c);
    }
    if exists aCount, bCount :: 1 <= aCount <= n && 1 <= bCount <= cap && MixOf(run, mixer, items, a, b, aCount, bCount, c) {
      var aCount, bCount :| 1 <= aCount <= n && 1 <= bCount <= cap && MixOf(run, mixer, items, a, b, aCount, bCount, c);
      MixesAtMember(run, mixer, items, a, b, cap, aCount, c);
      assert c in g(aCount);
    }
  }

  /** MixA holds exactly the mixes for 1..n pallets of a and 1..cap of b. */
  lemma MixAMembers(run: Run, mixer: Mixer, items: Counts, a: PalletType, b: PalletType, cap: nat, n: nat)
    ensures forall c :: c in MixA(run, mixer, items, a, b, cap, n) <==>
              exists aCount, bCount :: 1 <= aCount <= n && 1 <= bCount <= cap && MixOf(run, mixer, items, a, b, aCount, bCount, c)
  {
    forall c ensures c in MixA(run, mixer, items, a, b, cap, n) <==>
                     exists aCount, bCount :: 1 <= aCount <= n && 1 <= bCount <= cap && MixOf(run, mixer, items, a, b, aCount, bCount, c)
    {
      MixAMember(run, mixer, items, a, b, cap, n, c);
    }
  }

  /** The pair mixes of mix[i] with partner k. */
  lemma PartnersAt(run: Run, mixer: Mixer, items: Counts, mix: seq<PalletType>, cap: nat, i: nat, k: nat)
    requires i < k < |mix|
    ensures Partners(run, mixer, items, mix, cap, i)(k) == MixA(run, mixer, items, mix[i], mix[k], cap, cap)
  {}

  /** A candidate of MixRow is in one of the partners' lists. */
  lemma RowHasSome(run: Run, mixer: Mixer, items: Counts, mix: seq<PalletType>, cap: nat, i: nat, j: nat, c: Candidate)
    requires i < j <= |mix|
    requires c in MixRow(run, mixer, items, mix, cap, i, j)
    ensures InSome(Partners(run, mixer, items, mix, cap, i), i + 1, j, c)
  {
    ghost var g := Partners(run, mixer, items, mix, cap, i);
    ConcatHasSome(g, i + 1, j, c);
  }

  /** A mix of mix[i] with mix[k], i < k < j, is in MixRow(i, j). */
  lemma RowHasAt(run: Run, mixer: Mixer, items: Counts, mix: seq<PalletType>, cap: nat, i: nat, j: nat, k: nat, c: Candidate)
    requires i < k < j <= |mix|
    requires c in MixA(run, mixer, items, mix[i], mix[k], cap, cap)
    ensures c in MixRow(run, mixer, items, mix, cap, i, j)
  {
    ghost var g := Partners(run, mixer, items, mix, cap, i);
    ghost var part := MixA(run, mixer, items, mix[i], mix[k], cap, cap);
    assert g(k) == part;
    ConcatHasAt(g, i + 1, j, k, c);
  }

  /** One candidate is in MixRow exactly when it mixes mix[i] with one of
      mix[i+1..j-1]. */
  lemma MixRowMember(run: Run, mixer: Mixer, items: Counts, mix: seq<PalletType>, cap: nat, i: nat, j: nat, c: Candidate)
    requires i < j <= |mix|
    ensures c in MixRow(run, mixer, items, mix, cap, i, j) <==>
            exists k, aCount, bCount :: i < k < j && 1 <= aCount <= cap && 1 <= bCount <= cap
                                        && MixOf(run, mixer, items, mix[i], mix[k], aCount, bCount, c)
  {
    if c in MixRow(run, mixer, items, mix, cap, i, j) {
      RowHasSome(run, mixer, items, mix, cap, i, j, c);
      var k :| i + 1 <= k < j && c in Partners(run, mixer, items, mix, cap, i)(k);
      PartnersAt(run, mixer, items, mix, cap, i, k);
      MixAMember(run, mixer, items, mix[i], mix[k], cap, cap, c);
    }
    if exists k, aCount, bCount :: i < k < j && 1 <= aCount <= cap && 1 <= bCount <= cap
                                   && MixOf(run, mixer, items, mix[i], mix[k], aCount, bCount, c) {
      var k, aCount, bCount :| i < k < j && 1 <= aCount <= cap && 1 <= bCount <= cap
                               && MixOf(run, mixer, items, mix[i], mix[k], aCount, bCount, c);
      MixAMember(run, mixer, items, mix[i], mix[k], cap, cap, c);
      RowHasAt(run, mixer, items, mix, cap, i, j, k, c);
    }
  }

  /** The rows of the mix search: row i for each mixed type. */
  lemma RowsAt(run: Run, mixer: Mixer, items: Counts, mix: seq<PalletType>, cap: nat, i: nat)
    requires i < |mix|
    ensures Rows(run, mixer, items, mix, cap)(i) == MixRow(run, mixer, items, mix, cap, i, |mix|)
  {}

  /** A candidate of MixAll is in one of the first n rows. */
  lemma AllHasSome(run: Run, mixer: Mixer, items: Counts, mix: seq<PalletType>, cap: nat, n: nat, c: Candidate)
    requires n <= |mix|
    requires c in MixAll(run, mixer, items, mix, cap, n)
    ensures InSome(Rows(run, mixer, items, mix, cap), 0, n, c)
  {
    ghost var g := Rows(run, mixer, items, mix, cap);
    ConcatHasSome(g, 0, n, c);
  }

  /** A candidate of row i < n is in MixAll(n). */
  lemma AllHasAt(run: Run, mixer: Mixer, items: Counts, mix: seq<PalletType>, cap: nat, n: nat, i: nat, c: Candidate)
    requires i < n <= |mix|
    requires c in MixRow(run, mixer, items, mix, cap, i, |mix|)
    ensures c in MixAll(run, mixer, items, mix, cap, n)
  {
    ghost var g := Rows(run, mixer, items, mix, cap);
    ghost var row := MixRow(run, mixer, items, mix, cap, i, |mix|);
    assert g(i) == row;
    ConcatHasAt(g, 0, n, i, c);
  }

  /** One candidate is in MixAll exactly when it mixes a pair i < k with
      i among the first n mixed types. */
  lemma MixAllMember(run: Run, mixer: Mixer, items: Counts, mix: seq<PalletType>, cap: nat, n: nat, c: Candidate)
    requires n <= |mix|
    ensures c in MixAll(run, mixer, items, mix, cap, n) <==>
            exists i, k, aCount, bCount :: 0 <= i < n && i < k < |mix| && 1 <= aCount <= cap && 1 <= bCount <= cap
                                           && MixOf(run, mixer, items, mix[i], mix[k], aCount, bCount, c)
  {
    if c in MixAll(run, mixer, items, mix, cap, n) {
      AllHasSome(run, mixer, items, mix, cap, n, c);
      var i :| 0 <= i < n && c in Rows(run, mixer, items, mix, cap)(i);
      RowsAt(run, mixer, items, mix, cap, i);
      MixRowMember(run, mixer, items, mix, cap, i, |mix|, c);
    }
    if exists i, k, aCount, bCount :: 0 <= i < n && i < k < |mix| && 1 <= aCount <= cap && 1 <= bCount <= cap
                                      && MixOf(run, mixer, items, mix[i], mix[k], aCount, bCount, c) {
      var i, k, aCount, bCount :| 0 <= i < n && i < k < |mix| && 1 <= aCount <= cap && 1 <= bCount <= cap
                                  && MixOf(run, mixer, items, mix[i], mix[k], aCount, bCount, c);
      MixRowMember(run, mixer, items, mix, cap, i, |mix|, c);
      AllHasAt(run, mixer, items, mix, cap, n, i, c);
    }
  }

  /** The mix search yields exactly the mixes of a pair i < j of the mixed
      types with 1..cap pallets of each, where the first type's capped run
      leaves something over. */
  lemma MixingMembers(run: Run, mixer: Mixer, items: Counts, mix: seq<PalletType>, cap: nat)
    ensures forall c :: c in Mixing(run, mixer, items, mix, cap) <==>
              exists i, j, aCount, bCount :: 0 <= i < j < |mix| && 1 <= aCount <= cap && 1 <= bCount <= cap
                && MixOf(run, mixer, items, mix[i], mix[j], aCount, bCount, c)
  {
    forall c ensures c in Mixing(run, mixer, items, mix, cap) <==>
                     exists i, j, aCount, bCount :: 0 <= i < j < |mix| && 1 <= aCount <= cap && 1 <= bCount <= cap
                       && MixOf(run, mixer, items, mix[i], mix[j], aCount, bCount, c)
    {
      if |mix| >= 2 {
        MixAllMember(run, mixer, items, mix, cap, |mix|, c);
      }
    }
  }

  /** With the capped simulation and MixedCandidate, MixOf is the mix of
      calculateBestPlan: a's run capped at aCount leaves something over, and
      b's run capped at bCount on the rest yields c. */
  lemma MixOfCapped(env: Env, items: Counts, a: PalletType, b: PalletType, aCount: nat, bCount: nat, c: Candidate)
    requires FootprintsDefined(env.boxTypes)
    ensures var simA := RunCapped(env, a, items, aCount);
      MixOf(CappedRun(env), MixerOf(env, CappedRun(env)), items, a, b, aCount, bCount, c) <==>
        simA.remaining.Total() > 0 && MixedCandidate(env, CappedRun(env), a, b, simA, bCount) == Some(c)
  {
    ghost var run := CappedRun(env);
    ghost var simA := RunCapped(env, a, items, aCount);
    assert run(a, items, aCount) == simA;
    assert MixerOf(env, run)(a, b, simA, bCount) == MixedCandidate(env, run, a, b, simA, bCount);
  }

  /** A mix of a type whose uncapped run succeeds ships exactly the order. */
  lemma MixOfShipsOrder(env: Env, items: Counts, a: PalletType, b: PalletType, aCount: nat, bCount: nat, c: Candidate)
    requires FootprintsDefined(env.boxTypes)
    requires Simulate(a, env.boxTypes, items, env.allowSeparators, None).error.None?
    requires aCount < MaxIterations
    requires MixOf(CappedRun(env), MixerOf(env, CappedRun(env)), items, a, b, aCount, bCount, c)
    ensures ShipsOrder(c, items)
  {
    ghost var simA := RunCapped(env, a, items, aCount);
    MixOfCapped(env, items, a, b, aCount, bCount, c);
    CappedSimulation(a, env.boxTypes, items, env.allowSeparators, aCount);
    MixedCandidateShipsOrder(env, items, a, b, aCount, bCount, simA, c);
  }

  /** One mix of calculateBestPlan ships exactly the order. */
  lemma MixShipsOrder(env: Env, pts: seq<PalletType>, items: Counts, c: Candidate)
    requires FootprintsDefined(env.boxTypes) && CodesIdentify(pts)
    requires c in Mixing(CappedRun(env), MixerOf(env, CappedRun(env)), items,
                         MixTypes(pts, MonoCandidates(env, pts, items)), MaxPalletsPerTypeInMix)
    ensures ShipsOrder(c, items)
  {
    ghost var run := CappedRun(env);
    ghost var mixer := MixerOf(env, run);
    ghost var mix := MixTypes(pts, MonoCandidates(env, pts, items));
    ghost var cap := MaxPalletsPerTypeInMix;
    MixingMembers(run, mixer, items, mix, cap);
    var i, j, aCount, bCount :| 0 <= i < j < |mix| && 1 <= aCount <= cap && 1 <= bCount <= cap
                                && MixOf(run, mixer, items, mix[i], mix[j], aCount, bCount, c);
    MixTypeHasMono(env, pts, items, mix[i]);
    MonoCandidateSimulates(env, mix[i], items);
    MixOfShipsOrder(env, items, mix[i], mix[j], aCount, bCount, c);
  }

  /** Every candidate of calculateBestPlan under the simulation's guard, one
      type or mixed, ships exactly the order. */
  lemma CandidatesShipOrder(env: Env, pts: seq<PalletType>, items: Counts)
    requires FootprintsDefined(env.boxTypes) && CodesIdentify(pts)
    ensures forall c :: c in Candidates(env, pts, items) && c.palletCount < MaxIterations ==> ShipsOrder(c, items)
  {
    MonosShipOrder(env, pts, items);
    forall c | c in Candidates(env, pts, items) && c.palletCount < MaxIterations
      ensures ShipsOrder(c, items)
    {
      if c !in MonoCandidates(env, pts, items) {
        MixShipsOrder(env, pts, items, c);
      }
    }
  }

  lemma MonoCandidateCode(env: Env, pt: PalletType, items: Counts, c: Candidate)
    requires FootprintsDefined(env.boxTypes)
    requires MonoCandidate(env, pt, items) == Some(c)
    ensures c.code == pt.code
  {}

  /** Every mixed type is a pallet type with a one-type candidate. */
  lemma MixTypeHasMono(env: Env, pts: seq<PalletType>, items: Counts, a: PalletType)
    requires FootprintsDefined(env.boxTypes) && CodesIdentify(pts)
    requires a in MixTypes(pts, MonoCandidates(env, pts, items))
    ensures MonoCandidate(env, a, items).Some?
  {
    var monos := MonoCandidates(env, pts, items);
    assert a in pts && a.code in MixCodes(monos);
    var c :| c in monos && c.code == a.code;
    MonoCandidatesFrom(env, pts, items);
    var p :| p in pts && MonoCandidate(env, p, items) == Some(c);
    MonoCandidateCode(env, p, items, c);
  }

  /** The best plan is the first candidate of least total price. */
  lemma PlanOfCheapest(cands: seq<Candidate>)
    requires cands != []
    ensures PlanOf(cands).best == cands[FirstCheapest(cands)]
    ensures forall c :: c in cands ==> PlanOf(cands).best.totalPrice <= c.totalPrice
  {
    SortByPriceHead(cands);
    var sorted := SortByPrice(cands);
    forall c | c in cands
      ensures sorted[0].totalPrice <= c.totalPrice
    {
      assert c in multiset(sorted);
    }
  }

  /** The best plan is no dearer than the one-type plan of any allowed
      pallet type. */
  lemma BestPlanNoDearerThanMonos(env: Env, palletTypes: seq<PalletType>, allowed: seq<string>, items: Counts,
                                  p: PalletType)
    requires FootprintsDefined(env.boxTypes)
    requires p in palletTypes && (allowed == [] || p.code in allowed)
    requires MonoCandidate(env, p, items).Some?
    ensures var r := BestPlan(env, palletTypes, allowed, items);
      r.Plan? && r.best.totalPrice <= MonoCandidate(env, p, items).value.totalPrice
  {
    var pts := AllowedTypes(palletTypes, allowed);
    var monos := MonoCandidates(env, pts, items);
    MonoCandidatesComplete(env, pts, items);
    var cands := Candidates(env, pts, items);
    assert MonoCandidate(env, p, items).value in cands;
    PlanOfCheapest(cands);
  }

  /** Cutting a sorted sequence after the head and after n: the middle
      part is sorted, no cheaper than the head and no dearer than the tail. */
  lemma SortedCut(sorted: seq<Candidate>, n: nat)
    requires SortedByPrice(sorted) && 1 <= n <= |sorted|
    ensures SortedByPrice(sorted[1..n])
    ensures forall a :: a in sorted[1..n] ==> sorted[0].totalPrice <= a.totalPrice
    ensures forall x, a :: x in sorted[n..] && a in sorted[1..n] ==> a.totalPrice <= x.totalPrice
  {
    forall x, a | x in sorted[n..] && a in sorted[1..n]
      ensures a.totalPrice <= x.totalPrice
    {
      var i :| n <= i < |sorted| && sorted[i] == x;
      var j :| 1 <= j < n && sorted[j] == a;
    }
    forall a | a in sorted[1..n]
      ensures sorted[0].totalPrice <= a.totalPrice
    {
      var j :| 1 <= j < n && sorted[j] == a;
    }
  }

  /** The head and the next five of the sorted candidates: the alternatives
      are in ascending order, no cheaper than the head, and every candidate
      after them costs at least as much as each of them. */
  lemma SortedSplit(cands: seq<Candidate>)
    requires cands != []
    ensures var sorted := SortByPrice(cands);
      var n := Min(1 + MaxAlternatives, |sorted|);
      && |sorted[1..n]| == Min(MaxAlternatives, |cands| - 1)
      && SortedByPrice(sorted[1..n])
      && (forall a :: a in sorted[1..n] ==> sorted[0].totalPrice <= a.totalPrice)
      && (forall x, a :: x in sorted[n..] && a in sorted[1..n] ==> a.totalPrice <= x.totalPrice)
  {
    var sorted := SortByPrice(cands);
    SortedCut(sorted, Min(1 + MaxAlternatives, |sorted|));
  }

  /** The three parts hold exactly the candidates. */
  lemma SortedSplitMembers(cands: seq<Candidate>)
    requires cands != []
    ensures var sorted := SortByPrice(cands);
      var n := Min(1 + MaxAlternatives, |sorted|);
      && sorted[0] in cands
      && (forall a :: a in sorted[1..n] ==> a in cands)
      && multiset([sorted[0]] + sorted[1..n] + sorted[n..]) == multiset(cands)
  {
    var sorted := SortByPrice(cands);
    CutMembers(sorted, cands, Min(1 + MaxAlternatives, |sorted|));
  }

  lemma CutMembers(sorted: seq<Candidate>, cands: seq<Candidate>, n: nat)
    requires multiset(sorted) == multiset(cands) && 1 <= n <= |sorted|
    ensures sorted[0] in cands
    ensures forall a :: a in sorted[1..n] ==> a in cands
    ensures multiset([sorted[0]] + sorted[1..n] + sorted[n..]) == multiset(cands)
  {
    assert sorted == [sorted[0]] + sorted[1..n] + sorted[n..];
    assert sorted[0] in multiset(sorted);
    forall a | a in sorted[1..n]
      ensures a in cands
    {
      assert a in multiset(sorted);
    }
  }

  /** The alternatives are the next cheapest candidates, at most five, in
      ascending order of price, each one of the candidates and no cheaper
      than the best. */
  lemma PlanOfAlternatives(cands: seq<Candidate>)
    requires cands != []
    ensures var r := PlanOf(cands);
      && |r.alternatives| == Min(MaxAlternatives, |cands| - 1)
      && SortedByPrice(r.alternatives)
      && (forall a :: a in r.alternatives ==> a in cands && r.best.totalPrice <= a.totalPrice)
  {
    SortedSplit(cands);
    SortedSplitMembers(cands);
  }

  /** Every candidate left out of the plan (the rest of the sorted order)
      costs at least as much as each alternative, and the best, the
      alternatives and the rest are exactly the candidates. */
  lemma PlanOfLeftOut(cands: seq<Candidate>)
    requires cands != []
    ensures var r := PlanOf(cands);
      var rest := SortByPrice(cands)[1 + |r.alternatives|..];
      && multiset([r.best] + r.alternatives + rest) == multiset(cands)
      && forall x, a :: x in rest && a in r.alternatives ==> a.totalPrice <= x.totalPrice
  {
    SortedSplit(cands);
    SortedSplitMembers(cands);
  }

  /** The recommendations are exactly those of the qualifying alternatives. */
  lemma PlanOfRecommendations(cands: seq<Candidate>)
    requires cands != []
    ensures var r := PlanOf(cands);
      && (forall rec :: rec in r.recommendations ==>
            exists a :: a in r.alternatives && Qualifies(r.best, a) && RecommendationFor(r.best, a) == Some(rec))
      && (forall a :: a in r.alternatives && Qualifies(r.best, a) ==>
            RecommendationFor(r.best, a).Some? && RecommendationFor(r.best, a).value in r.recommendations)
  {
    var r := PlanOf(cands);
    RecommendationsSound(r.best, r.alternatives);
    RecommendationsComplete(r.best, r.alternatives);
  }

  // ---------------------------------------------------------------------
  // The loops of calculateBestPlan

  /** The bCount loop for one capped run of a. */
  method MixWithB(mixer: Mixer, a: PalletType, b: PalletType, simA: SimResult, cap: nat) returns (cs: seq<Candidate>)
    ensures cs == MixB(mixer, a, b, simA, cap)
  {
    ghost var f := MixFn(mixer, a, b, simA);
    cs := [];
    for k := 0 to cap
      invariant cs == Collect(f, k)
    {
      var bCount := k + 1;
      var next := mixer(a, b, simA, bCount);
      CollectExtend(f, k, cs, next);
      if next.Some? {
        cs := cs + [next.value];
      }
    }
  }

  /** One more pallet type. */
  lemma MonoStep(env: Env, pts: seq<PalletType>, items: Counts, k: nat, next: Option<Candidate>)
    requires FootprintsDefined(env.boxTypes)
    requires k < |pts| && next == MonoCandidate(env, pts[k], items)
    ensures MonoCandidates(env, pts[..k + 1], items) == MonoCandidates(env, pts[..k], items) + OptSeq(next)
  {
    assert pts[..k + 1][..k] == pts[..k];
  }

  /** The aCount loop for the pair a, b. */
  method MixPair(run: Run, mixer: Mixer, items: Counts, a: PalletType, b: PalletType, cap: nat) returns (cs: seq<Candidate>)
    ensures cs == MixA(run, mixer, items, a, b, cap, cap)
  {
    ghost var g := ACounts(run, mixer, items, a, b, cap);
    cs := [];
    for k := 0 to cap
      invariant cs == Concat(g, 1, k + 1)
    {
      var aCount := k + 1;
      var simA := run(a, items, aCount);
      var leftA := simA.remaining.Total();
      if leftA == 0 {  // a alone carries the order: a one-type plan
        ConcatSkip(g, 1, aCount, cs);
        continue;
      }
      var mixes := MixWithB(mixer, a, b, simA, cap);
      ConcatExtend(g, 1, aCount, cs, mixes);
      cs := cs + mixes;
    }
  }

  /** The first loop of calculateBestPlan: the one-type candidates in
      pallet type order. */
  method CollectMonoCandidates(env: Env, pts: seq<PalletType>, items: Counts) returns (candidates: seq<Candidate>)
    requires FootprintsDefined(env.boxTypes)
    ensures candidates == MonoCandidates(env, pts, items)
  {
    candidates := [];
    for k := 0 to |pts|
      invariant candidates == MonoCandidates(env, pts[..k], items)
    {
      var pt := pts[k];
      var sim := SimulatePackingForPalletType(pt, env.boxTypes, items, env.allowSeparators, None);
      MonoStep(env, pts, items, k, MonoOutcome(env, pt, sim));
      if sim.palletCount <= 0 { continue; }
      var rate := LookupRate(env.rates, env.zoneId, pt.id, sim.palletCount);
      if rate.None? { continue; }  // no rate for this type in the zone
      candidates := candidates + [MonoEntry(pt, sim, rate.value.priceCents)];
    }
    assert pts[..|pts|] == pts;
  }

  /** The inner pair loop of calculateBestPlan: mix[i] with each later type. */
  method CollectRow(run: Run, mixer: Mixer, items: Counts, mixTypes: seq<PalletType>, cap: nat, i: nat) returns (row: seq<Candidate>)
    requires i < |mixTypes|
    ensures row == MixRow(run, mixer, items, mixTypes, cap, i, |mixTypes|)
  {
    ghost var g := Partners(run, mixer, items, mixTypes, cap, i);
    row := [];
    for j := i + 1 to |mixTypes|
      invariant row == Concat(g, i + 1, j)
    {
      var pair := MixPair(run, mixer, items, mixTypes[i], mixTypes[j], cap);
      PartnersAt(run, mixer, items, mixTypes, cap, i, j);
      ConcatExtend(g, i + 1, j, row, pair);
      row := row + pair;
    }
  }

  /** The pair loops of calculateBestPlan: every i < j of the mixed types,
      run when there are at least two. */
  method CollectMixes(run: Run, mixer: Mixer, items: Counts, mixTypes: seq<PalletType>, cap: nat) returns (mixes: seq<Candidate>)
    ensures mixes == MixAll(run, mixer, items, mixTypes, cap, |mixTypes|)
  {
    ghost var g := Rows(run, mixer, items, mixTypes, cap);
    mixes := [];
    for i := 0 to |mixTypes|
      invariant mixes == Concat(g, 0, i)
    {
      var row := CollectRow(run, mixer, items, mixTypes, cap, i);
      RowsAt(run, mixer, items, mixTypes, cap, i);
      ConcatExtend(g, 0, i, mixes, row);
      mixes := mixes + row;
    }
  }


  /** The sort, the cut and the recommendation loop of calculateBestPlan. */
  method ChoosePlan(candidates: seq<Candidate>) returns (r: PlanResult)
    requires candidates != []
    ensures r == PlanOf(candidates)
  {
    var sorted := SortByPrice(candidates);
    var best := sorted[0];
    var alternatives := sorted[1..Min(1 + MaxAlternatives, |sorted|)];
    var recommendations := BuildRecommendations(best, alternatives);
    r := Plan(best, alternatives, recommendations);
  }

  /** calculateBestPlan: the one-type candidates, the mixes of the cheapest
      types, then the cheapest candidate, the next alternatives and the
      recommendations. */
  method CalculateBestPlan(env: Env, palletTypes: seq<PalletType>, allowed: seq<string>, items: Counts)
    returns (r: PlanResult)
    requires FootprintsDefined(env.boxTypes)
    ensures r == BestPlan(env, palletTypes, allowed, items)
  {
    var pts := AllowedTypes(palletTypes, allowed);
    var candidates := CollectMonoCandidates(env, pts, items);
    if candidates == [] {
      return NoCandidates;
    }
    var mixTypes := MixTypes(pts, candidates);
    var mixes := [];
    if |mixTypes| >= 2 {
      var maxPalletsPerTypeInMix := MaxPalletsPerTypeInMix;
      mixes := CollectMixes(CappedRun(env), MixerOf(env, CappedRun(env)), items, mixTypes, maxPalletsPerTypeInMix);
    }
    BestPlanFrom(env, palletTypes, allowed, items, pts, candidates, mixes);
    candidates := candidates + mixes;
    r := ChoosePlan(candidates);
  }

  /** The plan of the one-type candidates followed by the mixes. */
  lemma BestPlanFrom(env: Env, palletTypes: seq<PalletType>, allowed: seq<string>, items: Counts,
                     pts: seq<PalletType>, monos: seq<Candidate>, mixes: seq<Candidate>)
    requires FootprintsDefined(env.boxTypes)
    requires pts == AllowedTypes(palletTypes, allowed)
    requires monos == MonoCandidates(env, pts, items) && monos != []
    requires var mix := MixTypes(pts, monos);
      mixes == if |mix| >= 2 then MixAll(CappedRun(env), MixerOf(env, CappedRun(env)), items, mix, MaxPalletsPerTypeInMix, |mix|) else []
    ensures BestPlan(env, palletTypes, allowed, items) == PlanOf(monos + mixes)
  {
    CandidatesFrom(env, pts, items, monos, mixes);
  }

  /** The candidates are the one-type ones followed by the mixes. */
  lemma CandidatesFrom(env: Env, pts: seq<PalletType>, items: Counts, monos: seq<Candidate>, mixes: seq<Candidate>)
    requires FootprintsDefined(env.boxTypes)
    requires monos == MonoCandidates(env, pts, items)
    requires var mix := MixTypes(pts, monos);
      mixes == if |mix| >= 2 then MixAll(CappedRun(env), MixerOf(env, CappedRun(env)), items, mix, MaxPalletsPerTypeInMix, |mix|) else []
    ensures Candidates(env, pts, items) == monos + mixes
  {}

}
