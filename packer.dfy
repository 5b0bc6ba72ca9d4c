// The per-pallet-type packing simulation
// (PalletizationService::simulatePackingForPalletType): pallets are filled
// layer by layer until the demand is met, a pallet limit is reached, or a
// pallet cannot take a single box.

module Packer {
  import opened Domain
  import opened LayerBuilder
  import opened Utilization

  /** The simulation's safety cap on the number of pallets it starts. */
  const MaxIterations := 20000

  /** Box footprints are positive, so slot counts are defined. */
  predicate FootprintsDefined(boxTypes: map<ItemType, BoxSpec>)
  {
    forall t :: t in boxTypes ==> boxTypes[t].lengthCm > 0 && boxTypes[t].widthCm > 0
  }

  /** The per-kind packing data of a box type on a pallet type. */
  function InfoFor(pt: PalletType, b: BoxSpec): (r: TypeInfo)
    requires b.lengthCm > 0 && b.widthCm > 0
    ensures r.perLayer * (b.lengthCm * b.widthCm) <= pt.baseLengthCm * pt.baseWidthCm
    ensures r.heightCm == b.heightCm && r.weight == b.weight
  {
    BoxesPerLayerFits(pt.baseLengthCm, pt.baseWidthCm, b.lengthCm, b.widthCm);
    TypeInfo(BoxesPerLayer(pt.baseLengthCm, pt.baseWidthCm, b.lengthCm, b.widthCm), b.heightCm, b.weight)
  }

  /** The info table: one entry per kind that has a box type. */
  function BuildInfo(pt: PalletType, boxTypes: map<ItemType, BoxSpec>): (r: Info)
    requires FootprintsDefined(boxTypes)
    ensures forall t :: t in r <==> t in boxTypes
  {
    map t | t in boxTypes :: InfoFor(pt, boxTypes[t])
  }

  /** The info loop of the simulation, over the kinds in priority order. */
  method CollectInfo(pt: PalletType, boxTypes: map<ItemType, BoxSpec>) returns (info: Info)
    requires FootprintsDefined(boxTypes)
    ensures info == BuildInfo(pt, boxTypes)
  {
    PriorityRank();
    info := map[];
    for k := 0 to |Priority|
      invariant forall t :: t in info <==> t in boxTypes && Rank(t) < k
      invariant forall t :: t in info ==> info[t] == InfoFor(pt, boxTypes[t])
    {
      var code := Priority[k];
      if code !in boxTypes { continue; }
      info := info[code := InfoFor(pt, boxTypes[code])];
    }
  }

  /** The first kind, in priority order from position k, whose data is unusable. */
  function FirstInvalidFrom(info: Info, k: nat): (r: Option<ItemType>)
    requires k <= |Priority|
    ensures r.Some? ==> r.value in info && !ValidType(info[r.value]) && k <= Rank(r.value)
    ensures r.Some? ==> forall u :: u in info && k <= Rank(u) < Rank(r.value) ==> ValidType(info[u])
    ensures r.None? <==> forall u :: u in info && k <= Rank(u) ==> ValidType(info[u])
    decreases |Priority| - k
  {
    PriorityRank();
    if k == |Priority| then None
    else if Priority[k] in info && !ValidType(info[Priority[k]]) then Some(Priority[k])
    else FirstInvalidFrom(info, k + 1)
  }

  /** The validation loop: none exactly when every kind's data is usable. */
  function FirstInvalid(info: Info): (r: Option<ItemType>)
    ensures r.None? <==> ValidInfo(info)
    ensures r.Some? ==> r.value in info && !ValidType(info[r.value])
    ensures r.Some? ==> forall u :: u in info && Rank(u) < Rank(r.value) ==> ValidType(info[u])
  {
    FirstInvalidFrom(info, 0)
  }

  method FindInvalid(info: Info) returns (r: Option<ItemType>)
    ensures r == FirstInvalid(info)
  {
    PriorityRank();
    for k := 0 to |Priority|
      invariant FirstInvalidFrom(info, k) == FirstInvalidFrom(info, 0)
    {
      var code := Priority[k];
      if code in info && !ValidType(info[code]) {
        return Some(code);
      }
    }
    return None;
  }

  /** Totals over a pallet's layers, bottom-up. */
  function LayerCounts(ls: seq<Layer>): Counts
  {
    if ls == [] then Zero else LayerCounts(ls[..|ls| - 1]).Plus(ls[|ls| - 1].counts)
  }

  function LayerHeights(ls: seq<Layer>): int
  {
    if ls == [] then 0 else LayerHeights(ls[..|ls| - 1]) + ls[|ls| - 1].heightCm
  }

  function LayerWeights(ls: seq<Layer>): int
  {
    if ls == [] then 0 else LayerWeights(ls[..|ls| - 1]) + ls[|ls| - 1].weight
  }

  function SeparatorCount(ls: seq<Layer>): nat
  {
    if ls == [] then 0 else SeparatorCount(ls[..|ls| - 1]) + (if ls[|ls| - 1].needsSeparator then 1 else 0)
  }

  /** A pallet's figures agree with its layers: the load is the layers'
      boxes, the height and weight left are the budget minus the layers'
      and never negative, one separator per layer that needs one, and every
      layer is sound. */
  ghost predicate AddsUp(load: Counts, layers: seq<Layer>, separatorsUsed: nat, heightLeft: int, weightLeft: int,
                         maxH: int, maxW: int, info: Info)
  {
    load == LayerCounts(layers)
    && heightLeft == maxH - LayerHeights(layers) && heightLeft >= 0
    && weightLeft == maxW - LayerWeights(layers) && weightLeft >= 0
    && separatorsUsed == SeparatorCount(layers)
    && AllSound(layers, info)
  }

  /** Every layer of ls is sound. */
  ghost predicate AllSound(ls: seq<Layer>, info: Info)
  {
    ls == [] || (AllSound(ls[..|ls| - 1], info) && LayerSound(ls[|ls| - 1], info))
  }

  /** A committed pallet: it adds up and carries at least one box. */
  ghost predicate PalletOk(p: Pallet, pt: PalletType, info: Info)
  {
    AddsUp(p.load, p.layers, p.separatorsUsed, p.heightLeftCm, p.weightLeft, pt.maxHeightCm, MaxWeight(pt), info)
    && p.load.Total() >= 1
  }

  /** The state of the layer loop: the pallet being built and the demand left. */
  datatype PalletState = PalletState(load: Counts, layers: seq<Layer>, separatorsUsed: nat, heightLeft: int,
                                     weightLeft: int, remaining: Counts)

  ghost predicate Coherent(st: PalletState, pt: PalletType, info: Info)
  {
    AddsUp(st.load, st.layers, st.separatorsUsed, st.heightLeft, st.weightLeft, pt.maxHeightCm, MaxWeight(pt), info)
  }

  /** An empty pallet of the given type for the given demand. */
  function EmptyPallet(pt: PalletType, remaining: Counts): PalletState
  {
    PalletState(Zero, [], 0, pt.maxHeightCm, MaxWeight(pt), remaining)
  }

  lemma EmptyCoherent(pt: PalletType, remaining: Counts, info: Info)
    ensures Coherent(EmptyPallet(pt, remaining), pt, info)
  {}

  /** Put a layer on the pallet: its boxes move from the demand to the
      load, its height and weight come off what is left, and a layer that
      needs a separator uses one. */
  function Commit(st: PalletState, l: Layer): PalletState
    requires l.counts.Le(st.remaining)
  {
    PalletState(st.load.Plus(l.counts), st.layers + [l],
                st.separatorsUsed + (if l.needsSeparator then 1 else 0),
                st.heightLeft - l.heightCm, st.weightLeft - l.weight, st.remaining.Minus(l.counts))
  }

  /** Committing a layer moves boxes without creating or losing any. */
  lemma CommitConserves(st: PalletState, l: Layer)
    requires l.counts.Le(st.remaining)
    ensures var st' := Commit(st, l);
      st'.load.Plus(st'.remaining) == st.load.Plus(st.remaining)
      && st'.remaining.Le(st.remaining)
      && st'.remaining.Total() == st.remaining.Total() - l.counts.Total()
  {}

  lemma CommitKeepsCoherent(st: PalletState, l: Layer, pt: PalletType, info: Info)
    requires Coherent(st, pt, info) && LayerSound(l, info)
    requires l.counts.Le(st.remaining) && l.heightCm <= st.heightLeft && l.weight <= st.weightLeft
    ensures Coherent(Commit(st, l), pt, info)
  {
    var ls := st.layers + [l];
    assert ls[..|ls| - 1] == st.layers;
  }

  /** A layer FlatLayer builds that is no taller than the height left can
      be committed: it takes at least one box, keeps the pallet coherent and
      moves boxes from the demand to the load. */
  lemma LayerCommits(st: PalletState, pt: PalletType, info: Info, allowSeparators: bool, base: ItemType,
                     layer: Layer)
    requires ValidInfo(info) && Coherent(st, pt, info)
    requires FlatLayer(base, st.remaining, info, st.heightLeft, st.weightLeft, allowSeparators) == Some(layer)
    requires layer.heightCm <= st.heightLeft
    ensures layer.counts.Le(st.remaining)
    ensures var st' := Commit(st, layer);
      && Coherent(st', pt, info)
      && st'.remaining.Total() < st.remaining.Total()
      && st'.load.Plus(st'.remaining) == st.load.Plus(st.remaining)
      && st'.remaining.Le(st.remaining)
      && st.layers <= st'.layers
  {
    assert LayerSound(layer, info) && layer.counts.Get(layer.baseType) >= 1;
    assert layer.counts.Total() > 0;
    CommitKeepsCoherent(st, layer, pt, info);
    CommitConserves(st, layer);
  }

  /** The layer loop of one pallet: pick a base, build a layer, stop when
      nothing can start a layer, when the layer is taller than the height
      left, when height or weight is used up, or when the demand is met. */
  function FillPallet(st: PalletState, pt: PalletType, info: Info, allowSeparators: bool): (r: PalletState)
    requires ValidInfo(info) && Coherent(st, pt, info)
    ensures Coherent(r, pt, info)
    ensures r.load.Plus(r.remaining) == st.load.Plus(st.remaining)
    ensures r.remaining.Le(st.remaining)
    ensures st.layers <= r.layers
    decreases st.remaining.Total()
  {
    match PickBaseType(st.remaining, info, st.heightLeft, st.weightLeft)
    case None => st
    case Some(base) =>
      match FlatLayer(base, st.remaining, info, st.heightLeft, st.weightLeft, allowSeparators)
      case None => st
      case Some(layer) =>
        if layer.heightCm > st.heightLeft then st
        else
          LayerCommits(st, pt, info, allowSeparators, base, layer);
          var st' := Commit(st, layer);
          if st'.heightLeft <= 0 || st'.weightLeft <= 0 || st'.remaining.Total() <= 0 then st'
          else FillPallet(st', pt, info, allowSeparators)
  }

  /** One round of the layer loop that puts a layer on the pallet. */
  lemma FillPalletCommits(st: PalletState, pt: PalletType, info: Info, allowSeparators: bool, layer: Layer)
    requires ValidInfo(info) && Coherent(st, pt, info)
    requires PickBaseType(st.remaining, info, st.heightLeft, st.weightLeft).Some?
    requires Some(layer) == FlatLayer(PickBaseType(st.remaining, info, st.heightLeft, st.weightLeft).value,
                                      st.remaining, info, st.heightLeft, st.weightLeft, allowSeparators)
    requires layer.heightCm <= st.heightLeft
    ensures layer.counts.Le(st.remaining)
    ensures Coherent(Commit(st, layer), pt, info)
    ensures Commit(st, layer).remaining.Total() < st.remaining.Total()
    ensures var st' := Commit(st, layer);
      FillPallet(st, pt, info, allowSeparators)
      == if st'.heightLeft <= 0 || st'.weightLeft <= 0 || st'.remaining.Total() <= 0 then st'
         else FillPallet(st', pt, info, allowSeparators)
  {
    LayerCommits(st, pt, info, allowSeparators, PickBaseType(st.remaining, info, st.heightLeft, st.weightLeft).value,
                 layer);
  }

  /** A round of the layer loop that puts no layer on the pallet ends it. */
  lemma FillPalletStops(st: PalletState, pt: PalletType, info: Info, allowSeparators: bool)
    requires ValidInfo(info) && Coherent(st, pt, info)
    requires var base := PickBaseType(st.remaining, info, st.heightLeft, st.weightLeft);
      || base.None?
      || FlatLayer(base.value, st.remaining, info, st.heightLeft, st.weightLeft, allowSeparators).None?
      || FlatLayer(base.value, st.remaining, info, st.heightLeft, st.weightLeft, allowSeparators).value.heightCm
         > st.heightLeft
    ensures FillPallet(st, pt, info, allowSeparators) == st
  {}

  /** The outcome of the pallet loop: it ran out of demand, limit or guard
      (Packed), or met a pallet that took no box (Aborted). */
  datatype PackOutcome = Packed(remaining: Counts, pallets: seq<Pallet>) | Aborted(remaining: Counts)

  function ToPallet(st: PalletState): Pallet
  {
    Pallet(st.load, st.layers, st.separatorsUsed, st.heightLeft, st.weightLeft)
  }

  /** Shipping pallet p out of demand rem leaves rem' and keeps the books. */
  lemma ShipPallet(pallets: seq<Pallet>, p: Pallet, rem: Counts, rem': Counts)
    requires p.load.Plus(rem') == rem
    ensures SumLoads(pallets + [p]).Plus(rem') == SumLoads(pallets).Plus(rem)
    ensures rem'.Total() == rem.Total() - p.load.Total()
  {
    var ps := pallets + [p];
    assert ps[..|ps| - 1] == pallets;
    PlusAssoc(SumLoads(pallets), p.load, rem');
    TotalPlus(p.load, rem');
  }

  lemma AppendOk(pallets: seq<Pallet>, p: Pallet, pt: PalletType, info: Info)
    requires forall i :: 0 <= i < |pallets| ==> PalletOk(pallets[i], pt, info)
    requires PalletOk(p, pt, info)
    ensures forall i :: 0 <= i < |pallets + [p]| ==> PalletOk((pallets + [p])[i], pt, info)
  {}

  /** A pallet that took no box left the demand as it was. */
  lemma NothingLoaded(load: Counts, rem': Counts, rem: Counts)
    requires load.Plus(rem') == rem && load.Total() == 0
    ensures rem' == rem
  {
    TotalZero(load);
    PlusZero(rem');
  }

  /** What filling one more pallet does: an empty one leaves the demand as
      it was; otherwise it is a sound pallet whose load leaves the demand. */
  lemma NextPallet(remaining: Counts, pt: PalletType, info: Info, allowSeparators: bool, st: PalletState)
    requires ValidInfo(info)
    requires st == FillPallet(EmptyPallet(pt, remaining), pt, info, allowSeparators)
    ensures st.load.Total() == 0 ==> st.remaining == remaining
    ensures st.load.Total() > 0 ==>
              && PalletOk(ToPallet(st), pt, info)
              && st.remaining.Total() < remaining.Total()
              && ToPallet(st).load.Plus(st.remaining) == remaining
  {
    PlusZero(remaining);
    if st.load.Total() == 0 {
      NothingLoaded(st.load, st.remaining, remaining);
    } else {
      TotalPlus(st.load, st.remaining);
    }
  }

  /** The pallet loop from demand remaining, with pallets already built. */
  function PackFrom(remaining: Counts, pallets: seq<Pallet>, pt: PalletType, info: Info, allowSeparators: bool,
                    limit: Option<nat>): (r: PackOutcome)
    requires ValidInfo(info)
    ensures r.Packed? ==> pallets <= r.pallets
    ensures r.Aborted? ==> r.remaining.Total() > 0
    decreases remaining.Total()
  {
    if remaining.Total() <= 0 then Packed(remaining, pallets)
    else if limit.Some? && |pallets| >= limit.value then Packed(remaining, pallets)
    else if |pallets| + 1 > MaxIterations then Packed(remaining, pallets)
    else
      var st := FillPallet(EmptyPallet(pt, remaining), pt, info, allowSeparators);
      NextPallet(remaining, pt, info, allowSeparators, st);
      if st.load.Total() == 0 then Aborted(st.remaining)
      else PackFrom(st.remaining, pallets + [ToPallet(st)], pt, info, allowSeparators, limit)
  }

  /** The pallet loop keeps the books: the pallets' loads plus the demand
      left equal what there was to pack, and an abort leaves part of it. */
  lemma {:induction false} PackFromBooks(remaining: Counts, pallets: seq<Pallet>, pt: PalletType, info: Info,
                                         allowSeparators: bool, limit: Option<nat>)
    requires ValidInfo(info)
    ensures var r := PackFrom(remaining, pallets, pt, info, allowSeparators, limit);
      r.Packed? ==> SumLoads(r.pallets).Plus(r.remaining) == SumLoads(pallets).Plus(remaining)
    ensures var r := PackFrom(remaining, pallets, pt, info, allowSeparators, limit);
      r.Aborted? ==> r.remaining.Le(remaining)
    decreases remaining.Total()
  {
    if remaining.Total() > 0 && !(limit.Some? && |pallets| >= limit.value) && |pallets| + 1 <= MaxIterations {
      var st := FillPallet(EmptyPallet(pt, remaining), pt, info, allowSeparators);
      NextPallet(remaining, pt, info, allowSeparators, st);
      if st.load.Total() > 0 {
        ShipPallet(pallets, ToPallet(st), remaining, st.remaining);
        PlusMinus(ToPallet(st).load, st.remaining, remaining);
        PackFromBooks(st.remaining, pallets + [ToPallet(st)], pt, info, allowSeparators, limit);
      }
    }
  }

  /** Every pallet the loop adds is a sound, non-empty pallet. */
  lemma {:induction false} PackFromSound(remaining: Counts, pallets: seq<Pallet>, pt: PalletType, info: Info,
                                         allowSeparators: bool, limit: Option<nat>)
    requires ValidInfo(info)
    requires forall i :: 0 <= i < |pallets| ==> PalletOk(pallets[i], pt, info)
    ensures var r := PackFrom(remaining, pallets, pt, info, allowSeparators, limit);
      r.Packed? ==> forall i :: 0 <= i < |r.pallets| ==> PalletOk(r.pallets[i], pt, info)
    decreases remaining.Total()
  {
    if remaining.Total() > 0 && !(limit.Some? && |pallets| >= limit.value) && |pallets| + 1 <= MaxIterations {
      var st := FillPallet(EmptyPallet(pt, remaining), pt, info, allowSeparators);
      NextPallet(remaining, pt, info, allowSeparators, st);
      if st.load.Total() > 0 {
        AppendOk(pallets, ToPallet(st), pt, info);
        PackFromSound(st.remaining, pallets + [ToPallet(st)], pt, info, allowSeparators, limit);
      }
    }
  }

  /** The loop never builds more pallets than the limit or the guard allow,
      and stops short of the demand only when one of them is reached. */
  lemma {:induction false} PackFromBounds(remaining: Counts, pallets: seq<Pallet>, pt: PalletType, info: Info,
                                          allowSeparators: bool, limit: Option<nat>)
    requires ValidInfo(info)
    ensures var r := PackFrom(remaining, pallets, pt, info, allowSeparators, limit);
      r.Packed? && limit.Some? && |pallets| <= limit.value ==> |r.pallets| <= limit.value
    ensures var r := PackFrom(remaining, pallets, pt, info, allowSeparators, limit);
      r.Packed? && |pallets| <= MaxIterations ==> |r.pallets| <= MaxIterations
    ensures var r := PackFrom(remaining, pallets, pt, info, allowSeparators, limit);
      r.Packed? && r.remaining.Total() > 0 ==> (limit.Some? && |r.pallets| >= limit.value) || |r.pallets| >= MaxIterations
    decreases remaining.Total()
  {
    if remaining.Total() > 0 && !(limit.Some? && |pallets| >= limit.value) && |pallets| + 1 <= MaxIterations {
      var st := FillPallet(EmptyPallet(pt, remaining), pt, info, allowSeparators);
      NextPallet(remaining, pt, info, allowSeparators, st);
      if st.load.Total() > 0 {
        PackFromBounds(st.remaining, pallets + [ToPallet(st)], pt, info, allowSeparators, limit);
      }
    }
  }

  /** One round of the pallet loop, once the demand, limit and guard checks pass. */
  lemma PackFromRound(remaining: Counts, pallets: seq<Pallet>, pt: PalletType, info: Info, allowSeparators: bool,
                      limit: Option<nat>, st: PalletState)
    requires ValidInfo(info)
    requires remaining.Total() > 0 && !(limit.Some? && |pallets| >= limit.value) && |pallets| + 1 <= MaxIterations
    requires st == FillPallet(EmptyPallet(pt, remaining), pt, info, allowSeparators)
    ensures st.load.Total() == 0 ==>
              PackFrom(remaining, pallets, pt, info, allowSeparators, limit) == Aborted(st.remaining)
    ensures st.load.Total() > 0 ==>
              PackFrom(remaining, pallets, pt, info, allowSeparators, limit)
              == PackFrom(st.remaining, pallets + [ToPallet(st)], pt, info, allowSeparators, limit)
  {}

  /** The pallet loop stops when the demand is met, the limit is reached
      or the guard runs out. */
  lemma PackFromStops(remaining: Counts, pallets: seq<Pallet>, pt: PalletType, info: Info, allowSeparators: bool,
                      limit: Option<nat>)
    requires ValidInfo(info)
    requires remaining.Total() <= 0 || (limit.Some? && |pallets| >= limit.value) || |pallets| + 1 > MaxIterations
    ensures PackFrom(remaining, pallets, pt, info, allowSeparators, limit) == Packed(remaining, pallets)
  {}

  /** A run capped at n pallets succeeds whenever the uncapped run does,
      and builds the first pallets of the uncapped run. */
  lemma {:induction false} CappedRunIsPrefix(remaining: Counts, pallets: seq<Pallet>, pt: PalletType, info: Info,
                                             allowSeparators: bool, n: nat)
    requires ValidInfo(info)
    requires PackFrom(remaining, pallets, pt, info, allowSeparators, None).Packed?
    ensures PackFrom(remaining, pallets, pt, info, allowSeparators, Some(n)).Packed?
    ensures PackFrom(remaining, pallets, pt, info, allowSeparators, Some(n)).pallets
            <= PackFrom(remaining, pallets, pt, info, allowSeparators, None).pallets
    decreases remaining.Total()
  {
    if remaining.Total() > 0 && |pallets| < n && |pallets| + 1 <= MaxIterations {
      var st := FillPallet(EmptyPallet(pt, remaining), pt, info, allowSeparators);
      NextPallet(remaining, pt, info, allowSeparators, st);
      PackFromRound(remaining, pallets, pt, info, allowSeparators, None, st);
      PackFromRound(remaining, pallets, pt, info, allowSeparators, Some(n), st);
      if st.load.Total() > 0 {
        CappedRunIsPrefix(st.remaining, pallets + [ToPallet(st)], pt, info, allowSeparators, n);
      }
    }
  }

  /** The facts the simulation relies on about a run from scratch. */
  lemma PackFromStart(items: Counts, pt: PalletType, info: Info, allowSeparators: bool, limit: Option<nat>)
    requires ValidInfo(info)
    ensures var r := PackFrom(items, [], pt, info, allowSeparators, limit);
      && (r.Packed? ==> SumLoads(r.pallets).Plus(r.remaining) == items)
      && (r.Packed? ==> forall i :: 0 <= i < |r.pallets| ==> PalletOk(r.pallets[i], pt, info))
      && (r.Packed? && limit.Some? ==> |r.pallets| <= limit.value)
      && (r.Packed? ==> |r.pallets| <= MaxIterations)
      && (r.Packed? && r.remaining.Total() > 0 ==> (limit.Some? && |r.pallets| >= limit.value) || |r.pallets| >= MaxIterations)
      && (r.Aborted? ==> r.remaining.Le(items))
  {
    PackFromBooks(items, [], pt, info, allowSeparators, limit);
    PackFromSound(items, [], pt, info, allowSeparators, limit);
    PackFromBounds(items, [], pt, info, allowSeparators, limit);
    PlusZero(items);
  }

  /** Why a simulation produced no pallets. */
  datatype SimError = InvalidBoxData(itemType: ItemType) | NothingFits

  /** What simulatePackingForPalletType returns. */
  datatype SimResult = SimResult(
    palletCount: nat,
    pallets: seq<Pallet>,
    warnings: seq<Warning>,
    utilizations: seq<PalletUtilization>,
    packed: Counts,
    remaining: Counts,
    error: Option<SimError>,
    limitPallets: Option<nat>)

  /** simulatePackingForPalletType. */
  function Simulate(pt: PalletType, boxTypes: map<ItemType, BoxSpec>, items: Counts, allowSeparators: bool,
                    limit: Option<nat>): (r: SimResult)
    requires FootprintsDefined(boxTypes)
    ensures r.palletCount == |r.pallets| && r.limitPallets == limit
    ensures r.error.None? ==> r.packed.Plus(r.remaining) == items && r.packed == SumLoads(r.pallets)
    ensures r.error.Some? ==> r.palletCount == 0 && r.packed == Zero && r.remaining.Le(items) && r.warnings == []
    ensures r.error == Some(NothingFits) ==> r.remaining.Total() > 0
    ensures forall t :: r.error == Some(InvalidBoxData(t)) ==>
              t in boxTypes && !ValidType(InfoFor(pt, boxTypes[t])) && r.remaining == items
    ensures r.error.None? ==> forall t :: t in boxTypes ==> ValidType(InfoFor(pt, boxTypes[t]))
    ensures limit.Some? ==> r.palletCount <= limit.value
    ensures r.palletCount <= MaxIterations
    ensures r.error.None? && r.remaining.Total() > 0 ==>
              (limit.Some? && r.palletCount == limit.value) || r.palletCount == MaxIterations
    ensures |r.utilizations| == r.palletCount && |r.warnings| <= 1
  {
    var info := BuildInfo(pt, boxTypes);
    match FirstInvalid(info)
    case Some(t) => SimResult(0, [], [], [], Zero, items, Some(InvalidBoxData(t)), limit)
    case None =>
      PackFromStart(items, pt, info, allowSeparators, limit);
      match PackFrom(items, [], pt, info, allowSeparators, limit)
      case Aborted(rem) => SimResult(0, [], [], [], Zero, rem, Some(NothingFits), limit)
      case Packed(rem, ps) =>
        PlusMinus(SumLoads(ps), rem, items);
        var maxH, maxW := pt.maxHeightCm, MaxWeight(pt);
        SimResult(|ps|, ps, UnderutilizedWarnings(ps, maxH, maxW), Utilizations(ps, maxH, maxW),
                  items.Minus(rem), rem, None, limit)
  }

  /** The result of a simulation with unusable box data. */
  lemma SimulateInvalid(pt: PalletType, boxTypes: map<ItemType, BoxSpec>, items: Counts, allowSeparators: bool,
                        limit: Option<nat>, t: ItemType)
    requires FootprintsDefined(boxTypes) && FirstInvalid(BuildInfo(pt, boxTypes)) == Some(t)
    ensures Simulate(pt, boxTypes, items, allowSeparators, limit)
            == SimResult(0, [], [], [], Zero, items, Some(InvalidBoxData(t)), limit)
  {}

  /** The result of a simulation whose pallet loop aborted. */
  lemma SimulateAborted(pt: PalletType, boxTypes: map<ItemType, BoxSpec>, items: Counts, allowSeparators: bool,
                        limit: Option<nat>, rem: Counts)
    requires FootprintsDefined(boxTypes) && FirstInvalid(BuildInfo(pt, boxTypes)).None?
    requires PackFrom(items, [], pt, BuildInfo(pt, boxTypes), allowSeparators, limit) == Aborted(rem)
    ensures Simulate(pt, boxTypes, items, allowSeparators, limit)
            == SimResult(0, [], [], [], Zero, rem, Some(NothingFits), limit)
  {}

  /** The result of a simulation whose pallet loop built ps and left rem. */
  lemma SimulatePacked(pt: PalletType, boxTypes: map<ItemType, BoxSpec>, items: Counts, allowSeparators: bool,
                       limit: Option<nat>, rem: Counts, ps: seq<Pallet>)
    requires FootprintsDefined(boxTypes) && FirstInvalid(BuildInfo(pt, boxTypes)).None?
    requires PackFrom(items, [], pt, BuildInfo(pt, boxTypes), allowSeparators, limit) == Packed(rem, ps)
    requires SumLoads(ps).Plus(rem) == items
    ensures rem.Le(items)
    ensures var maxH, maxW := pt.maxHeightCm, MaxWeight(pt);
      Simulate(pt, boxTypes, items, allowSeparators, limit)
      == SimResult(|ps|, ps, UnderutilizedWarnings(ps, maxH, maxW), Utilizations(ps, maxH, maxW),
                   items.Minus(rem), rem, None, limit)
  {
    PlusMinus(SumLoads(ps), rem, items);
  }

  /** Every pallet of a simulation respects the pallet type's limits. */
  lemma SimulatedPalletsOk(pt: PalletType, boxTypes: map<ItemType, BoxSpec>, items: Counts, allowSeparators: bool,
                           limit: Option<nat>)
    requires FootprintsDefined(boxTypes)
    ensures var r := Simulate(pt, boxTypes, items, allowSeparators, limit);
      forall i :: 0 <= i < |r.pallets| ==> PalletOk(r.pallets[i], pt, BuildInfo(pt, boxTypes))
  {
    var info := BuildInfo(pt, boxTypes);
    var r := Simulate(pt, boxTypes, items, allowSeparators, limit);
    if FirstInvalid(info).None? {
      PackFromSound(items, [], pt, info, allowSeparators, limit);
      var out := PackFrom(items, [], pt, info, allowSeparators, limit);
      assert r.pallets == (if out.Packed? then out.pallets else []);
    } else {
      assert r.pallets == [];
    }
  }

  /** A pallet type whose uncapped simulation succeeds also succeeds under
      any pallet limit, building the first pallets of the uncapped plan. */
  lemma CappedSimulation(pt: PalletType, boxTypes: map<ItemType, BoxSpec>, items: Counts, allowSeparators: bool,
                         n: nat)
    requires FootprintsDefined(boxTypes)
    requires Simulate(pt, boxTypes, items, allowSeparators, None).error.None?
    ensures Simulate(pt, boxTypes, items, allowSeparators, Some(n)).error.None?
    ensures Simulate(pt, boxTypes, items, allowSeparators, Some(n)).pallets
            <= Simulate(pt, boxTypes, items, allowSeparators, None).pallets
  {
    var info := BuildInfo(pt, boxTypes);
    assert FirstInvalid(info).None?;
    CappedRunIsPrefix(items, [], pt, info, allowSeparators, n);
  }

  /** The first half of a round of the layer loop: pick a base kind, build
      its layer, and give up when the layer is taller than the height left.
      No layer ends the pallet; a layer is one the loop may commit. */
  method NextLayer(remaining: Counts, info: Info, heightLeft: int, weightLeft: int, allowSeparators: bool,
                   ghost st: PalletState, ghost pt: PalletType)
    returns (layer: Option<Layer>)
    requires ValidInfo(info) && Coherent(st, pt, info)
    requires st.remaining == remaining && st.heightLeft == heightLeft && st.weightLeft == weightLeft
    ensures layer.None? ==> FillPallet(st, pt, info, allowSeparators) == st
    ensures layer.Some? ==>
              && layer.value.counts.Le(remaining)
              && Coherent(Commit(st, layer.value), pt, info)
              && Commit(st, layer.value).remaining.Total() < remaining.Total()
              && var st' := Commit(st, layer.value);
                 FillPallet(st, pt, info, allowSeparators)
                 == if st'.heightLeft <= 0 || st'.weightLeft <= 0 || st'.remaining.Total() <= 0 then st'
                    else FillPallet(st', pt, info, allowSeparators)
  {
    var baseType := PickBaseType(remaining, info, heightLeft, weightLeft);
    if baseType.None? {
      FillPalletStops(st, pt, info, allowSeparators);
      return None;
    }
    layer := BuildFlatLayerWithFill(baseType.value, remaining, info, heightLeft, weightLeft, allowSeparators);
    if layer.None? {
      FillPalletStops(st, pt, info, allowSeparators);
      return;
    }
    // a fill kind taller than the height left closes the pallet
    if layer.value.heightCm > heightLeft {
      FillPalletStops(st, pt, info, allowSeparators);
      return None;
    }
    FillPalletCommits(st, pt, info, allowSeparators, layer.value);
  }

  /** The layer loop of simulatePackingForPalletType for one pallet; st
      holds the loop's load, layers, separator count, height and weight
      left, and the demand left. */
  method FillOnePallet(pt: PalletType, info: Info, remaining0: Counts, allowSeparators: bool)
    returns (st: PalletState)
    requires ValidInfo(info)
    ensures st == FillPallet(EmptyPallet(pt, remaining0), pt, info, allowSeparators)
  {
    st := EmptyPallet(pt, remaining0);
    EmptyCoherent(pt, remaining0, info);
    ghost var start := st;
    while true
      invariant Coherent(st, pt, info)
      invariant FillPallet(st, pt, info, allowSeparators) == FillPallet(start, pt, info, allowSeparators)
      decreases st.remaining.Total()
    {
      var layer := NextLayer(st.remaining, info, st.heightLeft, st.weightLeft, allowSeparators, st, pt);
      if layer.None? { break; }
      st := Commit(st, layer.value);
      if st.heightLeft <= 0 || st.weightLeft <= 0 { break; }
      if st.remaining.Total() <= 0 { break; }
    }
  }

  /** simulatePackingForPalletType: build the info table, reject unusable
      box data, then fill pallets until the demand, the limit or the guard
      runs out; a pallet that takes no box aborts the run. */
  method SimulatePackingForPalletType(pt: PalletType, boxTypes: map<ItemType, BoxSpec>, items: Counts,
                                      allowSeparators: bool, limit: Option<nat>) returns (res: SimResult)
    requires FootprintsDefined(boxTypes)
    ensures res == Simulate(pt, boxTypes, items, allowSeparators, limit)
  {
    var remaining := items;
    var info := CollectInfo(pt, boxTypes);
    var invalid := FindInvalid(info);
    if invalid.Some? {
      SimulateInvalid(pt, boxTypes, items, allowSeparators, limit, invalid.value);
      return SimResult(0, [], [], [], Zero, remaining, Some(InvalidBoxData(invalid.value)), limit);
    }

    var pallets: seq<Pallet> := [];
    var guard := 0;
    PlusZero(items);
    while remaining.Total() > 0
      invariant guard == |pallets|
      invariant PackFrom(remaining, pallets, pt, info, allowSeparators, limit)
             == PackFrom(items, [], pt, info, allowSeparators, limit)
      invariant SumLoads(pallets).Plus(remaining) == items
      decreases remaining.Total()
    {
      if limit.Some? && |pallets| >= limit.value { break; }
      guard := guard + 1;
      if guard > MaxIterations { break; }

      var st := FillOnePallet(pt, info, remaining, allowSeparators);
      PackFromRound(remaining, pallets, pt, info, allowSeparators, limit, st);
      NextPallet(remaining, pt, info, allowSeparators, st);
      if st.load.Total() == 0 {
        SimulateAborted(pt, boxTypes, items, allowSeparators, limit, st.remaining);
        return SimResult(0, [], [], [], Zero, st.remaining, Some(NothingFits), limit);
      }
      ShipPallet(pallets, ToPallet(st), remaining, st.remaining);
      pallets := pallets + [ToPallet(st)];
      remaining := st.remaining;
    }
    PackFromStops(remaining, pallets, pt, info, allowSeparators, limit);
    SimulatePacked(pt, boxTypes, items, allowSeparators, limit, remaining, pallets);

    var maxH, maxW := pt.maxHeightCm, MaxWeight(pt);
    var utilizations := UtilizationsOf(pallets, maxH, maxW);
    var warnings := UnderutilizedWarnings(pallets, maxH, maxW);
    var packed := items.Minus(remaining);
    res := SimResult(|pallets|, pallets, warnings, utilizations, packed, remaining, None, limit);
  }

}
