// The layer builder: how many boxes of a kind fit on a pallet base, which
// kind starts the next layer, and how one flat layer is filled
// (PalletizationService::boxesPerLayer, pickBaseType, buildFlatLayerWithFill).

module LayerBuilder {
  import opened Domain

  /** Boxes of footprint boxL x boxW on a palletL x palletW base: the better
      of the unrotated and the 90-degree rotated grid. */
  function BoxesPerLayer(palletL: nat, palletW: nat, boxL: nat, boxW: nat): nat
    requires boxL > 0 && boxW > 0
  {
    var alongL: nat, acrossW: nat := palletL / boxL, palletW / boxW;
    var alongW: nat, acrossL: nat := palletL / boxW, palletW / boxL;
    MulNat(alongL, acrossW);
    MulNat(alongW, acrossL);
    Max(alongL * acrossW, alongW * acrossL)
  }

  lemma MulNat(x: nat, y: nat)
    ensures x * y >= 0
  {}

  lemma MulLeft(x: nat, y: nat, z: nat)
    requires x <= y
    ensures z * x <= z * y
  {}

  /** A grid of (L div a) by (W div b) boxes of a x b covers at most L x W. */
  lemma GridFits(palletL: nat, palletW: nat, a: nat, b: nat)
    requires a > 0 && b > 0
    ensures (palletL / a) * (palletW / b) * (a * b) <= palletL * palletW
  {
    var p, q := palletL / a, palletW / b;
    assert p * a <= palletL;
    assert q * b <= palletW;
    calc {
      p * q * (a * b);
      (p * a) * (q * b);
    <= { MulLeft(q * b, palletW, p * a); }
      (p * a) * palletW;
    <= { MulLeft(p * a, palletL, palletW); }
      palletL * palletW;
    }
  }

  /** The slot count is one of the two orientation grids and at least the
      other, does not depend on which side is called the length, and never
      claims more area than the base. */
  lemma BoxesPerLayerFits(palletL: nat, palletW: nat, boxL: nat, boxW: nat)
    requires boxL > 0 && boxW > 0
    ensures var r := BoxesPerLayer(palletL, palletW, boxL, boxW);
      r == (palletL / boxL) * (palletW / boxW) || r == (palletL / boxW) * (palletW / boxL)
    ensures BoxesPerLayer(palletL, palletW, boxL, boxW) >= (palletL / boxL) * (palletW / boxW)
    ensures BoxesPerLayer(palletL, palletW, boxL, boxW) >= (palletL / boxW) * (palletW / boxL)
    ensures BoxesPerLayer(palletL, palletW, boxL, boxW) == BoxesPerLayer(palletL, palletW, boxW, boxL)
    ensures BoxesPerLayer(palletL, palletW, boxL, boxW) * (boxL * boxW) <= palletL * palletW
  {
    GridFits(palletL, palletW, boxL, boxW);
    GridFits(palletL, palletW, boxW, boxL);
    assert boxW * boxL == boxL * boxW;
  }

  predicate ValidType(ti: TypeInfo)
  {
    ti.perLayer > 0 && ti.heightCm > 0 && ti.weight > 0
  }

  /** Every known kind has a positive slot count, height and weight. */
  predicate ValidInfo(info: Info)
  {
    forall t :: t in info ==> ValidType(info[t])
  }

  /** Kind t can start a layer: stock left, known, and one box fits the
      remaining height and weight. */
  predicate CanBase(t: ItemType, remaining: Counts, info: Info, heightLeft: int, weightLeft: int)
  {
    remaining.Get(t) > 0 && t in info && info[t].heightCm <= heightLeft && info[t].weight <= weightLeft
  }

  /** First kind from position k of Priority on that can start a layer. */
  function PickFrom(k: nat, remaining: Counts, info: Info, heightLeft: int, weightLeft: int): (r: Option<ItemType>)
    requires k <= |Priority|
    ensures r.Some? ==> k <= Rank(r.value) && CanBase(r.value, remaining, info, heightLeft, weightLeft)
    ensures r.Some? ==> forall u :: k <= Rank(u) < Rank(r.value) ==> !CanBase(u, remaining, info, heightLeft, weightLeft)
    ensures r.None? ==> forall u :: k <= Rank(u) ==> !CanBase(u, remaining, info, heightLeft, weightLeft)
    decreases |Priority| - k
  {
    PriorityRank();
    if k == |Priority| then None
    else if CanBase(Priority[k], remaining, info, heightLeft, weightLeft) then Some(Priority[k])
    else PickFrom(k + 1, remaining, info, heightLeft, weightLeft)
  }

  /** The base kind of the next layer: the first kind in priority order that
      can start one, and none exactly when no kind can. */
  function PickBaseType(remaining: Counts, info: Info, heightLeft: int, weightLeft: int): (r: Option<ItemType>)
    ensures r.Some? ==> CanBase(r.value, remaining, info, heightLeft, weightLeft)
    ensures r.Some? ==> forall u :: Rank(u) < Rank(r.value) ==> !CanBase(u, remaining, info, heightLeft, weightLeft)
    ensures r.None? <==> forall u :: !CanBase(u, remaining, info, heightLeft, weightLeft)
  {
    PickFrom(0, remaining, info, heightLeft, weightLeft)
  }

  /** Kinds allowed to top up a layer of the given base, in the order tried. */
  function FillOrder(base: ItemType): seq<ItemType>
  {
    match base
    case Tower => [MiniPc, Laptop]
    case Laptop => [MiniPc]
    case MiniPc => []
  }

  lemma FillOrderFacts(base: ItemType)
    ensures forall m :: 0 <= m < |FillOrder(base)| ==> FillOrder(base)[m] != base
    ensures forall i, j :: 0 <= i < j < |FillOrder(base)| ==> FillOrder(base)[i] != FillOrder(base)[j]
  {}

  function UnitWeight(t: ItemType, info: Info): int
  {
    if t in info then info[t].weight else 0
  }

  /** Weight of a set of boxes, in hundredths of kg. */
  function WeightOf(c: Counts, info: Info): int
  {
    c.tower * UnitWeight(Tower, info) + c.laptop * UnitWeight(Laptop, info) + c.miniPc * UnitWeight(MiniPc, info)
  }

  lemma WeightOfWith(c: Counts, t: ItemType, v: nat, info: Info)
    ensures WeightOf(c.With(t, v), info) == WeightOf(c, info) + (v - c.Get(t)) * UnitWeight(t, info)
  {
    var w := UnitWeight(t, info);
    assert v * w == c.Get(t) * w + (v - c.Get(t)) * w;
  }

  /** h is the height of the tallest kind present in c. */
  ghost predicate Tallest(h: int, c: Counts, info: Info)
  {
    (forall t :: c.Get(t) > 0 ==> t in info && info[t].heightCm <= h)
    && (exists t :: c.Get(t) > 0 && t in info && info[t].heightCm == h)
  }

  /** Every kind present in c is known and has height h. */
  ghost predicate UniformWith(c: Counts, info: Info, h: int)
  {
    forall t :: c.Get(t) > 0 ==> t in info && info[t].heightCm == h
  }

  /** Two kinds present in c have different heights. */
  ghost predicate MixedHeights(c: Counts, info: Info)
  {
    exists t1, t2 :: c.Get(t1) > 0 && c.Get(t2) > 0 && t1 in info && t2 in info
      && info[t1].heightCm != info[t2].heightCm
  }

  /** The kinds present in c among s, in the order of s. */
  function UsedIn(c: Counts, s: seq<ItemType>): (r: seq<ItemType>)
    ensures forall t :: t in r <==> t in s && c.Get(t) > 0
    ensures |r| <= |s|
  {
    if s == [] then []
    else UsedIn(c, s[..|s| - 1]) + (if c.Get(s[|s| - 1]) > 0 then [s[|s| - 1]] else [])
  }

  /** The kinds present in a layer, in priority order. */
  function TypesUsed(c: Counts): seq<ItemType>
  {
    UsedIn(c, Priority)
  }

  predicate HeightDiffers(ts: seq<ItemType>, info: Info, h0: nat)
  {
    exists k :: 0 <= k < |ts| && ts[k] in info && info[ts[k]].heightCm != h0
  }

  /** The separator flag as the builder computes it: separators allowed,
      more than one kind present, and some present kind's height differs
      from the first present kind's. */
  predicate NeedsSeparator(c: Counts, info: Info, allowSeparators: bool)
    requires forall t :: c.Get(t) > 0 ==> t in info
  {
    var used := TypesUsed(c);
    allowSeparators && |used| > 1 && HeightDiffers(used, info, info[used[0]].heightCm)
  }

  lemma NeedsSeparatorMixed(c: Counts, info: Info, allowSeparators: bool)
    requires forall t :: c.Get(t) > 0 ==> t in info
    requires NeedsSeparator(c, info, allowSeparators)
    ensures allowSeparators && MixedHeights(c, info)
  {
    var used := TypesUsed(c);
    var k :| 0 <= k < |used| && used[k] in info && info[used[k]].heightCm != info[used[0]].heightCm;
    assert used[k] in used && used[0] in used;
    assert c.Get(used[k]) > 0 && c.Get(used[0]) > 0;
  }

  lemma MixedNeedsSeparator(c: Counts, info: Info, allowSeparators: bool)
    requires forall t :: c.Get(t) > 0 ==> t in info
    requires allowSeparators && MixedHeights(c, info)
    ensures NeedsSeparator(c, info, allowSeparators)
  {
    var used := TypesUsed(c);
    var t1, t2 :| c.Get(t1) > 0 && c.Get(t2) > 0 && t1 in info && t2 in info
      && info[t1].heightCm != info[t2].heightCm;
    PriorityRank();
    assert Priority[Rank(t1)] == t1 && Priority[Rank(t2)] == t2;
    assert t1 in used && t2 in used;
    var h0 := info[used[0]].heightCm;
    var t := if info[t1].heightCm != h0 then t1 else t2;
    var k :| 0 <= k < |used| && used[k] == t;
    assert k != 0;
    assert used[k] in info && info[used[k]].heightCm != h0;
  }

  /** A separator is needed exactly when separators are allowed and two kinds
      of different heights share the layer. */
  lemma NeedsSeparatorIff(c: Counts, info: Info, allowSeparators: bool)
    requires forall t :: c.Get(t) > 0 ==> t in info
    ensures NeedsSeparator(c, info, allowSeparators) <==> allowSeparators && MixedHeights(c, info)
  {
    if NeedsSeparator(c, info, allowSeparators) {
      NeedsSeparatorMixed(c, info, allowSeparators);
    }
    if allowSeparators && MixedHeights(c, info) {
      MixedNeedsSeparator(c, info, allowSeparators);
    }
  }

  /** The running state of the fill loop. */
  datatype FillState = FillState(counts: Counts, slots: nat, layerWeight: int, maxHeight: nat)

  /** One pass of the fill loop for kind t: skip it when unknown, out of
      stock or (separators off) of a different height than the base;
      otherwise add as many as the free slots, stock and weight allow. */
  function FillStep(t: ItemType, st: FillState, base: ItemType, remaining: Counts, info: Info,
                    weightLeft: int, allowSeparators: bool): FillState
    requires ValidInfo(info) && base in info
  {
    if t !in info then st
    else if remaining.Get(t) <= 0 then st
    else if !allowSeparators && info[t].heightCm != info[base].heightCm then st
    else
      var boxKg := info[t].weight;
      var maxByStock := Min(st.slots, remaining.Get(t));
      var maxByWeight := (weightLeft - st.layerWeight) / boxKg;
      var add := Max(0, Min(maxByStock, maxByWeight));
      if add <= 0 then st
      else FillState(st.counts.With(t, st.counts.Get(t) + add), st.slots - add,
                     st.layerWeight + add * boxKg, Max(st.maxHeight, info[t].heightCm))
  }

  /** The fill loop over order from position k; it stops once no slot is free. */
  function Fill(order: seq<ItemType>, k: nat, st: FillState, base: ItemType, remaining: Counts,
                info: Info, weightLeft: int, allowSeparators: bool): FillState
    requires ValidInfo(info) && base in info && k <= |order|
    decreases |order| - k
  {
    if k == |order| || st.slots <= 0 then st
    else Fill(order, k + 1, FillStep(order[k], st, base, remaining, info, weightLeft, allowSeparators),
              base, remaining, info, weightLeft, allowSeparators)
  }

  /** What holds of the fill state throughout the fill loop. */
  ghost predicate FillInv(st: FillState, base: ItemType, perLayer: nat, remaining: Counts, info: Info,
                          weightLeft: int, allowSeparators: bool)
  {
    base in info
    && st.counts.Total() + st.slots == perLayer
    && st.counts.Le(remaining)
    && st.layerWeight == WeightOf(st.counts, info)
    && st.layerWeight <= weightLeft
    && Tallest(st.maxHeight, st.counts, info)
    && (!allowSeparators ==> UniformWith(st.counts, info, info[base].heightCm))
    && (forall t :: st.counts.Get(t) > 0 ==> t == base || t in FillOrder(base))
  }

  lemma MulDivLe(x: int, n: int, d: int)
    requires d > 0 && x <= n / d
    ensures x * d <= n
  {
    assert (n / d) * d <= n;
    assert x * d <= (n / d) * d;
  }

  lemma {:induction false} FillStepKeepsInv(t: ItemType, st: FillState, base: ItemType, perLayer: nat,
                                            remaining: Counts, info: Info, weightLeft: int, allowSeparators: bool)
    requires ValidInfo(info) && base in info
    requires FillInv(st, base, perLayer, remaining, info, weightLeft, allowSeparators)
    requires t != base && t in FillOrder(base) && st.counts.Get(t) == 0
    ensures var st' := FillStep(t, st, base, remaining, info, weightLeft, allowSeparators);
      FillInv(st', base, perLayer, remaining, info, weightLeft, allowSeparators)
      && forall u :: u != t ==> st'.counts.Get(u) == st.counts.Get(u)
  {
    var st' := FillStep(t, st, base, remaining, info, weightLeft, allowSeparators);
    if st' != st {
      var boxKg := info[t].weight;
      var maxByWeight := (weightLeft - st.layerWeight) / boxKg;
      var add := Max(0, Min(Min(st.slots, remaining.Get(t)), maxByWeight));
      assert add > 0;
      assert st'.counts == st.counts.With(t, add);
      WeightOfWith(st.counts, t, add, info);
      MulDivLe(add, weightLeft - st.layerWeight, boxKg);
      TallestWith(st.maxHeight, st.counts, info, t, add);
    }
  }

  /** Adding boxes of kind t raises the tallest height to t's when t is taller. */
  lemma TallestWith(h: int, c: Counts, info: Info, t: ItemType, v: nat)
    requires Tallest(h, c, info) && t in info && v > 0
    ensures Tallest(Max(h, info[t].heightCm), c.With(t, v), info)
  {
    var c' := c.With(t, v);
    var w :| c.Get(w) > 0 && w in info && info[w].heightCm == h;
    if info[t].heightCm >= h {
      assert c'.Get(t) > 0 && info[t].heightCm == Max(h, info[t].heightCm);
    } else {
      assert c'.Get(w) > 0 && info[w].heightCm == Max(h, info[t].heightCm);
    }
  }

  lemma {:induction false} FillKeepsInv(order: seq<ItemType>, k: nat, st: FillState, base: ItemType, perLayer: nat,
                                        remaining: Counts, info: Info, weightLeft: int, allowSeparators: bool)
    requires ValidInfo(info) && base in info && order == FillOrder(base) && k <= |order|
    requires FillInv(st, base, perLayer, remaining, info, weightLeft, allowSeparators)
    requires forall m :: k <= m < |order| ==> st.counts.Get(order[m]) == 0
    ensures var r := Fill(order, k, st, base, remaining, info, weightLeft, allowSeparators);
      FillInv(r, base, perLayer, remaining, info, weightLeft, allowSeparators)
      && r.counts.Get(base) == st.counts.Get(base)
    decreases |order| - k
  {
    if k < |order| && st.slots > 0 {
      FillOrderFacts(base);
      var st' := FillStep(order[k], st, base, remaining, info, weightLeft, allowSeparators);
      FillStepKeepsInv(order[k], st, base, perLayer, remaining, info, weightLeft, allowSeparators);
      assert forall m :: k + 1 <= m < |order| ==> order[m] != order[k];
      FillKeepsInv(order, k + 1, st', base, perLayer, remaining, info, weightLeft, allowSeparators);
    }
  }

  /** Fill kind t may top up a layer on base: it is one of the base's fill
      kinds, its data is known, and separators are allowed or its height is
      the base's. */
  predicate Eligible(t: ItemType, base: ItemType, info: Info, allowSeparators: bool)
  {
    t in FillOrder(base) && t in info && base in info
    && (allowSeparators || info[t].heightCm == info[base].heightCm)
  }

  /** No more of kind t could be added: its stock is used up, or one more
      box would exceed the weight left. */
  predicate ToppedUp(t: ItemType, c: Counts, layerWeight: int, remaining: Counts, info: Info, weightLeft: int)
    requires t in info
  {
    c.Get(t) == remaining.Get(t) || weightLeft - layerWeight < info[t].weight
  }

  lemma FloorBelow(n: int, d: int)
    requires d > 0
    ensures n - (n / d) * d < d
  {}

  /** One pass for kind t never frees slots or lightens the layer, touches
      no other kind, and leaves t topped up unless the slots ran out. */
  lemma FillStepTopsUp(t: ItemType, st: FillState, base: ItemType, remaining: Counts, info: Info,
                       weightLeft: int, allowSeparators: bool)
    requires ValidInfo(info) && base in info && st.counts.Get(t) == 0
    ensures var st' := FillStep(t, st, base, remaining, info, weightLeft, allowSeparators);
      && st'.slots <= st.slots
      && st'.layerWeight >= st.layerWeight
      && (forall u :: u != t ==> st'.counts.Get(u) == st.counts.Get(u))
      && (Eligible(t, base, info, allowSeparators) && st'.slots > 0 ==>
            ToppedUp(t, st'.counts, st'.layerWeight, remaining, info, weightLeft))
  {
    if Eligible(t, base, info, allowSeparators) && remaining.Get(t) > 0 {
      FloorBelow(weightLeft - st.layerWeight, info[t].weight);
    }
  }

  /** The fill loop tops up as far as it can: when a slot is still free at
      the end, every eligible kind from position k on has used its stock or
      met the weight limit. */
  lemma {:induction false} FillTopsUp(order: seq<ItemType>, k: nat, st: FillState, base: ItemType,
                                      remaining: Counts, info: Info, weightLeft: int, allowSeparators: bool)
    requires ValidInfo(info) && base in info && order == FillOrder(base) && k <= |order|
    requires forall m :: k <= m < |order| ==> st.counts.Get(order[m]) == 0
    ensures var r := Fill(order, k, st, base, remaining, info, weightLeft, allowSeparators);
      && r.slots <= st.slots
      && r.layerWeight >= st.layerWeight
      && (forall m :: 0 <= m < k ==> r.counts.Get(order[m]) == st.counts.Get(order[m]))
      && (r.slots > 0 ==> forall m :: k <= m < |order| && Eligible(order[m], base, info, allowSeparators) ==>
            ToppedUp(order[m], r.counts, r.layerWeight, remaining, info, weightLeft))
    decreases |order| - k
  {
    if k < |order| && st.slots > 0 {
      FillOrderFacts(base);
      var st' := FillStep(order[k], st, base, remaining, info, weightLeft, allowSeparators);
      FillStepTopsUp(order[k], st, base, remaining, info, weightLeft, allowSeparators);
      assert forall m :: 0 <= m < |order| && m != k ==> order[m] != order[k];
      FillTopsUp(order, k + 1, st', base, remaining, info, weightLeft, allowSeparators);
    }
  }

  /** What the builder promises about a layer it returns: it starts on the
      requested base with as many base boxes as slots, stock and weight
      allow, takes no more of any kind than is left, fits the weight budget,
      only tops up with the base's fill kinds, and is internally sound. */
  ghost predicate LayerFits(l: Layer, base: ItemType, remaining: Counts, info: Info, weightLeft: int,
                            allowSeparators: bool)
  {
    l.baseType == base && base in info && info[base].weight > 0
    && l.slotsTotal == info[base].perLayer
    && l.counts.Get(base) == Min(Min(info[base].perLayer, remaining.Get(base)), weightLeft / info[base].weight)
    && l.counts.Le(remaining)
    && l.weight <= weightLeft
    && l.allowSeparators == allowSeparators
    && (forall t :: l.counts.Get(t) > 0 ==> t == base || t in FillOrder(base))
    && LayerSound(l, info)
  }

  /** Internal soundness of a layer: at least one base box, the counts and
      the empty slots add up to the slot total, the weight is the boxes'
      weight, the height is the tallest kind's, heights are uniform when
      separators are off, and the separator flag says "mixed heights". */
  ghost predicate LayerSound(l: Layer, info: Info)
  {
    l.baseType in info
    && l.counts.Get(l.baseType) >= 1
    && l.counts.Total() + l.slotsEmpty == l.slotsTotal
    && l.weight == WeightOf(l.counts, info)
    && Tallest(l.heightCm, l.counts, info)
    && (!l.allowSeparators ==> UniformWith(l.counts, info, info[l.baseType].heightCm) && !l.needsSeparator)
    && (l.needsSeparator <==> l.allowSeparators && MixedHeights(l.counts, info))
  }

  /** A layer with a free slot left could not have taken one more box of
      any eligible fill kind: each has used its stock or would overload. */
  ghost predicate ToppedLayer(l: Layer, base: ItemType, remaining: Counts, info: Info, weightLeft: int,
                              allowSeparators: bool)
  {
    l.slotsEmpty > 0 ==>
      forall t :: Eligible(t, base, info, allowSeparators) ==>
        ToppedUp(t, l.counts, l.weight, remaining, info, weightLeft)
  }

  /** Fill from the start state of a layer leaves it topped up. */
  lemma FillToppedUp(base: ItemType, start: FillState, remaining: Counts, info: Info, weightLeft: int,
                     allowSeparators: bool)
    requires ValidInfo(info) && base in info
    requires forall t :: t in FillOrder(base) ==> start.counts.Get(t) == 0
    ensures var st := Fill(FillOrder(base), 0, start, base, remaining, info, weightLeft, allowSeparators);
      st.slots > 0 ==> forall t :: Eligible(t, base, info, allowSeparators) ==>
        ToppedUp(t, st.counts, st.layerWeight, remaining, info, weightLeft)
  {
    var order := FillOrder(base);
    FillTopsUp(order, 0, start, base, remaining, info, weightLeft, allowSeparators);
    var st := Fill(order, 0, start, base, remaining, info, weightLeft, allowSeparators);
    forall t | st.slots > 0 && Eligible(t, base, info, allowSeparators)
      ensures ToppedUp(t, st.counts, st.layerWeight, remaining, info, weightLeft)
    {
      var m :| 0 <= m < |order| && order[m] == t;
    }
  }

  /** The layer buildFlatLayerWithFill returns: none unless the base kind can
      start a layer, otherwise a layer that fits (LayerFits); it is also
      topped up as far as stock and weight allow (FlatLayerToppedUp). */
  function FlatLayer(base: ItemType, remaining: Counts, info: Info, heightLeft: int, weightLeft: int,
                     allowSeparators: bool): (r: Option<Layer>)
    requires ValidInfo(info)
    ensures r.Some? <==> CanBase(base, remaining, info, heightLeft, weightLeft)
    ensures r.Some? ==> LayerFits(r.value, base, remaining, info, weightLeft, allowSeparators)
  {
    if base !in info || info[base].perLayer <= 0 || info[base].heightCm > heightLeft
       || info[base].weight > weightLeft then None
    else
      var bi := info[base];
      var baseBoxes := Max(0, Min(Min(bi.perLayer, remaining.Get(base)), weightLeft / bi.weight));
      if baseBoxes <= 0 then None
      else
        var start := FillState(Zero.With(base, baseBoxes), bi.perLayer - baseBoxes, baseBoxes * bi.weight, bi.heightCm);
        LayerStart(base, baseBoxes, remaining, info, weightLeft, allowSeparators);
        var order := FillOrder(base);
        FillOrderFacts(base);
        FillKeepsInv(order, 0, start, base, bi.perLayer, remaining, info, weightLeft, allowSeparators);
        var st := Fill(order, 0, start, base, remaining, info, weightLeft, allowSeparators);
        NeedsSeparatorIff(st.counts, info, allowSeparators);
        Some(Layer(base, st.counts, st.maxHeight, st.layerWeight, bi.perLayer, st.slots,
                   NeedsSeparator(st.counts, info, allowSeparators), allowSeparators))
  }

  /** The fill loop tops the layer up: while slots are left, every kind that
      may join the base has either run out of stock or would break the
      weight limit with one more box. */
  lemma FlatLayerToppedUp(base: ItemType, remaining: Counts, info: Info, heightLeft: int, weightLeft: int,
                          allowSeparators: bool)
    requires ValidInfo(info)
    ensures var r := FlatLayer(base, remaining, info, heightLeft, weightLeft, allowSeparators);
      r.Some? ==> ToppedLayer(r.value, base, remaining, info, weightLeft, allowSeparators)
  {
    if FlatLayer(base, remaining, info, heightLeft, weightLeft, allowSeparators).Some? {
      var bi := info[base];
      var baseBoxes := Max(0, Min(Min(bi.perLayer, remaining.Get(base)), weightLeft / bi.weight));
      var start := FillState(Zero.With(base, baseBoxes), bi.perLayer - baseBoxes, baseBoxes * bi.weight, bi.heightCm);
      FillOrderFacts(base);
      FillToppedUp(base, start, remaining, info, weightLeft, allowSeparators);
    }
  }

  lemma LayerStart(base: ItemType, baseBoxes: nat, remaining: Counts, info: Info, weightLeft: int, allowSeparators: bool)
    requires ValidInfo(info) && base in info
    requires 0 < baseBoxes <= Min(Min(info[base].perLayer, remaining.Get(base)), weightLeft / info[base].weight)
    ensures var bi := info[base];
      FillInv(FillState(Zero.With(base, baseBoxes), bi.perLayer - baseBoxes, baseBoxes * bi.weight, bi.heightCm),
              base, bi.perLayer, remaining, info, weightLeft, allowSeparators)
  {
    var bi := info[base];
    var c := Zero.With(base, baseBoxes);
    WeightOfWith(Zero, base, baseBoxes, info);
    MulDivLe(baseBoxes, weightLeft, bi.weight);
    assert c.Get(base) > 0 && base in info && info[base].heightCm == bi.heightCm;
    assert Tallest(bi.heightCm, c, info);
  }

  /** FlatLayer once the base checks pass and baseBoxes base boxes are placed. */
  lemma FlatLayerBuilt(base: ItemType, remaining: Counts, info: Info, heightLeft: int, weightLeft: int,
                       allowSeparators: bool, baseBoxes: int, st: FillState)
    requires ValidInfo(info) && base in info
    requires info[base].perLayer > 0 && info[base].heightCm <= heightLeft && info[base].weight <= weightLeft
    requires baseBoxes == Max(0, Min(Min(info[base].perLayer, remaining.Get(base)), weightLeft / info[base].weight))
    requires baseBoxes > 0
    requires st == Fill(FillOrder(base), 0,
                        FillState(Zero.With(base, baseBoxes), info[base].perLayer - baseBoxes,
                                  baseBoxes * info[base].weight, info[base].heightCm),
                        base, remaining, info, weightLeft, allowSeparators)
    requires forall t :: st.counts.Get(t) > 0 ==> t in info
    ensures FlatLayer(base, remaining, info, heightLeft, weightLeft, allowSeparators)
            == Some(Layer(base, st.counts, st.maxHeight, st.layerWeight, info[base].perLayer, st.slots,
                          NeedsSeparator(st.counts, info, allowSeparators), allowSeparators))
  {}

  /** buildFlatLayerWithFill: place as many base boxes as fit, then top up
      the free slots with the base's fill kinds, then decide the separator. */
  method BuildFlatLayerWithFill(base: ItemType, remaining: Counts, info: Info, heightLeft: int, weightLeft: int,
                                allowSeparators: bool) returns (layer: Option<Layer>)
    requires ValidInfo(info)
    ensures layer == FlatLayer(base, remaining, info, heightLeft, weightLeft, allowSeparators)
    ensures layer.Some? <==> CanBase(base, remaining, info, heightLeft, weightLeft)
    ensures layer.Some? ==> LayerFits(layer.value, base, remaining, info, weightLeft, allowSeparators)
    ensures layer.Some? ==> ToppedLayer(layer.value, base, remaining, info, weightLeft, allowSeparators)
  {
    if base !in info { return None; }
    var perLayer := info[base].perLayer;
    var baseH := info[base].heightCm;
    if perLayer <= 0 { return None; }
    if baseH > heightLeft { return None; }
    if info[base].weight > weightLeft { return None; }

    // 1) as many base boxes as slots, stock and weight allow
    var slots := perLayer;
    var canBaseByStock := Min(slots, remaining.Get(base));
    var canBaseByWeight := weightLeft / info[base].weight;
    var baseBoxes := Max(0, Min(canBaseByStock, canBaseByWeight));
    if baseBoxes <= 0 { return None; }

    var counts := Zero.With(base, baseBoxes);
    slots := slots - baseBoxes;
    var layerWeight := baseBoxes * info[base].weight;
    var maxHeightInLayer: nat := baseH;

    // 2) top up the free slots with the kinds this base allows
    var fillOrder := FillOrder(base);
    var st := FillSlots(fillOrder, FillState(counts, slots, layerWeight, maxHeightInLayer), base, remaining, info,
                        weightLeft, allowSeparators);
    counts, slots, layerWeight, maxHeightInLayer := st.counts, st.slots, st.layerWeight, st.maxHeight;

    // 3) a separator is needed when present kinds differ in height
    var needsSeparator := SeparatorNeeded(counts, info, allowSeparators);
    FlatLayerBuilt(base, remaining, info, heightLeft, weightLeft, allowSeparators, baseBoxes, st);
    FlatLayerToppedUp(base, remaining, info, heightLeft, weightLeft, allowSeparators);

    layer := Some(Layer(base, counts, maxHeightInLayer, layerWeight, perLayer, slots, needsSeparator, allowSeparators));
  }

  /** The fill loop of buildFlatLayerWithFill, run over the kinds of order. */
  method FillSlots(order: seq<ItemType>, start: FillState, base: ItemType, remaining: Counts, info: Info,
                   weightLeft: int, allowSeparators: bool) returns (st: FillState)
    requires ValidInfo(info) && base in info
    requires forall t :: start.counts.Get(t) > 0 ==> t in info
    ensures st == Fill(order, 0, start, base, remaining, info, weightLeft, allowSeparators)
    ensures forall t :: st.counts.Get(t) > 0 ==> t in info
  {
    var counts := start.counts;
    var slots: nat := start.slots;
    var layerWeight := start.layerWeight;
    var maxHeightInLayer: nat := start.maxHeight;
    for k := 0 to |order|
      invariant forall t :: counts.Get(t) > 0 ==> t in info
      invariant Fill(order, k, FillState(counts, slots, layerWeight, maxHeightInLayer), base, remaining, info,
                     weightLeft, allowSeparators)
             == Fill(order, 0, start, base, remaining, info, weightLeft, allowSeparators)
    {
      if slots <= 0 { break; }
      var code := order[k];
      if code !in info { continue; }
      if remaining.Get(code) <= 0 { continue; }
      // without separators only kinds of the base's height may share the layer
      if !allowSeparators && info[code].heightCm != info[base].heightCm { continue; }
      var boxKg := info[code].weight;
      var maxByStock := Min(slots, remaining.Get(code));
      var maxByWeight := (weightLeft - layerWeight) / boxKg;
      var add := Max(0, Min(maxByStock, maxByWeight));
      if add <= 0 { continue; }
      counts := counts.With(code, counts.Get(code) + add);
      slots := slots - add;
      layerWeight := layerWeight + add * boxKg;
      maxHeightInLayer := Max(maxHeightInLayer, info[code].heightCm);
    }
    st := FillState(counts, slots, layerWeight, maxHeightInLayer);
  }

  /** The separator decision of buildFlatLayerWithFill: collect the kinds
      present in priority order, then look for one whose height differs from
      the first one's. */
  method SeparatorNeeded(counts: Counts, info: Info, allowSeparators: bool) returns (needsSeparator: bool)
    requires forall t :: counts.Get(t) > 0 ==> t in info
    ensures needsSeparator == NeedsSeparator(counts, info, allowSeparators)
  {
    needsSeparator := false;
    if allowSeparators {
      var typesUsed := CollectTypesUsed(counts);
      if |typesUsed| > 1 {
        assert forall k :: 0 <= k < |typesUsed| ==> typesUsed[k] in info by {
          forall k | 0 <= k < |typesUsed| ensures typesUsed[k] in info {
            assert typesUsed[k] in typesUsed;
          }
        }
        // the source keeps the first used kind's height as the reference
        var h0 := info[typesUsed[0]].heightCm;
        needsSeparator := FindOtherHeight(typesUsed, info, h0);
      }
    }
  }

  /** The kinds present in a layer, collected in priority order. */
  method CollectTypesUsed(counts: Counts) returns (typesUsed: seq<ItemType>)
    ensures typesUsed == TypesUsed(counts)
  {
    typesUsed := [];
    for k := 0 to |Priority|
      invariant typesUsed == UsedIn(counts, Priority[..k])
    {
      assert Priority[..k + 1][..k] == Priority[..k];
      if counts.Get(Priority[k]) > 0 {
        typesUsed := typesUsed + [Priority[k]];
      }
    }
    assert Priority[..|Priority|] == Priority;
  }

  /** The height scan: stop at the first kind whose height is not h0. */
  method FindOtherHeight(ts: seq<ItemType>, info: Info, h0: nat) returns (found: bool)
    requires forall k :: 0 <= k < |ts| ==> ts[k] in info
    ensures found == HeightDiffers(ts, info, h0)
  {
    found := false;
    for k := 0 to |ts|
      invariant !found ==> forall m :: 0 <= m < k ==> info[ts[m]].heightCm == h0
      invariant found ==> HeightDiffers(ts, info, h0)
    {
      if info[ts[k]].heightCm != h0 {
        found := true;
        break;
      }
    }
  }
}
