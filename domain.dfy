// The data model shared by the palletization engine: item kinds, per-kind
// counts, catalog rows, and the layers and pallets the packer produces.
//
// Units: lengths and heights in whole centimetres, weights in hundredths of a
// kilogram, prices in cents. The schema stores box weights as decimal(6,2),
// pallet maximum weights as whole kilograms and prices as decimal(10,2), so
// every quantity the engine touches is an exact integer in these units.

module Domain {

  datatype Option<T> = None | Some(value: T)

  function Min(a: int, b: int): int { if a <= b then a else b }
  function Max(a: int, b: int): int { if a >= b then a else b }

  /** The three box kinds, declared in stacking priority order. */
  datatype ItemType = Tower | Laptop | MiniPc

  /** Stacking priority: heaviest and most stable first. */
  const Priority: seq<ItemType> := [Tower, Laptop, MiniPc]

  /** Position of a kind in Priority. */
  function Rank(t: ItemType): nat
  {
    match t
    case Tower => 0
    case Laptop => 1
    case MiniPc => 2
  }

  lemma PriorityRank()
    ensures |Priority| == 3
    ensures forall k :: 0 <= k < |Priority| ==> Rank(Priority[k]) == k
    ensures forall t :: Priority[Rank(t)] == t
  {}

  /** The catalog code of a kind. */
  function Code(t: ItemType): string
  {
    match t
    case Tower => "tower"
    case Laptop => "laptop"
    case MiniPc => "mini_pc"
  }

  /** A closed per-kind count: demand, stock left, or a load. */
  datatype Counts = Counts(tower: nat, laptop: nat, miniPc: nat)
  {
    function Get(t: ItemType): nat
    {
      match t
      case Tower => tower
      case Laptop => laptop
      case MiniPc => miniPc
    }

    function With(t: ItemType, v: nat): (r: Counts)
      ensures r.Get(t) == v
      ensures forall u :: u != t ==> r.Get(u) == Get(u)
    {
      match t
      case Tower => this.(tower := v)
      case Laptop => this.(laptop := v)
      case MiniPc => this.(miniPc := v)
    }

    function Total(): nat { tower + laptop + miniPc }

    function Plus(o: Counts): Counts
    {
      Counts(tower + o.tower, laptop + o.laptop, miniPc + o.miniPc)
    }

    /** Pointwise at most. */
    predicate Le(o: Counts)
    {
      tower <= o.tower && laptop <= o.laptop && miniPc <= o.miniPc
    }

    function Minus(o: Counts): Counts
      requires o.Le(this)
    {
      Counts(tower - o.tower, laptop - o.laptop, miniPc - o.miniPc)
    }
  }

  const Zero := Counts(0, 0, 0)

  /** A box_types row: footprint and height in cm, weight in hundredths of kg. */
  datatype BoxSpec = BoxSpec(lengthCm: nat, widthCm: nat, heightCm: nat, weight: int)

  /** A pallet_types row; the maximum weight is in whole kilograms. */
  datatype PalletType = PalletType(
    id: int,
    code: string,
    baseLengthCm: nat,
    baseWidthCm: nat,
    maxHeightCm: nat,
    maxWeightKg: nat)

  /** A pallet type's weight budget in hundredths of kg. */
  function MaxWeight(pt: PalletType): nat { pt.maxWeightKg * 100 }

  /** Per-kind packing data for one pallet type: boxes per layer, height, weight. */
  datatype TypeInfo = TypeInfo(perLayer: nat, heightCm: nat, weight: int)

  type Info = map<ItemType, TypeInfo>

  /** One flat layer as the layer builder returns it. */
  datatype Layer = Layer(
    baseType: ItemType,
    counts: Counts,
    heightCm: nat,
    weight: int,
    slotsTotal: nat,
    slotsEmpty: nat,
    needsSeparator: bool,
    allowSeparators: bool)

  /** One committed pallet: its load, its layers bottom-up, and what is left. */
  datatype Pallet = Pallet(
    load: Counts,
    layers: seq<Layer>,
    separatorsUsed: nat,
    heightLeftCm: int,
    weightLeft: int)

  /** Utilization of one pallet; ratios are in thousandths, rounded half up. */
  datatype Utilization = Utilization(
    permille: nat,
    heightPermille: nat,
    weightPermille: nat,
    usedHeightCm: nat,
    usedWeight: nat)

  /** The per-pallet entry of a simulation's utilization metrics. */
  datatype PalletUtilization = PalletUtilization(palletNumber: nat, utilization: Utilization)

  /** A warning attached to a simulation (only the last-pallet kind exists). */
  datatype Warning = Warning(kind: string, lastPalletIndex: nat, utilization: Utilization, boxes: nat)

  lemma PlusZero(x: Counts)
    ensures x.Plus(Zero) == x && Zero.Plus(x) == x
  {}

  lemma PlusAssoc(x: Counts, y: Counts, z: Counts)
    ensures x.Plus(y).Plus(z) == x.Plus(y.Plus(z))
  {}

  /** Taking y back out of x + y leaves x. */
  lemma PlusMinus(x: Counts, y: Counts, z: Counts)
    requires x.Plus(y) == z
    ensures y.Le(z) && z.Minus(y) == x && x.Plus(y) == z
  {}

  lemma TotalZero(x: Counts)
    ensures x.Total() == 0 <==> x == Zero
  {}

  /** Adding nothing changes nothing. */
  lemma PlusNothing(x: Counts, y: Counts)
    requires y.Total() == 0
    ensures x.Plus(y) == x
  {}

  lemma TotalPlus(x: Counts, y: Counts)
    ensures x.Plus(y).Total() == x.Total() + y.Total()
  {}

  /** Total load of a sequence of pallets. */
  function SumLoads(ps: seq<Pallet>): Counts
  {
    if ps == [] then Zero else SumLoads(ps[..|ps| - 1]).Plus(ps[|ps| - 1].load)
  }

  lemma {:induction false} SumLoadsAppend(a: seq<Pallet>, b: seq<Pallet>)
    ensures SumLoads(a + b) == SumLoads(a).Plus(SumLoads(b))
    decreases |b|
  {
    if b == [] {
      assert a + b == a;
      PlusZero(SumLoads(a));
    } else {
      var b' := b[..|b| - 1];
      var last := b[|b| - 1].load;
      assert (a + b)[..|a + b| - 1] == a + b';
      assert (a + b)[|a + b| - 1].load == last;
      calc {
        SumLoads(a + b);
        SumLoads(a + b').Plus(last);
        { SumLoadsAppend(a, b'); }
        SumLoads(a).Plus(SumLoads(b')).Plus(last);
        { PlusAssoc(SumLoads(a), SumLoads(b'), last); }
        SumLoads(a).Plus(SumLoads(b').Plus(last));
        SumLoads(a).Plus(SumLoads(b));
      }
    }
  }
}
