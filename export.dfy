// The two detail sheets of the best-plan spreadsheet export
// (BestPlanPalletsSheet and BestPlanLayersSheet): a header row, then one row
// per pallet of the best plan, or one row per layer of each of its pallets.

module Export {
  import opened Domain
  import opened Selection
  import opened Packer
  import opened Planner

  /** A spreadsheet cell: a whole number, a weight in hundredths of a
      kilogram (the service rounds weights to two decimals), or text. */
  datatype Cell = Int(n: int) | Hundredths(h: int) | Text(s: string)

  type Row = seq<Cell>

  /** The pallets of the plan's best candidate; none without a plan. */
  function PlanPallets(plan: PlanResult): seq<Pallet>
  {
    if plan.Plan? then plan.best.pallets else []
  }

  // ---------------------------------------------------------------------
  // The pallets sheet

  const PalletsHeader: Row :=
    [Text("#"), Text("Torres"), Text("Portátiles"), Text("Minis"), Text("Separadores"),
     Text("Altura libre (cm)"), Text("Peso libre (kg)")]

  /** The row of the pallet at position i: its number, its boxes per kind,
      its separators, and the height and weight it has left. */
  function PalletRow(i: nat, p: Pallet): Row
  {
    [Int(i + 1), Int(p.load.tower), Int(p.load.laptop), Int(p.load.miniPc), Int(p.separatorsUsed),
     Int(p.heightLeftCm), Hundredths(p.weightLeft)]
  }

  function PalletRows(ps: seq<Pallet>): (r: seq<Row>)
    ensures |r| == |ps|
  {
    if ps == [] then [] else PalletRows(ps[..|ps| - 1]) + [PalletRow(|ps| - 1, ps[|ps| - 1])]
  }

  /** The pallets sheet: the header, then a row per pallet in plan order. */
  function PalletsSheet(plan: PlanResult): seq<Row>
  {
    [PalletsHeader] + PalletRows(PlanPallets(plan))
  }

  /** Row i of the pallet rows describes pallet i, numbered from 1. */
  lemma {:induction false} PalletRowsAt(ps: seq<Pallet>)
    ensures forall i :: 0 <= i < |ps| ==> PalletRows(ps)[i] == PalletRow(i, ps[i])
  {
    if ps != [] {
      var init := ps[..|ps| - 1];
      PalletRowsAt(init);
      assert forall i :: 0 <= i < |init| ==> init[i] == ps[i];
    }
  }

  /** The sheet has the header and exactly one row per pallet, the pallet
      at position i on row i + 1 with number i + 1. */
  lemma PalletsSheetShape(plan: PlanResult)
    ensures var rows := PalletsSheet(plan);
      var ps := PlanPallets(plan);
      && |rows| == 1 + |ps|
      && rows[0] == PalletsHeader
      && forall i :: 0 <= i < |ps| ==> rows[i + 1] == PalletRow(i, ps[i]) && rows[i + 1][0] == Int(i + 1)
  {
    PalletRowsAt(PlanPallets(plan));
  }

  /** The array() loop of the pallets sheet. */
  method PalletsSheetArray(plan: PlanResult) returns (rows: seq<Row>)
    ensures rows == PalletsSheet(plan)
  {
    var pallets := PlanPallets(plan);
    rows := [PalletsHeader];
    for i := 0 to |pallets|
      invariant rows == [PalletsHeader] + PalletRows(pallets[..i])
    {
      assert pallets[..i + 1][..i] == pallets[..i];
      var p := pallets[i];
      rows := rows + [[Int(i + 1), Int(p.load.tower), Int(p.load.laptop), Int(p.load.miniPc),
                       Int(p.separatorsUsed), Int(p.heightLeftCm), Hundredths(p.weightLeft)]];
    }
    assert pallets[..|pallets|] == pallets;
  }

  // ---------------------------------------------------------------------
  // The layers sheet

  const LayersHeader: Row :=
    [Text("Pallet #"), Text("Capa #"), Text("Base"), Text("Torres"), Text("Portátiles"), Text("Minis"),
     Text("Altura (cm)"), Text("Peso (kg)"), Text("Separador"), Text("Huecos")]

  /** "Sí" for a layer that needs a separator, "No" otherwise. */
  function SeparatorText(needsSeparator: bool): string
  {
    if needsSeparator then "Sí" else "No"
  }

  /** The row of layer li of pallet pi: both numbers from 1, the base kind's
      code, the boxes per kind, height, weight, separator and empty slots. */
  function LayerRow(pi: nat, li: nat, l: Layer): Row
  {
    [Int(pi + 1), Int(li + 1), Text(Code(l.baseType)), Int(l.counts.tower), Int(l.counts.laptop),
     Int(l.counts.miniPc), Int(l.heightCm), Hundredths(l.weight), Text(SeparatorText(l.needsSeparator)),
     Int(l.slotsEmpty)]
  }

  /** The rows of the layers of pallet pi, bottom-up. */
  function PalletLayerRows(pi: nat, ls: seq<Layer>): (r: seq<Row>)
    ensures |r| == |ls|
  {
    if ls == [] then [] else PalletLayerRows(pi, ls[..|ls| - 1]) + [LayerRow(pi, |ls| - 1, ls[|ls| - 1])]
  }

  /** The layer rows of every pallet, pallet by pallet. */
  function LayerRows(ps: seq<Pallet>): seq<Row>
  {
    if ps == [] then [] else LayerRows(ps[..|ps| - 1]) + PalletLayerRows(|ps| - 1, ps[|ps| - 1].layers)
  }

  /** The layers sheet: the header, then a row per layer of each pallet. */
  function LayersSheet(plan: PlanResult): seq<Row>
  {
    [LayersHeader] + LayerRows(PlanPallets(plan))
  }

  /** The number of layers of the pallets. */
  function LayerTotal(ps: seq<Pallet>): nat
  {
    if ps == [] then 0 else LayerTotal(ps[..|ps| - 1]) + |ps[|ps| - 1].layers|
  }

  /** Row li of a pallet's layer rows describes its layer li. */
  lemma {:induction false} PalletLayerRowsAt(pi: nat, ls: seq<Layer>)
    ensures forall li :: 0 <= li < |ls| ==> PalletLayerRows(pi, ls)[li] == LayerRow(pi, li, ls[li])
  {
    if ls != [] {
      var init := ls[..|ls| - 1];
      PalletLayerRowsAt(pi, init);
      assert forall li :: 0 <= li < |init| ==> init[li] == ls[li];
    }
  }

  /** The layers sheet has one row per layer. */
  lemma {:induction false} LayerRowsCount(ps: seq<Pallet>)
    ensures |LayerRows(ps)| == LayerTotal(ps)
  {
    if ps != [] {
      LayerRowsCount(ps[..|ps| - 1]);
    }
  }

  /** Layer li of pallet pi sits after the rows of the earlier pallets'
      layers. */
  lemma {:induction false} LayerRowAt(ps: seq<Pallet>, pi: nat, li: nat)
    requires pi < |ps| && li < |ps[pi].layers|
    ensures LayerTotal(ps[..pi]) + li < |LayerRows(ps)|
    ensures LayerRows(ps)[LayerTotal(ps[..pi]) + li] == LayerRow(pi, li, ps[pi].layers[li])
  {
    var init := ps[..|ps| - 1];
    var last := ps[|ps| - 1];
    var tail := PalletLayerRows(|ps| - 1, last.layers);
    assert LayerRows(ps) == LayerRows(init) + tail;
    LayerRowsCount(init);
    if pi < |init| {
      assert ps[..pi] == init[..pi] && ps[pi] == init[pi];
      LayerRowAt(init, pi, li);
    } else {
      assert ps[..pi] == init && ps[pi] == last;
      PalletLayerRowsAt(|ps| - 1, last.layers);
    }
  }

  /** The nested array() loops of the layers sheet. */
  method LayersSheetArray(plan: PlanResult) returns (rows: seq<Row>)
    ensures rows == LayersSheet(plan)
  {
    var pallets := PlanPallets(plan);
    rows := [LayersHeader];
    for pi := 0 to |pallets|
      invariant rows == [LayersHeader] + LayerRows(pallets[..pi])
    {
      assert pallets[..pi + 1][..pi] == pallets[..pi];
      var layers := pallets[pi].layers;
      ghost var before := rows;
      for li := 0 to |layers|
        invariant rows == before + PalletLayerRows(pi, layers[..li])
      {
        assert layers[..li + 1][..li] == layers[..li];
        var layer := layers[li];
        rows := rows + [[Int(pi + 1), Int(li + 1), Text(Code(layer.baseType)), Int(layer.counts.tower),
                         Int(layer.counts.laptop), Int(layer.counts.miniPc), Int(layer.heightCm),
                         Hundredths(layer.weight), Text(if layer.needsSeparator then "Sí" else "No"),
                         Int(layer.slotsEmpty)]];
      }
      assert layers[..|layers|] == layers;
    }
    assert pallets[..|pallets|] == pallets;
  }

  // ---------------------------------------------------------------------
  // Column totals

  /** The number in column k of a row; zero for text or a missing cell. */
  function IntAt(row: Row, k: nat): int
  {
    if k < |row| && row[k].Int? then row[k].n else 0
  }

  /** The sum of column k over the rows. */
  function ColumnTotal(rows: seq<Row>, k: nat): int
  {
    if rows == [] then 0 else ColumnTotal(rows[..|rows| - 1], k) + IntAt(rows[|rows| - 1], k)
  }

  lemma {:induction false} ColumnTotalAppend(a: seq<Row>, b: seq<Row>, k: nat)
    ensures ColumnTotal(a + b, k) == ColumnTotal(a, k) + ColumnTotal(b, k)
    decreases |b|
  {
    if b == [] {
      assert a + b == a;
    } else {
      assert (a + b)[..|a + b| - 1] == a + b[..|b| - 1];
      assert (a + b)[|a + b| - 1] == b[|b| - 1];
      ColumnTotalAppend(a, b[..|b| - 1], k);
    }
  }

  lemma PlusGet(x: Counts, y: Counts, t: ItemType)
    ensures x.Plus(y).Get(t) == x.Get(t) + y.Get(t)
  {}

  /** The column of kind t in the pallets sheet (Torres, Portátiles, Minis). */
  function PalletColumn(t: ItemType): nat { 1 + Rank(t) }

  /** The column of kind t in the layers sheet. */
  function LayerColumn(t: ItemType): nat { 3 + Rank(t) }

  /** Each kind's column of the pallet rows adds up to the pallets' load. */
  lemma {:induction false} PalletRowsTotal(ps: seq<Pallet>, t: ItemType)
    ensures ColumnTotal(PalletRows(ps), PalletColumn(t)) == SumLoads(ps).Get(t)
  {
    if ps != [] {
      var init := ps[..|ps| - 1];
      var last := ps[|ps| - 1];
      PalletRowsTotal(init, t);
      ColumnTotalAppend(PalletRows(init), [PalletRow(|ps| - 1, last)], PalletColumn(t));
      assert ColumnTotal([PalletRow(|ps| - 1, last)], PalletColumn(t)) == last.load.Get(t);
      PlusGet(SumLoads(init), last.load, t);
    }
  }

  /** Each kind's column of a pallet's layer rows adds up to its layers' boxes. */
  lemma {:induction false} PalletLayerRowsTotal(pi: nat, ls: seq<Layer>, t: ItemType)
    ensures ColumnTotal(PalletLayerRows(pi, ls), LayerColumn(t)) == LayerCounts(ls).Get(t)
  {
    if ls != [] {
      var init := ls[..|ls| - 1];
      var last := ls[|ls| - 1];
      PalletLayerRowsTotal(pi, init, t);
      ColumnTotalAppend(PalletLayerRows(pi, init), [LayerRow(pi, |ls| - 1, last)], LayerColumn(t));
      assert ColumnTotal([LayerRow(pi, |ls| - 1, last)], LayerColumn(t)) == last.counts.Get(t);
      PlusGet(LayerCounts(init), last.counts, t);
    }
  }

  /** The loads of pallets whose load is the sum of their layers' boxes. */
  predicate LoadsFromLayers(ps: seq<Pallet>)
  {
    forall i :: 0 <= i < |ps| ==> ps[i].load == LayerCounts(ps[i].layers)
  }

  /** Each kind's column of the layer rows adds up to the pallets' load when
      every pallet's load is the sum of its layers. */
  lemma {:induction false} LayerRowsTotal(ps: seq<Pallet>, t: ItemType)
    requires LoadsFromLayers(ps)
    ensures ColumnTotal(LayerRows(ps), LayerColumn(t)) == SumLoads(ps).Get(t)
  {
    if ps != [] {
      var init := ps[..|ps| - 1];
      var last := ps[|ps| - 1];
      assert LoadsFromLayers(init) by {
        forall i | 0 <= i < |init| ensures init[i].load == LayerCounts(init[i].layers) {
          assert init[i] == ps[i];
        }
      }
      LayerRowsTotal(init, t);
      ColumnTotalAppend(LayerRows(init), PalletLayerRows(|ps| - 1, last.layers), LayerColumn(t));
      PalletLayerRowsTotal(|ps| - 1, last.layers, t);
      PlusGet(SumLoads(init), last.load, t);
    }
  }

  /** The two sheets agree: per kind, the boxes listed on the layers sheet
      are those listed on the pallets sheet, and for a plan that ships the
      order both are the order's count. */
  lemma SheetsAgree(plan: PlanResult, t: ItemType)
    requires LoadsFromLayers(PlanPallets(plan))
    ensures ColumnTotal(LayersSheet(plan)[1..], LayerColumn(t)) == ColumnTotal(PalletsSheet(plan)[1..], PalletColumn(t))
    ensures forall items :: plan.Plan? && ShipsOrder(plan.best, items) ==>
              ColumnTotal(PalletsSheet(plan)[1..], PalletColumn(t)) == items.Get(t)
  {
    var ps := PlanPallets(plan);
    assert LayersSheet(plan)[1..] == LayerRows(ps);
    assert PalletsSheet(plan)[1..] == PalletRows(ps);
    LayerRowsTotal(ps, t);
    PalletRowsTotal(ps, t);
  }

  /** The pallets of a simulation have their layers' loads, so the sheets of
      a one-type plan agree. */
  lemma SimulatedLoadsFromLayers(pt: PalletType, boxTypes: map<ItemType, BoxSpec>, items: Counts,
                                 allowSeparators: bool, limit: Option<nat>)
    requires FootprintsDefined(boxTypes)
    ensures LoadsFromLayers(Simulate(pt, boxTypes, items, allowSeparators, limit).pallets)
  {
    SimulatedPalletsOk(pt, boxTypes, items, allowSeparators, limit);
  }

  /** A mix's pallets are two simulations' pallets, so its sheets agree too. */
  lemma MixLoadsFromLayers(env: Env, a: PalletType, b: PalletType, simA: SimResult, bCount: nat, c: Candidate,
                           items: Counts, aCount: nat)
    requires FootprintsDefined(env.boxTypes)
    requires simA == RunCapped(env, a, items, aCount)
    requires MixedCandidate(env, CappedRun(env), a, b, simA, bCount) == Some(c)
    ensures LoadsFromLayers(c.pallets)
  {
    var simB := RunCapped(env, b, simA.remaining, bCount);
    assert CappedRun(env)(b, simA.remaining, bCount) == simB;
    SimulatedLoadsFromLayers(a, env.boxTypes, items, env.allowSeparators, Some(aCount));
    SimulatedLoadsFromLayers(b, env.boxTypes, simA.remaining, env.allowSeparators, Some(bCount));
    assert c.pallets == simA.pallets + simB.pallets;
  }
}
