// Tiered pallet rates (PalletizationService::calculateCostForPalletType and
// the same lookup inline in calculateBestPlan). The rates table is an
// immutable input sequence; its order stands for the database's order
// among rows that tie on the sort key.

module Rates {
  import opened Domain

  /** A rates row: the price per pallet, in cents, for pallet counts in
      [minPallets, maxPallets] of one pallet type in one zone. */
  datatype RateTier = RateTier(zoneId: int, palletTypeId: int, minPallets: nat, maxPallets: nat, priceCents: int)

  /** The row is for this zone and pallet type. */
  predicate ForType(t: RateTier, zoneId: int, palletTypeId: int)
  {
    t.zoneId == zoneId && t.palletTypeId == palletTypeId
  }

  /** The row's bracket contains the count. */
  predicate Covers(t: RateTier, count: int)
  {
    t.minPallets <= count <= t.maxPallets
  }

  /** The bracket query: among the rows for the zone and type whose bracket
      contains count, the one with the smallest minPallets, the earliest of
      equals. */
  function Bracket(rates: seq<RateTier>, zoneId: int, palletTypeId: int, count: int): (r: Option<RateTier>)
    ensures r.Some? ==> r.value in rates && ForType(r.value, zoneId, palletTypeId) && Covers(r.value, count)
    ensures r.Some? ==> forall u :: u in rates && ForType(u, zoneId, palletTypeId) && Covers(u, count)
                          ==> r.value.minPallets <= u.minPallets
    ensures r.None? <==> forall u :: u in rates ==> !(ForType(u, zoneId, palletTypeId) && Covers(u, count))
  {
    if rates == [] then None
    else
      var rest := Bracket(rates[1..], zoneId, palletTypeId, count);
      assert forall u :: u in rates ==> u == rates[0] || u in rates[1..];
      if ForType(rates[0], zoneId, palletTypeId) && Covers(rates[0], count)
         && (rest.None? || rates[0].minPallets <= rest.value.minPallets)
      then Some(rates[0])
      else rest
  }

  /** Among equals the bracket query keeps the earliest row: every row
      before the chosen one that is for the zone and type and contains the
      count starts at a larger count. */
  lemma {:induction false} BracketEarliest(rates: seq<RateTier>, zoneId: int, palletTypeId: int, count: int)
    requires Bracket(rates, zoneId, palletTypeId, count).Some?
    ensures var b := Bracket(rates, zoneId, palletTypeId, count).value;
      exists i :: 0 <= i < |rates| && rates[i] == b
        && forall j :: 0 <= j < i && ForType(rates[j], zoneId, palletTypeId) && Covers(rates[j], count)
             ==> rates[j].minPallets > b.minPallets
  {
    var b := Bracket(rates, zoneId, palletTypeId, count).value;
    var rest := Bracket(rates[1..], zoneId, palletTypeId, count);
    if b == rates[0] && ForType(rates[0], zoneId, palletTypeId) && Covers(rates[0], count)
       && (rest.None? || rates[0].minPallets <= rest.value.minPallets) {
      assert rates[0] == b;
    } else {
      BracketEarliest(rates[1..], zoneId, palletTypeId, count);
      var i :| 0 <= i < |rates[1..]| && rates[1..][i] == b
               && forall j :: 0 <= j < i && ForType(rates[1..][j], zoneId, palletTypeId) && Covers(rates[1..][j], count)
                    ==> rates[1..][j].minPallets > b.minPallets;
      assert rates[i + 1] == b;
      forall j | 0 <= j < i + 1 && ForType(rates[j], zoneId, palletTypeId) && Covers(rates[j], count)
        ensures rates[j].minPallets > b.minPallets
      {
        if j > 0 {
          assert rates[j] == rates[1..][j - 1];
        }
      }
    }
  }

  /** The fallback query: among the rows for the zone and type, the one with
      the largest maxPallets, the earliest of equals. */
  function TopTier(rates: seq<RateTier>, zoneId: int, palletTypeId: int): (r: Option<RateTier>)
    ensures r.Some? ==> r.value in rates && ForType(r.value, zoneId, palletTypeId)
    ensures r.Some? ==> forall u :: u in rates && ForType(u, zoneId, palletTypeId) ==> u.maxPallets <= r.value.maxPallets
    ensures r.None? <==> forall u :: u in rates ==> !ForType(u, zoneId, palletTypeId)
  {
    if rates == [] then None
    else
      var rest := TopTier(rates[1..], zoneId, palletTypeId);
      assert forall u :: u in rates ==> u == rates[0] || u in rates[1..];
      if ForType(rates[0], zoneId, palletTypeId) && (rest.None? || rates[0].maxPallets >= rest.value.maxPallets)
      then Some(rates[0])
      else rest
  }

  /** Among equals the fallback query keeps the earliest row. */
  lemma {:induction false} TopTierEarliest(rates: seq<RateTier>, zoneId: int, palletTypeId: int)
    requires TopTier(rates, zoneId, palletTypeId).Some?
    ensures var t := TopTier(rates, zoneId, palletTypeId).value;
      exists i :: 0 <= i < |rates| && rates[i] == t
        && forall j :: 0 <= j < i && ForType(rates[j], zoneId, palletTypeId) ==> rates[j].maxPallets < t.maxPallets
  {
    var t := TopTier(rates, zoneId, palletTypeId).value;
    var rest := TopTier(rates[1..], zoneId, palletTypeId);
    if t == rates[0] && ForType(rates[0], zoneId, palletTypeId)
       && (rest.None? || rates[0].maxPallets >= rest.value.maxPallets) {
      assert rates[0] == t;
    } else {
      TopTierEarliest(rates[1..], zoneId, palletTypeId);
      var i :| 0 <= i < |rates[1..]| && rates[1..][i] == t
               && forall j :: 0 <= j < i && ForType(rates[1..][j], zoneId, palletTypeId)
                    ==> rates[1..][j].maxPallets < t.maxPallets;
      assert rates[i + 1] == t;
      forall j | 0 <= j < i + 1 && ForType(rates[j], zoneId, palletTypeId)
        ensures rates[j].maxPallets < t.maxPallets
      {
        if j > 0 {
          assert rates[j] == rates[1..][j - 1];
        }
      }
    }
  }

  /** The rate applied to count pallets: the bracket containing the count,
      else the top tier; none only when the type has no rate in the zone. */
  function LookupRate(rates: seq<RateTier>, zoneId: int, palletTypeId: int, count: int): (r: Option<RateTier>)
    ensures r.Some? ==> r.value in rates && ForType(r.value, zoneId, palletTypeId)
    ensures r.None? <==> forall u :: u in rates ==> !ForType(u, zoneId, palletTypeId)
    ensures (exists u :: u in rates && ForType(u, zoneId, palletTypeId) && Covers(u, count))
            <==> r.Some? && Covers(r.value, count)
    ensures r.Some? && Covers(r.value, count) ==>
              forall u :: u in rates && ForType(u, zoneId, palletTypeId) && Covers(u, count)
                ==> r.value.minPallets <= u.minPallets
    ensures r.Some? && !Covers(r.value, count) ==>
              forall u :: u in rates && ForType(u, zoneId, palletTypeId) ==> u.maxPallets <= r.value.maxPallets
  {
    var b := Bracket(rates, zoneId, palletTypeId, count);
    if b.Some? then b
    else
      TopTier(rates, zoneId, palletTypeId)
  }

  /** calculateCostForPalletType: nothing to pay for no pallets; otherwise
      the price of the tier LookupRate picks (the bracket holding the count,
      else the top tier) times the count, or none without any rate. */
  function CostForPalletType(rates: seq<RateTier>, zoneId: int, pt: PalletType, count: int): (r: Option<int>)
    ensures count <= 0 ==> r == Some(0)
    ensures r.None? <==> count > 0 && forall u :: u in rates ==> !ForType(u, zoneId, pt.id)
    ensures count > 0 && r.Some? ==>
              exists u :: u in rates && ForType(u, zoneId, pt.id) && r.value == u.priceCents * count
  {
    if count <= 0 then Some(0)
    else
      match LookupRate(rates, zoneId, pt.id, count)
      case None => None
      case Some(t) => Some(t.priceCents * count)
  }

  /** The price is the looked-up tier's price per pallet times the count,
      and no other row's. */
  lemma CostIsLookupPrice(rates: seq<RateTier>, zoneId: int, pt: PalletType, count: int)
    requires count > 0 && CostForPalletType(rates, zoneId, pt, count).Some?
    ensures LookupRate(rates, zoneId, pt.id, count).Some?
    ensures CostForPalletType(rates, zoneId, pt, count).value
            == LookupRate(rates, zoneId, pt.id, count).value.priceCents * count
  {}
}
