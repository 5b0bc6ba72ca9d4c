# Palletizer core in Dafny

This project models the planning engine of a pallet-shipment planner, together with the two detail sheets of its spreadsheet export. The engine takes an order of three kinds of boxes (towers, laptops and mini PCs) and a destination zone. It works out how the boxes stack on each pallet type, prices each plan from the zone's rate brackets, and picks the cheapest plan. It also reports up to five alternatives and recommends near-optimal ones.

The model follows `PalletizationService` method by method:

- **Layer building.** `boxesPerLayer` gives the slots per layer as the better of the two grid orientations. `pickBaseType` chooses the first kind, in priority order, that has stock and fits. `buildFlatLayerWithFill` places as many base boxes as slots, stock and weight allow, tops up with the fill kinds, and flags a separator when heights are mixed.
- **Packing.** `simulatePackingForPalletType` validates the box data. It then runs a layer loop inside a pallet loop, bounded by an optional pallet limit and a guard of 20000 pallets, and produces utilization metrics and the "last pallet underutilized" warning.
- **Pricing.** The rate lookup takes the earliest bracket containing the count. Without one, it falls back to the tier with the largest maximum.
- **Planning.** `calculateBestPlan` builds one-type candidates first. It then tries mixes of pairs from the three cheapest distinct types, with one to three pallets of each. Finally it sorts all candidates by price, cuts best and alternatives, and builds the recommendations.
- **Export.** The pallets sheet has one row per pallet of the best plan. The layers sheet has one row per layer of each of those pallets.

Weights are in hundredths of a kilogram and prices in cents. The schema stores weights with two decimals and prices as decimals with two places, so every quantity is an exact integer in these units. PHP's `round(x, 3)` and `round(x, 2)` become exact half-up integer rounding. The 3% band of the recommendations is an exact cross-multiplication.

Database reads become inputs:

- `Env` holds the box types, the rates table, the zone and the separator switch.
- The pallet types come in `id` order.

Files, one module each:

| file | module | models |
|---|---|---|
| `domain.dfy` | `Domain` | kinds, counts, catalog rows, layers, pallets |
| `layer.dfy` | `LayerBuilder` | `boxesPerLayer`, `pickBaseType`, `buildFlatLayerWithFill` |
| `utilization.dfy` | `Utilization` | `palletUtilization`, `buildUnderutilizedWarnings`, the metrics loop |
| `packer.dfy` | `Packer` | `simulatePackingForPalletType` |
| `rates.dfy` | `Rates` | the rate queries, `calculateCostForPalletType` |
| `selection.dfy` | `Selection` | the price sort, `hasWarning`, `buildRecommendations` |
| `planner.dfy` | `Planner` | `calculateBestPlan` |
| `export.dfy` | `Export` | `BestPlanPalletsSheet::array`, `BestPlanLayersSheet::array` |

Each loop of the source is a method proved equal to a specification function. The properties are then proved about those functions.

## Model

| member | source | states |
|---|---|---|
| LayerBuilder.BoxesPerLayerFits | app/Services/PalletizationService.php:588-593 | the slot count is one of the two orientation grids and at least the other; it does not change when the box is turned; the slots' total footprint fits the pallet base |
| LayerBuilder.PickFrom | app/Services/PalletizationService.php:451-462 | the scan from position k returns a kind that can start a layer, with none able to before it; none when no kind from k on can |
| LayerBuilder.PickBaseType | app/Services/PalletizationService.php:449-463 | the base is the first kind in priority order with stock, known data and one box fitting the height and weight left; none exactly when no kind qualifies |
| LayerBuilder.FlatLayer | app/Services/PalletizationService.php:474-582 | a layer exists exactly when the base kind can start one; its base count is min(slots, stock, weight left / box weight); it takes no more than the stock; it stays within the weight left; it tops up only with the base's fill kinds; its slots add up; its weight is its boxes' weight; its height is the tallest kind's; heights are uniform when separators are off |
| LayerBuilder.FlatLayerToppedUp | app/Services/PalletizationService.php:519-544 | when the layer keeps a free slot, every fill kind that may join the base has either used all its stock or would exceed the weight left with one more box |
| LayerBuilder.BuildFlatLayerWithFill | app/Services/PalletizationService.php:474-582 | the method returns exactly FlatLayer's layer, so the same guarantees hold |
| LayerBuilder.FillSlots | app/Services/PalletizationService.php:519-544 | the fill loop computes the fill specification over the fill order |
| LayerBuilder.FillKeepsInv | app/Services/PalletizationService.php:519-544 | each fill pass keeps the layer within slots, stock and weight; keeps its height the tallest present; adds only same-height kinds when separators are off |
| LayerBuilder.FillTopsUp | app/Services/PalletizationService.php:519-544 | the fill loop never frees slots or lightens the layer, leaves kinds already passed alone, and with a slot still free leaves every eligible kind from position k on out of stock or at the weight limit |
| LayerBuilder.FillStepTopsUp | app/Services/PalletizationService.php:520-543 | one fill pass changes only its own kind, and leaves it out of stock or at the weight limit unless the slots ran out |
| LayerBuilder.FillOrderFacts | app/Services/PalletizationService.php:512-517 | the fill kinds of a base never include the base and never repeat |
| LayerBuilder.NeedsSeparatorIff | app/Services/PalletizationService.php:549-570 | the separator flag holds exactly when separators are allowed and two kinds present have different heights |
| LayerBuilder.SeparatorNeeded | app/Services/PalletizationService.php:551-570 | the separator scan computes the separator flag |
| LayerBuilder.CollectTypesUsed | app/Services/PalletizationService.php:554-557 | the kinds with a positive count, in priority order |
| LayerBuilder.FindOtherHeight | app/Services/PalletizationService.php:560-568 | the scan reports whether some kind's height differs from the first one's |
| LayerBuilder.UsedIn | app/Services/PalletizationService.php:555-556 | a kind is listed exactly when it is in the scanned order and present in the counts |
| Utilization.RoundPermilleNearest | app/Services/PalletizationService.php:614-616 | the rounded ratio is within half a thousandth of used/max, ties rounding up |
| Utilization.RoundPermilleLowIff | app/Services/PalletizationService.php:632-645 | the rounded utilization is at most 25% exactly when 2000·used < 501·max |
| Utilization.RoundPermilleMonotone | app/Services/PalletizationService.php:611-614 | rounding preserves the order of ratios |
| Utilization.LargerRatioRounds | app/Services/PalletizationService.php:611-614 | rounding the larger ratio gives the larger rounded ratio |
| Utilization.PalletUtil | app/Services/PalletizationService.php:600-620 | the used height and weight are the budget minus what is left, floored at 0; each ratio is rounded; the overall figure is the larger one; it is at most 100% when nothing is over budget |
| Utilization.UnderutilizedWarnings | app/Services/PalletizationService.php:626-659 | there is at most one warning; it has the last-pallet kind and the last pallet's number |
| Utilization.UnderutilizedIff | app/Services/PalletizationService.php:632-656 | the warning is raised exactly when the last pallet's utilization rounds to 25% or less, or it holds at most 8 boxes |
| Utilization.Utilizations | app/Services/PalletizationService.php:405-411 | there is one entry per pallet, numbered from 1, holding that pallet's utilization |
| Utilization.UtilizationsOf | app/Services/PalletizationService.php:405-411 | the metrics loop computes Utilizations |
| Packer.InfoFor | app/Services/PalletizationService.php:282-295 | a kind's slot count fits its footprints on the pallet base; its height and weight are the box type's |
| Packer.BuildInfo | app/Services/PalletizationService.php:279-296 | the info table has an entry exactly for the kinds that have a box type |
| Packer.CollectInfo | app/Services/PalletizationService.php:279-296 | the info loop computes BuildInfo |
| Packer.FirstInvalid | app/Services/PalletizationService.php:298-314 | the result is the first kind in priority order with a non-positive slot count, height or weight; none exactly when all data is usable |
| Packer.FindInvalid | app/Services/PalletizationService.php:299-314 | the validation loop computes FirstInvalid |
| Packer.CommitConserves | app/Services/PalletizationService.php:354-367 | committing a layer moves its boxes from the demand to the load without creating or losing any |
| Packer.FillPallet | app/Services/PalletizationService.php:336-371 | the layer loop keeps the pallet coherent; it conserves load plus demand; it only lowers the demand; it only appends layers |
| Packer.FillPalletCommits | app/Services/PalletizationService.php:337-370 | a round that places a layer commits it, keeps the pallet coherent and strictly lowers the demand |
| Packer.FillPalletStops | app/Services/PalletizationService.php:337-352 | a round with no base, no layer or a layer too tall ends the pallet unchanged |
| Packer.NextLayer | app/Services/PalletizationService.php:337-352 | picking the base, building the layer and checking its height yields the layer the layer loop commits next, or none when the loop ends |
| Packer.FillOnePallet | app/Services/PalletizationService.php:328-371 | the layer loop on one pallet computes FillPallet from an empty pallet |
| Packer.PackFromBooks | app/Services/PalletizationService.php:320-402 | the pallets' loads plus the demand left equal the demand at the start; an abort leaves part of the demand |
| Packer.PackFromSound | app/Services/PalletizationService.php:320-402 | every pallet built has the layers' load, heights, weights and separators; it is within the type's limits; it is non-empty |
| Packer.PackFromBounds | app/Services/PalletizationService.php:320-326 | the loop never builds more pallets than the limit or the guard; it stops short of the demand only when one of them is reached |
| Packer.PackFromStops | app/Services/PalletizationService.php:320-326 | with the demand met, the limit reached or the guard out, no pallet is built |
| Packer.PackFromStart | app/Services/PalletizationService.php:316-402 | a run from scratch ships what it packed and leaves the rest; its pallets are sound; it respects limit and guard |
| Packer.CappedRunIsPrefix | app/Services/PalletizationService.php:319-323 | a run capped at n pallets succeeds whenever the uncapped run does, and builds the uncapped run's first pallets |
| Packer.Simulate | app/Services/PalletizationService.php:260-442 | the count is the number of pallets; packed plus remaining is the order and packed is the pallets' load; an error gives no pallets and nothing packed; unusable data names a kind whose data is unusable; the count respects the limit and the guard; demand is left over only at the limit or the guard; there is one utilization per pallet and at most one warning |
| Packer.SimulateInvalid | app/Services/PalletizationService.php:298-314 | with unusable box data the result is the error with no pallets and the whole order remaining |
| Packer.SimulateAborted | app/Services/PalletizationService.php:373-389 | a pallet that takes no box aborts the run with no pallets |
| Packer.SimulatePacked | app/Services/PalletizationService.php:404-441 | a completed loop returns its pallets, the warnings and utilizations of those pallets, packed = order − remaining |
| Packer.SimulatedPalletsOk | app/Services/PalletizationService.php:391-401 | every pallet of a simulation adds up with its layers and respects the pallet type's limits |
| Packer.CappedSimulation | app/Services/PalletizationService.php:135-143 | a type whose uncapped simulation succeeds also succeeds under any limit, with the first pallets of the uncapped plan |
| Packer.SimulatePackingForPalletType | app/Services/PalletizationService.php:260-442 | the method computes Simulate |
| Rates.Bracket | app/Services/PalletizationService.php:63-69 | the row is for the zone and type and contains the count, and no such row has a smaller minimum; none exactly when no row for the zone and type contains the count |
| Rates.BracketEarliest | app/Services/PalletizationService.php:63-69 | among rows with the same minimum, the earliest is chosen |
| Rates.TopTier | app/Services/PalletizationService.php:73-77 | the row is for the zone and type and has the largest maximum; none exactly when the type has no row in the zone |
| Rates.TopTierEarliest | app/Services/PalletizationService.php:73-77 | among rows with the same maximum, the earliest is chosen |
| Rates.LookupRate | app/Services/PalletizationService.php:63-82 | the rate is the least-minimum bracket containing the count when one exists, otherwise the largest-maximum tier; none exactly when the type has no rate in the zone |
| Rates.CostForPalletType | app/Services/PalletizationService.php:760-783 | a count of 0 or less costs 0; no cost exactly when the type has no rate in the zone; otherwise the cost is a rate row of the type times the count (which row: CostIsLookupPrice) |
| Rates.CostIsLookupPrice | app/Services/PalletizationService.php:760-783 | for a positive count the cost is the price of the tier the rate lookup picks (least-minimum covering bracket, else the largest-maximum tier) times the count |
| Selection.InsertByPrice | app/Services/PalletizationService.php:231-235 | inserting into a sorted sequence keeps it sorted and adds exactly that candidate |
| Selection.SortByPrice | app/Services/PalletizationService.php:231-235 | the result is sorted by total price and is a permutation of the candidates |
| Selection.FirstCheapest | app/Services/PalletizationService.php:231-238 | the index is that of the first candidate of least price |
| Selection.SortByPriceHead | app/Services/PalletizationService.php:231-238 | the sort is stable where it matters: the head is the first candidate of least price |
| Selection.SortByPriceStable | app/Services/PalletizationService.php:231-235 | the sort is stable: for every price, the candidates of that price appear in the sorted sequence in their original order |
| Selection.InsertOfPrice | app/Services/PalletizationService.php:231-235 | inserting a candidate puts it after every candidate of its price already in the sorted sequence |
| Selection.HasWarning | app/Services/PalletizationService.php:716-727 | true exactly when some warning has the given kind |
| Selection.DeltaBasisPointsNearest | app/Services/PalletizationService.php:683-699 | the reported delta is within half a hundredth of a percent of 100·(alt − best)/best |
| Selection.RecommendationForIff | app/Services/PalletizationService.php:679-707 | an alternative is recommended exactly when it qualifies: a positive price; relative delta between −0.001% and 3%; and either fewer (but some) pallets or it drops the best's last-pallet warning. The recommendation carries its totals, code, count, a reason and the rounded delta |
| Selection.Recommendations | app/Services/PalletizationService.php:669-711 | there are never more recommendations than alternatives |
| Selection.RecommendationsSound | app/Services/PalletizationService.php:679-708 | every recommendation is that of a qualifying alternative |
| Selection.RecommendationsComplete | app/Services/PalletizationService.php:679-708 | every qualifying alternative is recommended |
| Selection.BuildRecommendations | app/Services/PalletizationService.php:669-711 | the loop computes Recommendations |
| Planner.WithCodes | app/Services/PalletizationService.php:121 | a type is kept exactly when its code is listed; never more types than given (order: WithCodesAppend) |
| Planner.WithCodesSingle | app/Services/PalletizationService.php:121 | a single type is kept exactly when its code is listed |
| Planner.WithCodesAppend | app/Services/PalletizationService.php:121 | filtering a concatenation filters each part, so the kept types stay in their original order |
| Planner.AllowedTypes | app/Services/PalletizationService.php:31-39 | an empty allow-list keeps every type; otherwise exactly the listed ones |
| Planner.MonoCandidate | app/Services/PalletizationService.php:49-97 | none exactly when the uncapped simulation builds no pallet or the type has no rate; otherwise the candidate has the type's code, 1 to 20000 pallets (the simulation's), a price per pallet, and the bracket cost as total |
| Planner.MonoCandidatePriced | app/Services/PalletizationService.php:58-96 | a one-type candidate has the simulation's count, warnings and metrics; its price per pallet is the looked-up tier's price; its total is that price times the count |
| Planner.MonoOutcome | app/Services/PalletizationService.php:58-96 | none exactly when the simulation built no pallet or the type has no rate in the zone |
| Planner.MonoCandidateShipsOrder | app/Services/PalletizationService.php:49-97 | a one-type candidate under the guard carries exactly the order |
| Planner.MonoCandidateSimulates | app/Services/PalletizationService.php:58-60 | a type with a one-type candidate simulated without error |
| Planner.MonosShipOrder | app/Services/PalletizationService.php:49-97 | every one-type candidate under the guard carries exactly the order |
| Planner.MonoCandidates | app/Services/PalletizationService.php:49-97 | never more one-type candidates than pallet types |
| Planner.MonoCandidatesEmpty | app/Services/PalletizationService.php:99-101 | there is no one-type candidate exactly when no allowed type has one |
| Planner.MonoCandidatesFrom | app/Services/PalletizationService.php:49-97 | every one-type candidate is that of one of the pallet types |
| Planner.MonoCandidatesComplete | app/Services/PalletizationService.php:49-97 | every pallet type with a one-type candidate contributes it |
| Planner.CollectMonoCandidates | app/Services/PalletizationService.php:49-97 | the first loop computes MonoCandidates |
| Planner.CodesOf | app/Services/PalletizationService.php:115 | the codes of the candidates, position by position |
| Planner.Dedup | app/Services/PalletizationService.php:115 | the same codes, without repeats, never more than given |
| Planner.DedupOrder | app/Services/PalletizationService.php:115 | the kept codes appear in the order of their first occurrences |
| Planner.MixCodes | app/Services/PalletizationService.php:110-118 | at most three distinct codes, each the code of a one-type candidate |
| Planner.MixCodesCount | app/Services/PalletizationService.php:110-118 | as many mixed codes as there are distinct one-type codes, up to three |
| Planner.MixCodeCheaper | app/Services/PalletizationService.php:110-118 | a mixed code belongs to a one-type plan no dearer than any plan whose code was left out |
| Planner.MixCodesCheapest | app/Services/PalletizationService.php:110-118 | the mixed codes are the cheapest distinct ones: as many as there are up to three, each with a plan no dearer than any left-out code's |
| Planner.MixTypes | app/Services/PalletizationService.php:121 | the mixed types are exactly the pallet types whose code is among the mix codes |
| Planner.MixTypeHasMono | app/Services/PalletizationService.php:110-121 | every mixed type has a one-type candidate |
| Planner.MixOutcome | app/Services/PalletizationService.php:170-221 | a mix is emitted exactly when B's run leaves nothing and both types have a rate; its count is the sum of the two counts, its pallets A's followed by B's, its total costA + costB, and it has no price per pallet |
| Planner.MixedCandidateCapped | app/Services/PalletizationService.php:160-221 | an emitted mix's B run, capped at bCount on what A left, leaves nothing; it has no error when A left something; it has at most bCount pallets |
| Planner.MixedCandidateShipsOrder | app/Services/PalletizationService.php:135-221 | an emitted mix whose A run stayed under the guard has exactly aCount pallets of A and carries exactly the order |
| Planner.MixB | app/Services/PalletizationService.php:160-222 | never more mixes than counts of B tried |
| Planner.MixBMembers | app/Services/PalletizationService.php:160-222 | a candidate is among the mixes of A's run with B exactly when it is the mix with some count 1..n of B |
| Planner.MixAMembers | app/Services/PalletizationService.php:135-223 | a candidate is among the mixes of A and B exactly when it is the mix of 1..n pallets of A, whose capped run leaves something over, with 1..cap pallets of B |
| Planner.MixRowMember | app/Services/PalletizationService.php:130-224 | a candidate is among the mixes of the i-th type with the types before j exactly when it is a mix of type i with some type k, i < k < j, over counts 1..cap |
| Planner.MixAllMember | app/Services/PalletizationService.php:129-225 | a candidate is among the mixes of the first n types' rows exactly when it is a mix of some pair i < k with i < n, over counts 1..cap |
| Planner.MixingMembers | app/Services/PalletizationService.php:124-226 | the mix search yields exactly the mixes of a pair i < j of the mixed types with 1..cap pallets of each, where the first type's capped run leaves something over |
| Planner.MixOfCapped | app/Services/PalletizationService.php:135-221 | with the capped simulation, such a mix is c exactly when A capped at aCount leaves something and B capped at bCount on the rest yields c |
| Planner.MixOfShipsOrder | app/Services/PalletizationService.php:135-221 | a mix of a type whose uncapped run succeeds, with fewer than 20000 pallets of it, ships exactly the order |
| Planner.MixShipsOrder | app/Services/PalletizationService.php:110-226 | every mix of the search ships exactly the order |
| Planner.CandidatesShipOrder | app/Services/PalletizationService.php:49-226 | every candidate under the guard, one-type or mixed, ships exactly the order |
| Planner.MixWithB | app/Services/PalletizationService.php:160-222 | the bCount loop yields MixB: exactly the mixes with 1..cap pallets of B, in count order |
| Planner.MixPair | app/Services/PalletizationService.php:135-223 | the aCount loop yields MixA: exactly the mixes for 1..cap pallets of A that leave something over, in count order |
| Planner.CollectRow | app/Services/PalletizationService.php:130-224 | the j loop yields MixRow: exactly the mixes of the i-th type with each later one, in partner order |
| Planner.CollectMixes | app/Services/PalletizationService.php:129-225 | the pair loops yield MixAll: exactly the mixes of every pair i < j of the mixed types, in loop order |
| Planner.BestPlan | app/Services/PalletizationService.php:23-249 | there is no plan exactly when no allowed pallet type has a one-type candidate |
| Planner.PlanOf | app/Services/PalletizationService.php:231-248 | the choice among candidates always gives a plan |
| Planner.PlanOfCheapest | app/Services/PalletizationService.php:231-238 | the best is the first candidate of least total price, no dearer than any candidate |
| Planner.BestPlanNoDearerThanMonos | app/Services/PalletizationService.php:49-238 | the best plan is no dearer than the one-type plan of any allowed pallet type |
| Planner.PlanOfAlternatives | app/Services/PalletizationService.php:239 | the alternatives are min(5, candidates − 1) candidates, ascending in price, none cheaper than the best |
| Planner.PlanOfLeftOut | app/Services/PalletizationService.php:231-239 | the best, the alternatives and the rest are exactly the candidates, and every left-out candidate costs at least as much as each alternative |
| Planner.PlanOfRecommendations | app/Services/PalletizationService.php:242 | the recommendations are exactly those of the qualifying alternatives |
| Planner.ChoosePlan | app/Services/PalletizationService.php:231-248 | the sort, the cut and the recommendation loop compute PlanOf |
| Planner.CalculateBestPlan | app/Services/PalletizationService.php:23-249 | the method computes BestPlan |
| Planner.BestPlanFrom | app/Services/PalletizationService.php:99-248 | with some one-type candidate, the plan is chosen among the one-type candidates followed by the mixes |
| Export.PalletRows | app/Exports/Sheets/BestPlanPalletsSheet.php:26-36 | one row per pallet |
| Export.PalletRowsAt | app/Exports/Sheets/BestPlanPalletsSheet.php:26-36 | row i gives pallet i's number i + 1, its boxes per kind, separators, height and weight left |
| Export.PalletsSheetShape | app/Exports/Sheets/BestPlanPalletsSheet.php:17-39 | the sheet is the header and one row per pallet of the best plan, pallet i on row i + 1; without a plan it is the header alone |
| Export.PalletsSheetArray | app/Exports/Sheets/BestPlanPalletsSheet.php:17-39 | the array() loop computes the pallets sheet |
| Export.PalletLayerRows | app/Exports/Sheets/BestPlanLayersSheet.php:27-41 | one row per layer of the pallet |
| Export.PalletLayerRowsAt | app/Exports/Sheets/BestPlanLayersSheet.php:28-40 | row li gives the pallet number, layer number li + 1, the base code, the boxes per kind, height, weight, "Sí"/"No" for the separator and the empty slots |
| Export.LayerRowsCount | app/Exports/Sheets/BestPlanLayersSheet.php:26-42 | the layers sheet has one row per layer of every pallet |
| Export.LayerRowAt | app/Exports/Sheets/BestPlanLayersSheet.php:26-42 | layer li of pallet pi is on the row after the earlier pallets' layers and its own earlier layers |
| Export.LayersSheetArray | app/Exports/Sheets/BestPlanLayersSheet.php:17-45 | the nested loops compute the layers sheet |
| Export.PalletRowsTotal | app/Exports/Sheets/BestPlanPalletsSheet.php:26-36 | each kind's column of the pallets sheet adds up to the pallets' total load of that kind |
| Export.PalletLayerRowsTotal | app/Exports/Sheets/BestPlanLayersSheet.php:28-40 | each kind's column of a pallet's layer rows adds up to its layers' boxes of that kind |
| Export.LayerRowsTotal | app/Exports/Sheets/BestPlanLayersSheet.php:26-42 | when each pallet's load is its layers' boxes, each kind's column of the layers sheet adds up to the pallets' load |
| Export.SheetsAgree | app/Exports/BestPlanExport.php:15-16 | per kind, the layers sheet lists as many boxes as the pallets sheet; for a plan that ships the order, both list the order's count |
| Export.SimulatedLoadsFromLayers | app/Services/PalletizationService.php:391-401 | a simulation's pallets have their layers' loads, so a one-type plan's two sheets agree |
| Export.MixLoadsFromLayers | app/Services/PalletizationService.php:204 | a mix's pallets have their layers' loads, so a mixed plan's two sheets agree |

## Left out

- Database access. The box types, pallet types (in `id` order) and rates rows are inputs. The `orderBy('min_pallets')->first()` and `orderByDesc('max_pallets')->first()` queries keep the earliest row among ties, as the table order gives them. SQL leaves that tie order unspecified.
- Names, messages, notes and recommendation message text (`pallet_type_name`, `buildRecommendationMessage`, error strings). They are free text and not modelled. Candidates, errors and recommendations carry their codes, kinds and the two reasons instead.
- Cross-carrier aggregation, the controllers, the routes, seeds and migrations, the React UI, the summary sheet (`BestPlanSummarySheet`), sheet titles and styling. These are not part of this model.
- Floating point. Weights and prices are exact integers in hundredths of a kilogram and cents. `round` is modelled as exact half-up rounding on those integers. Representation error of PHP floats is not modelled.
- LayerBuilder.BoxesPerLayer: requires positive box footprints, and the simulation requires `FootprintsDefined`. With a zero footprint the source's `intdiv` throws.
- LayerBuilder.FlatLayer: requires every known kind's data to be usable. The simulation validates before it builds layers. The source's own `perLayer <= 0` test is kept but never fires there.
- The 20000-pallet guard is kept. It bounds the pallet loop exactly as the source does. As a result, "the plan ships the whole order" is proved only for plans under the guard (Planner.MonoCandidateShipsOrder, Planner.MixedCandidateShipsOrder). A run cut by the guard still yields a candidate in the source.
- The pallet limit is `Option<nat>`, and `null` is None. The mix cap of 3 is a parameter set from the constant.
- The `!$remainingAfterA` and `!$remainingFinal` tests never fire, because a simulation always returns the three-key remaining array. They are not modelled.
- The PHP locals of the layer loop (load, layers, separators, height and weight left, remaining) are one `PalletState` value. A committed layer updates all six at once.
- The mixes are built after the one-type loop, as in the source. The Dafny loops call extracted helper methods (MixWithB, MixPair, CollectRow), one per source loop level.
- The mix search is written over a simulation run (`Run`) and a pass of the bCount loop (`Mixer`) taken as parameters, so its membership lemmas hold for any of them. `calculateBestPlan` instantiates them with `CappedRun(env)`, the simulation capped at a pallet limit, and `MixerOf(env, CappedRun(env))`, the pass MixedCandidate describes.
- The mix loops evaluate the simulation function Simulate rather than calling the SimulatePackingForPalletType method. The one-type loop calls the method, which is proved to compute Simulate, so both loops run the same simulation.
- Planner.MixTypeHasMono, Planner.MixShipsOrder, Planner.CandidatesShipOrder: assume pallet types are identified by their code (`CodesIdentify`), as the unique `code` column does.
- Export.PalletsSheetShape: the sheets' `?? 0` and `?? null` defaults are not modelled. Every key is always set by the service's output, so only the missing `best` of the no-candidate result reaches a default, and that is modelled.
- Metrics and warnings of a candidate are carried as values. The JSON shape of the response is not modelled.
