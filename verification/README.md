# VineSuite service layer: model and proofs

VineSuite keeps several materialised states (vessel fills, lot volumes, lot costs,
stock levels) that are meant to be derivable from an append-only event log or
ledger. This project models the services that change those states and proves what
they keep, over single calls, over whole runs and, for stock, over every
interleaving of concurrent transactions.

Each service that overwrites tables is a class whose fields are the tables and whose
methods run the service's loops, guards and rollbacks. Every such method is proved
equal to a transition function on the tables (`Now() == F(old(Now()), ...)`), and
the properties are lemmas about those functions and about runs of them.

Volumes, costs and rates are whole units of 10^-4, dry-goods stock, labour hours and
SKU prices of 10^-2, thresholds of 10^-6; shipping uses the precision of its own columns. bcmath
results truncate toward zero, `round` and the numeric columns round half away from
zero. UUIDs are row positions: fresh and never reused. A `DB::transaction` is all or
nothing.

| file | contents |
|---|---|
| `Options.dfy`, `FixedPoint.dfy`, `Sums.dfy` | optional values; truncating and rounding division; sums over sequences and their independence of order |
| `VesselFills.dfy`, `FillLaws.dfy`, `FillEvents.dfy`, `Cellar.dfy` | the lot_vessel table: transitions, laws, event replay, the two services |
| `NameSearch.dfy`, `CostLedger.dfy`, `CostAllocation.dfy`, `CostLaws.dfy` | search by product name; cost ledger and COGS; truncated shares; what splits and blends do to costs and volumes |
| `LotBook.dfy`, `LotLaws.dfy`, `StatusLaws.dfy`, `BottlingLaws.dfy`, `LotServices.dfy` | lots, trials, runs and the event log: transitions, laws, the four services |
| `VarietalLabel.dfy`, `BlendLabels.dfy` | variety composition and the 75 per cent label (section 4.23(b) of 27 CFR) |
| `Overhead.dfy` | overhead allocation batches |
| `LotRaces.dfy` | overlapping changes of lot volumes |
| `Inventory.dfy`, `PhysicalCounts.dfy`, `StockConcurrency.dfy`, `CountRaces.dfy`, `StockProgress.dfy` | stock levels, count sessions, row locks, overlapping approvals, undisturbed transactions |
| `EventSync.dfy`, `SyncRaces.dfy` | idempotent batch ingestion and event sources; overlapping syncs |
| `Shipping.dfy`, `Thresholds.dfy` | yearly shipping caps; lab threshold resolution |

## Where the code and its promises part

These are properties of the code as it stands; each has a lemma with a concrete input
and a lemma that says exactly when the promise is met.

- Replay of lot volumes. `updateLot` accepts `volume_gallons`
  (`api/app/Http/Requests/UpdateLotRequest.php:27`) and writes no event for it. A lot's
  events replay to its stored volume if and only if those silent overwrites cancel out
  (`LotLaws.ReplayEqualsState`; input: `LotLaws.UpdateHidesVolume`).
- The volume guard of transfers and topping reads the vessel's first open row whatever
  its lot (`api/app/Models/Vessel.php:151-162`). A transfer that passes loses exactly
  its variance if and only if the lot itself has the requested volume in the source
  (`FillLaws.TransferLosesVariance`; input: `FillLaws.GuardReadsAnotherLot`).
- A variance is not held against the volume at all
  (`api/app/Http/Requests/StoreTransferRequest.php:27-29`) and can leave an open row
  below zero; a transfer keeps open rows positive if and only if something is in the
  target afterwards (`FillLaws.TransferKeepsInv`; input: `FillLaws.VarianceEatsTransfer`).
- A user may set any status on any vessel (`api/app/Http/Requests/UpdateVesselRequest.php:25`);
  in_use stays in step with the open rows if and only if it is set exactly where there
  is one (`FillLaws.SetStatusKeepsInv`; input: `FillLaws.CleanedWhileFull`). Volumes,
  order of lists and replay do not depend on statuses.
- A rack whose target is one of the racked barrels and is drained dry ends with an open
  row and the status `empty`, because the target was loaded before the drain
  (`FillLaws.RackKeepsInv`; input: `FillLaws.RackIntoItself`).
- A sample that leaves less than half a unit stores an open row at zero
  (`FillLaws.SampleKeepsInv`; input: `FillLaws.SampleLeavesZeroRow`).
- The events of topping and racking are one per barrel, while the service changes the
  source or target once. When that vessel is also one of the barrels (which the
  requests accept), replaying the events gives the stored fills if and only if nothing
  is clamped there: the vessel holds what the list takes from it, or what goes into it
  is the list's first entry for a rack, its last or nothing for a topping
  (`FillEvents.ReplayRun`, `FillEvents.RackedLevelExact`, `FillEvents.ToppedLevelExact`;
  inputs: `FillEvents.SharedRackMisreplayed`, `FillEvents.SharedTopMisreplayed`).
- Splits and blends charge the receiving lots and leave the sources' entries in place,
  so the ledger's total is kept if and only if no child or component is large enough
  for a whole unit of cost (`CostLaws.SplitLedger`, `CostLaws.FinalizeCosts`; inputs:
  `CostLaws.SplitChargesTwice`, `CostLaws.BlendChargesTwice`).
- After a split the parent's cost per gallon rises instead of staying equal to its
  children's as the comment at `api/app/Services/LotSplitService.php:148-153` says. The
  exact unit cost is above every child's (`CostLaws.SplitUnitCosts`); the returned
  four-decimal values agree if and only if `CostLaws.SamePrice` holds of the volumes and
  the cost (`CostLaws.SplitPricesAgree`; input: `CostLaws.SplitChargesTwice`).
- The status change that a bottling run logs for an emptied lot always quotes
  `in_progress` as the old status (`api/app/Services/BottlingService.php:142-152`). The
  log quotes every old status truly if and only if no run emptied a lot that was not in
  progress (`StatusLaws.RunStatus`; input: `StatusLaws.AgingLotMisquoted`).
- `approve` and `cancel` read the session's status before their transaction and without
  a lock (`api/app/Services/PhysicalCountService.php:130-138`). A session is closed at
  most once if and only if no other approval or cancellation of it commits between one's
  status read and its own commit (`CountRaces.ClosedOnce`); two overlapping approvals
  post every variance twice (`CountRaces.TwiceApproved`; input:
  `CountRaces.DoubleApproval`).
- The volume of a lot is overwritten with one computed from a row read earlier without a
  lock (`api/app/Services/LotService.php:120-134`, `api/app/Services/LotSplitService.php:43`).
  Events and volume agree throughout an interleaving if and only if every write starts
  from the volume stored at that moment, as no other write of the lot in between would
  guarantee (`LotRaces.ReplaysExactly`, `LotRaces.FreshExactly`; input:
  `LotRaces.UpdateLost`).
- The SKU keeps the price per bottle in cents. It is within half a cent of the
  snapshot's, and all bottles at that price stay within the run's cost if and only if
  the snapshot's price rounds down (`BottlingLaws.SkuPrice`, which also settles negative
  costs; input: `BottlingLaws.SkuPriceExceeds`).
- Rounding grants the varietal label from 74.99995 per cent
  (`VarietalLabel.LabelCompliance`; input: `VarietalLabel.LabelBelowThreshold`).
- `recordShipment` tests nothing, so the yearly caps rest on each record following its
  own check (`Shipping.RecordKeepsCap`; input: `Shipping.TwoChecksExceed`).

## Model

| member | source | states |
|---|---|---|
| FillLaws.RunKeepsInv | api/app/Services/BarrelOperationService.php:41-375 | every run of transfer, fill, top, rack and sample keeps at most one open row per vessel and lot, open rows positive, closed rows at zero and frozen, in_use exactly on vessels with an open row |
| FillLaws.RunCarries | api/app/Services/BarrelOperationService.php:41-375 | every run whatsoever, whatever the amounts and whatever statuses users set, keeps one open row per vessel and lot, and closed rows at zero and frozen |
| FillLaws.SetStatusKeepsInv | api/app/Services/VesselService.php:67-86 | a status set by hand keeps the invariant if and only if it is in_use exactly for a vessel with an open row |
| FillLaws.CleanedWhileFull | api/app/Http/Requests/UpdateVesselRequest.php:25 | a full vessel set to cleaning breaks it |
| FillLaws.StatusAfterStep | api/app/Services/BarrelOperationService.php:326-334 | a vessel whose last open row closes becomes empty; other statuses are left alone or as set by hand |
| FillLaws.TransferAccounting | api/app/Services/TransferService.php:47-85 | for any unique rows, variance and statuses: exact level of the lot in both vessels and exact change of its total, with clamping; all other levels unchanged |
| FillLaws.TransferLosesVariance | api/app/Services/TransferService.php:50-85 | the lot's total drops by exactly the variance if and only if the lot has the requested volume in the source; guaranteed by the guard when the source holds that lot only |
| FillLaws.SingleLotGuard | api/app/Models/Vessel.php:151-162 | with a single lot in the source, transfer and topping are accepted if and only if the lot has the volume there |
| FillLaws.TransferGuard | api/app/Services/TransferService.php:50-60 | a transfer is accepted if and only if both vessels exist and the first open row in the source, of whatever lot, has the volume |
| FillLaws.BulkGuards | api/app/Services/BarrelOperationService.php:41-275 | topping is accepted if and only if all vessels exist and the first open row in the source has the summed volume; filling, racking and sampling if and only if the vessels exist |
| FillLaws.GuardReadsAnotherLot | api/app/Services/TransferService.php:50-60 | an input where the guard passes on another lot's volume and the total of the moved lot rises |
| FillLaws.TopAccounting | api/app/Services/BarrelOperationService.php:103-168 | exact levels after topping; the lot's total rises by what the source fell short of |
| FillLaws.RackAccounting | api/app/Services/BarrelOperationService.php:189-231 | a rack changes the lot's total by the sum of the shortfalls, and keeps it if and only if every barrel held what was racked |
| FillLaws.NoShortfall | api/app/Services/BarrelOperationService.php:300-340 | the shortfalls are zero if and only if each barrel holds all that the list, repeats included, takes from it |
| FillLaws.DrainAllEffect | api/app/Services/BarrelOperationService.php:192-225 | a barrel racked repeatedly ends at max(0, x - sum of its amounts), one not racked stays at x |
| FillLaws.TransferKeepsInv | api/app/Services/TransferService.php:79-85 | a transfer between two vessels keeps the table invariant if and only if the target ends above zero |
| FillLaws.VarianceEatsTransfer | api/app/Http/Requests/StoreTransferRequest.php:27-29 | moving 10 with a variance of 20 leaves an open row at -10 |
| FillLaws.RackKeepsInv | api/app/Services/BarrelOperationService.php:184-242 | a rack keeps the invariant if and only if it does not drain its own target dry |
| FillLaws.RackIntoItself | api/app/Services/BarrelOperationService.php:187-231 | an input where the racked target stays filled but is marked empty |
| FillLaws.SampleKeepsInv | api/app/Services/BarrelOperationService.php:254-263 | a sample keeps the invariant if and only if it leaves nothing or at least half a stored unit |
| FillLaws.SampleTakes | api/app/Services/BarrelOperationService.php:259-272 | a sample takes its millilitres, 3785.41 to the gallon, up to half a stored unit, or all there is |
| FillLaws.SampleLeavesZeroRow | api/app/Services/BarrelOperationService.php:260-263 | an input where a sample leaves an open row at zero |
| FillLaws.FillOrder | api/app/Services/BarrelOperationService.php:46-78 | any order of the barrel list fills to the same levels, open rows and statuses |
| FillLaws.TopOrder | api/app/Services/BarrelOperationService.php:128-159 | any order of the barrel list tops to the same levels, open rows and statuses |
| FillLaws.RackOrder | api/app/Services/BarrelOperationService.php:192-231 | any order of the barrel list racks to the same levels, open rows and statuses |
| FillEvents.ReplayRun | api/app/Services/BarrelOperationService.php:54-69 | for every run of accepted requests, variances, racked targets, samples and hand-set statuses included: the logged events replay to the stored volumes at every point if and only if every operation replays, which fails only for a clamped vessel on both sides of a bulk move |
| FillEvents.ReplayShowsOpen | api/app/Services/BarrelOperationService.php:54-69 | what replays also shows which rows are open |
| FillEvents.UnsharedReplays | api/app/Services/BarrelOperationService.php:103-231 | a topping or racking list in which the source or target is not one of the barrels always replays |
| FillEvents.ReplayNext | api/app/Services/BarrelOperationService.php:54-69 | from a point where the log replays it replays at the next if and only if the operation between them does |
| FillEvents.RackedLevelExact | api/app/Services/BarrelOperationService.php:192-231 | the replayed level of a racked target never exceeds the stored one and equals it if and only if the target holds what is racked from it or that is the first entry alone |
| FillEvents.ToppedLevelExact | api/app/Services/BarrelOperationService.php:128-159 | the replayed level of a topping source equals the stored one if and only if the source has the whole amount, or nothing goes back into it, or only the last entry does |
| FillEvents.SharedRackMisreplayed | api/app/Http/Requests/BarrelRackRequest.php:21-27 | a racking list with its target among the barrels: stored 20, replayed 10 |
| FillEvents.SharedTopMisreplayed | api/app/Http/Requests/BarrelTopRequest.php:21-27 | a topping list with its source among the barrels: stored 10, replayed 5 |
| VesselFills.IncreaseKeepsInv | api/app/Services/BarrelOperationService.php:345-375 | increasing keeps the invariant if and only if the new level is positive and the loaded status does not hide an emptied vessel |
| VesselFills.DecreaseLevels | api/app/Services/TransferService.php:123-164 | decreasing lowers one level to max(0, x - amount) and the lot's total by what was there, for any unique rows |
| VesselFills.OpenIffLevel | api/app/Services/TransferService.php:125-129 | under the invariant a row is open exactly where the level is positive |
| Cellar.BarrelRoom.DecreaseVesselVolume | api/app/Services/BarrelOperationService.php:300-340 | the row and status updates are those of the table transition |
| Cellar.BarrelRoom.IncreaseVesselVolume | api/app/Services/BarrelOperationService.php:345-375 | same, with the status remembered by the loaded vessel |
| Cellar.BarrelRoom.ExecuteTransfer | api/app/Services/TransferService.php:41-116 | guarded move with variance; a rejection changes nothing |
| Cellar.BarrelRoom.FillBarrels | api/app/Services/BarrelOperationService.php:41-85 | the loop fills all barrels and logs each, or rolls back on an unknown barrel |
| Cellar.BarrelRoom.TopBarrels | api/app/Services/BarrelOperationService.php:103-168 | guard on the summed volume, then source and barrels; rolls back on failure |
| Cellar.BarrelRoom.RackBarrels | api/app/Services/BarrelOperationService.php:184-242 | drains every barrel, then raises the target loaded at the start |
| Cellar.BarrelRoom.RecordSample | api/app/Services/BarrelOperationService.php:254-292 | deducts the millilitres from the barrel and logs the sample |
| CostAllocation.SplitShareBound | api/app/Services/LotSplitService.php:168-173 | a child's share is at most t*w/v and less than 1 + w/10^8 units below it |
| CostAllocation.SplitSharesBound | api/app/Services/LotSplitService.php:168-187 | all children get at most t*W/v and miss it by less than n + W/10^8 units |
| CostAllocation.SplitNeverExceeds | api/app/Services/LotSplitService.php:168-187 | the children never get more than the parent's cost |
| CostAllocation.SplitSharesFair | api/app/Services/LotSplitService.php:148-153 | any two children pay the same per gallon up to one truncated unit |
| CostAllocation.BlendShareBound | api/app/Services/BlendService.php:276-279 | a component's cost is at most t*w/s and less than 1 + t/10^8 units below it |
| CostLaws.SplitVolumes | api/app/Services/LotSplitService.php:62-108 | the parent loses the sum, each child has its volume, all other lots are untouched |
| CostLaws.SplitAccepted | api/app/Services/LotSplitService.php:43-56 | a split is accepted if and only if the lot exists and holds the children; one of the whole lot leaves it at zero |
| CostLaws.SplitCosts | api/app/Services/LotSplitService.php:156-188 | each child's ledger total is its share, in transfer_in entries; every older lot, parent included, keeps its own |
| CostLaws.SplitLedger | api/app/Services/LotSplitService.php:156-188 | bounds on what a split charges; the ledger total is kept if and only if the parent has no cost or volume or every child's volume times the unit cost is below one unit |
| CostLaws.SplitUnitCosts | api/app/Services/LotSplitService.php:148-153 | the parent's exact unit cost ends strictly above a child's if and only if the parent has a cost and the child a volume; the returned values enclose the one before the split |
| CostLaws.SplitPricesAgree | api/app/Services/LotSplitService.php:148-153 | the returned cost per gallon of a child and the parent agree if and only if a test on the parent's cost and the volumes holds; then the price moved by less than one unit |
| CostLaws.SplitChargesTwice | api/app/Services/LotSplitService.php:146-188 | a split into two after which the ledger holds 1400 dollars of 1000 spent and the parent's cost per gallon is above its children's |
| CostLaws.FinalizeVolumes | api/app/Services/BlendService.php:117-221 | a trial is finalized if and only if it is a draft and each source holds its component; exact lots afterwards, the new one named after the label or "Blend" |
| CostLaws.FinalizeCosts | api/app/Services/BlendService.php:262-294 | the blended lot gets the sum of truncated parts, at most the sources' positive costs; sources keep theirs, so the ledger total is kept if and only if no component hands on a whole unit |
| CostLaws.BlendChargesTwice | api/app/Services/BlendService.php:262-294 | a two-component blend after which the ledger holds 3000 dollars of 2000 spent |
| CostLaws.PartBound | api/app/Services/BlendService.php:264-283 | one component's part, with the volume before deduction, lies within its bounds |
| LotLaws.RunReplays | api/app/Services/LotService.php:33-157 | over any run, stored volume = replayed events + silent overwrites, and total wine = start + flow |
| LotLaws.ReplayEqualsState | api/app/Services/LotService.php:71-99 | replay equals the stored volume if and only if the silent overwrites cancel out |
| LotLaws.RunInStep | api/app/Services/LotService.php:118-157 | without volume overwrites, volumes, the volumes quoted in events, and the cost ledger are all what the log says |
| LotLaws.UpdateHidesVolume | api/app/Http/Requests/UpdateLotRequest.php:24-27 | one update that parts a lot from its events |
| LotLaws.UpdateStores | api/app/Services/LotService.php:71-90 | an update stores each field it is given and leaves the others, and logs exactly a changed status |
| LotLaws.RunSound | api/app/Services/LotService.php:120-130 | no lot volume is ever negative and every trial's total stays the sum of its distinct, known components |
| StatusLaws.RunStatus | api/app/Services/LotService.php:77-90 | over any run the statuses are those the events say, and the events quote the old status truly if and only if no run emptied a lot that was not in progress |
| StatusLaws.CompleteStatus | api/app/Services/BottlingService.php:138-155 | one completed run: the same, exactly |
| StatusLaws.AgingLotMisquoted | api/app/Services/BottlingService.php:146-148 | an emptied aging lot whose event says it was in progress |
| LotLaws.SplitLaw | api/app/Services/LotSplitService.php:104-124 | a split preserves the cellar's total volume and stays in step with the log |
| LotLaws.FinalizeLaw | api/app/Services/BlendService.php:158-237 | finalization preserves the cellar's total volume and stays in step with the log |
| LotLaws.CompleteLaw | api/app/Services/BottlingService.php:103-203 | bottling lowers the cellar by the bottled volume and stays in step with the log |
| LotLaws.PartsVolume | api/app/Services/BlendService.php:57-64 | the trial total computed from varieties is the sum of the components |
| LotRaces.ReplaysExactly | api/app/Services/LotService.php:118-145 | under every interleaving of loads and saves the events of a lot replay to its volume throughout if and only if every save starts from the volume stored then |
| LotRaces.FreshExactly | api/app/Services/LotSplitService.php:40-108 | a save starts from the stored volume if and only if the lot's volume at its load and at its save are the same, as without another write in between |
| LotRaces.OneBetween | api/app/Services/LotService.php:120-134 | with exactly one other write in between, if and only if that one changed nothing |
| LotRaces.Undisturbed | api/app/Services/LotService.php:118-145 | a load and a save with nothing in between do what adjustVolume does, or the parent's part of a split |
| LotRaces.UpdateLost | api/app/Services/LotService.php:120-134 | 100 less 40 and 30 at once: 70 stored, 30 replayed |
| BottlingLaws.CloseRunEffect | api/app/Services/BottlingService.php:93-182 | a run completes if and only if open, covered by its lot and with a non-zero case size; exact tables afterwards |
| BottlingLaws.CompleteEffect | api/app/Services/BottlingService.php:184-192 | packaging is drawn, the log ends with the whole COGS snapshot of the ledger and prices before the call, and one SKU of the lot or run gets the price per bottle in cents |
| BottlingLaws.SkuPrice | api/app/Services/CostAccumulationService.php:369-378 | the SKU's price is within half a cent of the snapshot's; bottles times that price stays within the total if and only if the price rounds down (for a negative total: away from zero, or nothing is lost) |
| BottlingLaws.SkuPriceExceeds | api/app/Models/CaseGoodsSku.php:103-111 | 101 dollars over 12 bottles: the SKU says 8.42, together 101.04 |
| BottlingLaws.SnapshotColumns | api/app/Services/CostAccumulationService.php:303-358 | after any run with validated cost types, the five columns of the next snapshot add up to the cost of the lot, and with packaging to the total |
| BottlingLaws.PackagingTotals | api/app/Services/BottlingService.php:213-264 | each linked item loses the sum of what the components draw from it; unknown items are skipped |
| BottlingLaws.RunConsumes | api/app/Services/CostAccumulationService.php:312-321 | with every component linked, the packaging total of a completed run is the dry goods it took, at their unit costs |
| BottlingLaws.ComponentAdds | api/app/Services/CostAccumulationService.php:315-320 | a component adds its quantity times the unit cost of the item its link or else its name finds, or nothing |
| BottlingLaws.PlannedRun | api/app/Services/BottlingService.php:43-67 | a planned run is stored as asked, 12 bottles to the case by default; refused only for an unknown lot or a case size of zero |
| BottlingLaws.PackagingOrder | api/app/Services/BottlingService.php:215-236 | the order of the components does not matter to the stock |
| BottlingLaws.CompletedCases | api/app/Services/BottlingService.php:125-136 | a completed run records full cases: they fit its bottles and less than one case is left over |
| LotServices.Winery.AdjustVolume | api/app/Services/LotService.php:118-157 | the guarded volume change and its event, or no change |
| LotServices.Winery.UpdateLot | api/app/Services/LotService.php:71-99 | overwrites the given fields, logs a changed status only |
| LotServices.Winery.SplitLot | api/app/Services/LotSplitService.php:40-146 | sum, guard, children, parent and costs as one transition |
| LotServices.Winery.CreateBlendTrial | api/app/Services/BlendService.php:43-109 | total, composition, label and components; unknown or repeated sources roll back |
| LotServices.Winery.FinalizeTrial | api/app/Services/BlendService.php:117-251 | check, new lot, deductions, trial and costs as one transition, or nothing |
| LotServices.Winery.CompleteBottlingRun | api/app/Services/BottlingService.php:93-204 | deduction, run, status, packaging and COGS as one transition, or nothing |
| CostLedger.GetTotalCost | api/app/Services/CostAccumulationService.php:220-230 | the loop returns the sum of the lot's entries |
| CostLedger.GetCostBreakdown | api/app/Services/CostAccumulationService.php:237-248 | one key per occurring type, holding that type's sum |
| CostLedger.ColumnsPlusOutside | api/app/Services/CostAccumulationService.php:303-358 | the five columns and the entries of other types make the total |
| CostLedger.CogsAgreement | api/app/Services/CostAccumulationService.php:303-367 | entries of known types: the five columns add up to the lot's cost and with packaging to the total; in general if and only if other types cancel out |
| CostLedger.CogsPerBottle | api/app/Services/CostAccumulationService.php:324-343 | bounds of cost per bottle and per case; the case price is exactly the case size times the bottle price |
| CostLedger.CogsPerGallon | api/app/Services/CostAccumulationService.php:324-351 | no prices without bottles; per gallon the truncated quotient by the bottled volume, and none without a volume; the total is bulk cost plus packaging |
| CostLedger.CogsEntry | api/app/Services/CostAccumulationService.php:303-351 | one more cost entry raises the snapshot column of its type and the total by its amount if it is the lot's, and nothing else |
| BottlingLaws.CompletedCogs | api/app/Services/CostAccumulationService.php:303-407 | the snapshot a completed run logs is for its own lot, bottles, case size and volume, with the bounds per bottle, case and gallon |
| CostLedger.CalculateBottlingCogs | api/app/Services/CostAccumulationService.php:303-367 | the loops compute the snapshot, items found by link or else by product name |
| CostLedger.NamedItem | api/app/Services/CostAccumulationService.php:315-316 | without a link that resolves, a component is priced by the first item whose name matches the product name as a pattern; for a name without pattern characters, the first that contains it, whatever the case |
| NameSearch.PatternFinds | api/app/Services/CostAccumulationService.php:316 | for every text without `%` or a lone backslash at its end, the search finds exactly the names with the characters it asks for in a row, `_` for any one and a backslash for the next as it is, whatever the case |
| NameSearch.SearchFinds | api/app/Services/CostAccumulationService.php:316 | the pattern search finds exactly the names that contain a text without pattern characters |
| VarietalLabel.Compose | api/app/Services/BlendService.php:52-85 | the loops compute total, rounded composition and label |
| VarietalLabel.LabelExact | api/app/Services/BlendService.php:66-81 | the label is x if and only if x occurs and holds at least 74.99995 per cent of a positive volume; 75 per cent always suffices |
| VarietalLabel.LabelCompliance | api/app/Models/BlendTrial.php:34-35 | for every blend and variety: the label implies 75 per cent if and only if the share is not in the band that rounding lets through |
| VarietalLabel.LabelBelowThreshold | api/app/Services/BlendService.php:69-71 | an input labelled below 75 per cent |
| VarietalLabel.AtMostOneLabel | api/app/Services/BlendService.php:74-81 | at most one variety reaches the threshold |
| VarietalLabel.LabelOrder | api/app/Services/BlendService.php:57-81 | the label does not depend on the order of the components |
| VarietalLabel.VarietiesCoverBlend | api/app/Services/BlendService.php:57-64 | the variety volumes add up to the total |
| VarietalLabel.ShareRounded | api/app/Services/BlendService.php:66-72 | each percentage is the variety's share up to half a unit of the fourth decimal, and zero in a blend without volume |
| VarietalLabel.PercentagesAddUp | api/app/Services/BlendService.php:66-72 | n rounded percentages add up to 100 within n * 0.00005 |
| BlendLabels.FinalLabel | api/app/Services/BlendService.php:146-160 | after any run a trial's label still is what its sources' varieties give, and finalization passes it on |
| BlendLabels.TrialStored | api/app/Services/BlendService.php:43-102 | a trial is stored, as a draft with the summed volume and the exact label, if and only if its sources are lots and none is named twice |
| Overhead.ActiveBatch | api/app/Services/OverheadAllocationService.php:78-89 | each lot in work gains the sum over active rates of its positive truncated allocation, every other lot nothing |
| Overhead.OneRateBatch | api/app/Services/OverheadAllocationService.php:93-138 | a batch with one active rate raises a lot in work by the truncated product of the rate and its gallons, completed cases or completed hours |
| Overhead.CompletionRaisesCharge | api/app/Services/OverheadAllocationService.php:115-126 | completing a run raises the per_case charge of its lot by rate times cases and leaves the labour charge alone |
| Overhead.PlannedRunsDoNotCount | api/app/Services/OverheadAllocationService.php:115-126 | the cases of a run count only once it is completed |
| Overhead.OneMoreOrder | api/app/Services/OverheadAllocationService.php:131-138 | only completed work orders of the lot count |
| Overhead.BatchOrder | api/app/Services/OverheadAllocationService.php:80-87 | neither the order of rates nor that of lots matters |
| Overhead.OverheadService.Allocate | api/app/Services/OverheadAllocationService.php:38-69 | the loop records the positive allocations of one rate |
| Overhead.OverheadService.AllocateAllActive | api/app/Services/OverheadAllocationService.php:78-89 | the loop runs every active rate over the lots in work |
| Inventory.RunBalanced | api/app/Services/InventoryService.php:206-310 | balance, movement ledger and replayed events stay equal over any run, per SKU and location |
| Inventory.TransferLaw | api/app/Services/InventoryService.php:121-196 | a transfer moves stock between two locations and leaves every SKU's total unchanged |
| Inventory.AcceptedExactly | api/app/Services/InventoryService.php:30-135 | which operations are refused, exactly |
| Inventory.MoveLaw | api/app/Services/InventoryService.php:277-309 | one movement changes exactly one balance and its ledger |
| Inventory.InventoryService.RecordMovementInTransaction | api/app/Services/InventoryService.php:267-310 | find or create the row, add, append the movement |
| Inventory.InventoryService.TransferStock | api/app/Services/InventoryService.php:121-196 | argument checks, two movements, one event |
| StockConcurrency.Serializable | api/app/Services/InventoryService.php:137-195 | under every interleaving of locking transactions, count approvals among them and missing rows included, the committed tables are those of the committed jobs run one by one |
| StockConcurrency.NoLostUpdate | api/app/Services/InventoryService.php:277-296 | each balance, of an existing or missing row, is its start plus all quantities committed for it |
| StockConcurrency.OthersUndisturbed | api/app/Services/InventoryService.php:279-283 | a row lock keeps a transaction's read current until it commits |
| StockProgress.EveryRun | api/app/Services/InventoryService.php:30-310 | the converse of serializability: every run of stock operations and count requests, one after the other, is what some interleaving of the locking transactions commits, in balances, movements, events and sessions |
| StockProgress.JobsAreRequests | api/app/Services/PhysicalCountService.php:39-232 | a transaction committed alone changes stock and sessions as the service request it stands for, and begins exactly when that is accepted |
| StockProgress.StartCommits | api/app/Services/PhysicalCountService.php:39-82 | a started session takes requests from its commit on and not before |
| StockProgress.AbortReleases | api/app/Services/InventoryService.php:277-296 | an abort at any point leaves the tables as they were and frees exactly its own locks |
| PhysicalCounts.ApprovalRebases | api/app/Services/PhysicalCountService.php:39-194 | an approved SKU ends at the quantity submitted for it last in the run + movement since the start, newly found SKUs included; all else is untouched |
| PhysicalCounts.CountedAfter | api/app/Services/PhysicalCountService.php:97-118 | what a session holds for a SKU after a list of counts is the quantity submitted last, or what it held before |
| PhysicalCounts.ApprovedOnce | api/app/Services/PhysicalCountService.php:130-136 | when requests on a session run one after the other, it is approved at most once and never after a cancellation |
| PhysicalCounts.SessionExactly | api/app/Services/PhysicalCountService.php:40-231 | recording, approving and cancelling are refused if and only if the session is not in progress; what each leaves alone; the events report the stock rows at the location, the movements made and the lines with a count |
| CountRaces.ClosedOnce | api/app/Services/PhysicalCountService.php:130-138 | overlapping requests: from its start on a session is closed at most once if and only if no other approval or cancellation of it commits between one's status read and its own commit |
| CountRaces.StartRemembers | api/app/Services/PhysicalCountService.php:39-62 | a session whose snapshot is read amid other transactions remembers the committed balances of that moment, and nobody holds a request on it |
| CountRaces.LookedFirst | api/app/Services/PhysicalCountService.php:132-136 | every closing has read the status before, while the session was open |
| CountRaces.RebasesAtCommit | api/app/Services/PhysicalCountService.php:138-170 | a session started at any point of any interleaving: a committed approval leaves a SKU at the quantity submitted last before the approval began + all committed since the snapshot was read, all else as it was |
| CountRaces.DoubleApproval | api/app/Services/PhysicalCountService.php:130-138 | two approvals that both read in_progress post the variance twice |
| CountRaces.TwiceApproved | api/app/Services/PhysicalCountService.php:138-170 | two committed approvals with the same submitted quantity: the SKU ends at that quantity + what others moved + its variance a second time |
| PhysicalCounts.DeskBalanced | api/app/Services/PhysicalCountService.php:151-161 | counting included, balance, ledger and events stay equal |
| PhysicalCounts.PostAllLaw | api/app/Services/PhysicalCountService.php:142-164 | one adjustment per counted line with a variance, each at its own SKU |
| PhysicalCounts.CountService.StartCount | api/app/Services/PhysicalCountService.php:39-82 | snapshots every stock row of the location |
| PhysicalCounts.CountService.RecordCounts | api/app/Services/PhysicalCountService.php:89-123 | records counts and variances, adding unknown SKUs at zero |
| PhysicalCounts.CountService.ApproveCount | api/app/Services/PhysicalCountService.php:130-194 | posts the variances and completes the session |
| PhysicalCounts.CountService.CancelCount | api/app/Services/PhysicalCountService.php:199-232 | closes the session without touching stock |
| EventSync.BatchLaw | api/app/Services/EventProcessor.php:39-94 | the log only grows, non-null keys stay unique, the counters add up and log growth is the accepted count |
| EventSync.BatchSplits | api/app/Services/EventProcessor.php:46-79 | processing A then B gives the log and results of processing A followed by B |
| EventSync.ResendProcessed | api/app/Services/EventLogger.php:62-74 | resending anything out of a processed keyed batch appends nothing |
| EventSync.RetriesConverge | api/app/Services/EventProcessor.php:107-129 | however many attempts fail part-way, one clean attempt leaves each storable key in the log exactly once |
| EventSync.FailedChangesNothing | api/app/Services/EventProcessor.php:62-78 | a failed event leaves the log unchanged; exactly when an event fails |
| EventSync.FirstWins | api/app/Services/EventLogger.php:62-86 | the first success under a key decides what is stored under it, field by field |
| EventSync.AddedFromBatch | api/app/Services/EventProcessor.php:109-120 | every added event says what one of the batch's submissions said: its data rebuilds the submission's, with user, synced flag and source |
| EventSync.ProcessExactly | api/app/Services/EventProcessor.php:107-129 | one submission: accepted if and only if it meets no fault, fits the columns and its key is free, and then the log gains one event that rebuilds it; skipped if and only if an event has its key, whose position is reported |
| EventSync.ResolveFinds | api/app/Services/EventLogger.php:113-127 | the source is that of the first matching prefix, or production |
| EventSync.ResolveExact | api/app/Services/EventLogger.php:113-127 | with exclusive prefixes the search order of sources is irrelevant |
| EventSync.ShippedExclusive | api/config/event-sources.php:18-44 | the shipped prefixes are exclusive between sources |
| EventSync.EventStore.Log | api/app/Services/EventLogger.php:51-97 | key lookup first, then constraints, then append |
| EventSync.EventStore.ProcessBatch | api/app/Services/EventProcessor.php:39-94 | the loop's log, results and counters |
| SyncRaces.Overlapping | api/app/Services/EventLogger.php:62-86 | under every interleaving of overlapping syncs no key is stored twice, the log is that of the attempts in the order in which they ended, and each report is what the attempt would have been told alone, but for lost keys reported as failed |
| SyncRaces.AcceptedOnce | api/app/Services/EventProcessor.php:107-129 | of all attempts with one key at most one is accepted, and one is if and only if the log has the key |
| SyncRaces.LosesExactly | api/app/Services/EventLogger.php:62-86 | an attempt with a storable event fails at its insert if and only if another attempt committed its key since its lookup |
| SyncRaces.Undisturbed | api/app/Services/EventLogger.php:51-97 | an attempt nobody overlaps stores and reports what the logger would |
| SyncRaces.EveryBatch | api/app/Services/EventProcessor.php:39-94 | every batch processed one event after the other is what some interleaving commits |
| Shipping.RunKeepsCap | api/app/Services/DTCComplianceService.php:25-136 | over every run in which each record follows its allowed check, yearly totals respect the limits and barred states stay at zero |
| Shipping.RecordKeepsCap | api/app/Services/DTCComplianceService.php:121-136 | a record keeps the caps if and only if the check would allow it then, or it is an empty one to a barred state |
| Shipping.CheckExactly | api/app/Services/DTCComplianceService.php:25-116 | each of the four refusals has its own condition, in this order, and the reported totals are those of the year |
| Shipping.TwoChecksExceed | api/app/Services/DTCComplianceService.php:121-136 | two checks before two records exceed a limit |
| Shipping.SinceIsIn | api/app/Services/DTCComplianceService.php:55-66 | what the check adds up since the start of the year is that year's total |
| Shipping.ComplianceService.CheckEligibility | api/app/Services/DTCComplianceService.php:25-116 | the branches of the check over the stored shipments |
| Shipping.ComplianceService.GetCustomerAnnualSummary | api/app/Services/DTCComplianceService.php:143-165 | one entry per state shipped to, with exactly the totals the check uses |
| Thresholds.ResolveEffective | api/app/Services/LabThresholdChecker.php:84-103 | exactly one threshold per level that occurs: the first variety-specific one, else the first global one |
| Thresholds.Check | api/app/Services/LabThresholdChecker.php:28-76 | exactly the alerts of violated thresholds that count, each level at most once |
| Thresholds.LevelAlerts | api/app/Services/LabThresholdChecker.php:48-63 | a level alerts if and only if its threshold's bounds are violated |
| Thresholds.AlertsExact | api/app/Services/LabThresholdChecker.php:51-61 | an alert is in the list exactly when it names the threshold that counts at its level and that violation |
| Thresholds.ViolationTells | api/app/Services/LabThresholdChecker.php:110-130 | above the maximum is too high, otherwise below the minimum is too low, and neither is no violation |
| Thresholds.QueryExact | api/app/Models/LabThreshold.php:93-102 | the query finds the thresholds of the test type that are global or for the variety, those for the variety first |
| Thresholds.SpecificWins | api/app/Services/LabThresholdChecker.php:91-99 | a variety-specific threshold is never overruled by a global one |
| Thresholds.OrderIrrelevant | api/app/Models/LabThreshold.php:93-102 | without rivals at a level the row order is irrelevant |

## Left out

- Quantities finer than the stored precision, and floating-point error: amounts are whole stored units except the millilitres of a sample, which are exact reals.
- Concurrent blend, bottling and barrel operations as wholes: those services take no row locks and test statuses and volumes on rows loaded before their transaction, so their methods are modelled one at a time; `LotRaces` covers the loads and saves of lot volumes.
- A crash between the row write and the event write of createLot, updateLot or adjustVolume outside a transaction.
- Deadlocks and liveness of row locks.
- PhysicalCounts.ApprovedOnce: holds of requests that run one after the other, because approve and cancel test the status outside their transaction; CountRaces.ClosedOnce covers overlapping ones.
- Concurrent shipments, which overlap only in `Shipping.TwoChecksExceed`.
- Order of database queries without an ORDER BY: tables are read in insertion order; the order-independence lemmas say where this cannot matter.
- Text and metadata fields, vintage, timestamps (other than the shipping clock), structured logging, and the SKU text of bottling.
- Case folding of letters other than a to z in the product-name search, and prices too large for their columns.
- An explicit null performed_at in a synced event, which the logger would replace by the current time: the model treats it as missing.
- recordMaterialCost's lookup of a raw material's unit price, recordLaborCost's inputs and recordFruitCost's options: all cost records are one append with a type and an amount.
- FermentationService, FilterLogService, SensoryNoteService, LabAnalysisService, VesselService, BarrelService, WorkOrderService, CertificationComplianceService, PressLogService and AdditionService: record-and-log services with single-branch claims.
- TTBReportGenerator, WineTypeClassifier, LotTraceabilityService, PurchaseOrder receiving and the Kotlin sync engine are not part of this model.
- Filament pages, routes, controllers, tenancy, permissions, billing and search.
