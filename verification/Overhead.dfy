/** OverheadAllocationService: fixed costs spread over the lots in work, per
    gallon, per case or per labour hour. */
module Overhead {
  import opened FixedPoint
  import opened Sums
  import opened Options
  import opened CostLedger
  import opened LotBook
  import opened LotLaws
  import opened LotServices
  import opened BottlingLaws
  import opened CostLaws

  datatype AllocationMethod = PerGallon | PerCase | PerLaborHour | Unknown

  /** The rate is in units of 10^-4 per gallon, case or hour. */
  datatype Rate = Rate(allocation: AllocationMethod, rate: int, active: bool)

  /** Hours in units of 10^-2. */
  datatype WorkOrder = WorkOrder(lot: nat, completed: bool, hours: int)

  function CasesOf(l: nat): Run -> int {
    (r: Run) => if r.lot == l && r.completed then r.cases else 0
  }

  function HoursOf(l: nat): WorkOrder -> int {
    (w: WorkOrder) => if w.lot == l && w.completed then w.hours else 0
  }

  /** The truncated product of the rate and the lot's base; none for an unknown
      allocation method. */
  function Allocation(b: Book, orders: seq<WorkOrder>, r: Rate, l: nat): Option<int> {
    match r.allocation
    case PerGallon => Some(TruncDiv(r.rate * VolumeAt(b)(l), 10000))
    case PerCase => Some(r.rate * SumBy(CasesOf(l), b.runs))
    case PerLaborHour => Some(TruncDiv(r.rate * SumBy(HoursOf(l), orders), 100))
    case Unknown => None
  }

  /** What a rate adds to a lot: the allocation when it is positive. */
  function Charge(b: Book, orders: seq<WorkOrder>, r: Rate, l: nat): int {
    var a := Allocation(b, orders, r, l);
    if a.Some? && a.value > 0 then a.value else 0
  }

  function AllocateToLots(b: Book, orders: seq<WorkOrder>, r: Rate, ls: seq<nat>): Book {
    if ls == [] then b
    else
      var before, l := AllocateToLots(b, orders, r, ls[..|ls| - 1]), ls[|ls| - 1];
      var amount := Charge(before, orders, r, l);
      if amount > 0 then Record(before, l, Overhead, amount) else before
  }

  function AllocateAll(b: Book, orders: seq<WorkOrder>, rates: seq<Rate>, ls: seq<nat>): Book {
    if rates == [] then b
    else AllocateToLots(AllocateAll(b, orders, rates[..|rates| - 1], ls), orders, rates[|rates| - 1], ls)
  }

  predicate InWork(b: Book, l: nat) {
    l < |b.lots| && (b.lots[l].status == InProgress || b.lots[l].status == Aging)
  }

  /** A list of the lots in work, each once, in any order. */
  ghost predicate Lists(b: Book, ls: seq<nat>) {
    && (forall i, j | 0 <= i < j < |ls| :: ls[i] != ls[j])
    && (forall l: nat :: l in ls <==> InWork(b, l))
  }

  function ActiveRates(rates: seq<Rate>): seq<Rate> {
    if rates == [] then []
    else
      var r := rates[|rates| - 1];
      ActiveRates(rates[..|rates| - 1]) + (if r.active then [r] else [])
  }

  function LotsInWork(b: Book, n: nat): (ls: seq<nat>)
    requires n <= |b.lots|
    ensures forall l: nat :: l in ls <==> l < n && InWork(b, l)
    ensures forall i, j | 0 <= i < j < |ls| :: ls[i] != ls[j]
  {
    if n == 0 then [] else LotsInWork(b, n - 1) + (if InWork(b, n - 1) then [n - 1] else [])
  }

  class OverheadService {
    const winery: Winery

    constructor (winery: Winery)
      ensures this.winery == winery
    {
      this.winery := winery;
    }

    method Allocate(orders: seq<WorkOrder>, r: Rate, ls: seq<nat>)
      modifies winery`costs, winery`log
      ensures winery.Now() == AllocateToLots(old(winery.Now()), orders, r, ls)
    {
      var i := 0;
      while i < |ls|
        invariant 0 <= i <= |ls|
        invariant winery.Now() == AllocateToLots(old(winery.Now()), orders, r, ls[..i])
      {
        assert ls[..i + 1][..i] == ls[..i];
        var amount := Allocation(winery.Now(), orders, r, ls[i]);
        if amount.Some? && amount.value > 0 {
          winery.RecordCost(ls[i], Overhead, amount.value);
        }
        i := i + 1;
      }
      assert ls[..i] == ls;
    }

    method AllocateAllActive(orders: seq<WorkOrder>, allRates: seq<Rate>)
      modifies winery`costs, winery`log
      ensures winery.Now() == AllocateAll(old(winery.Now()), orders, ActiveRates(allRates),
                                          LotsInWork(old(winery.Now()), |winery.lots|))
    {
      var rates := ActiveRates(allRates);
      var ls := LotsInWork(winery.Now(), |winery.lots|);
      var i := 0;
      while i < |rates|
        invariant 0 <= i <= |rates|
        invariant winery.Now() == AllocateAll(old(winery.Now()), orders, rates[..i], ls)
      {
        assert rates[..i + 1][..i] == rates[..i];
        Allocate(orders, rates[i], ls);
        i := i + 1;
      }
      assert rates[..i] == rates;
    }
  }

  // ---------- What a rate charges ----------

  /** What a lot is charged, in the words of the method: the product of rate and base at
      four decimals, truncated, and nothing when that is not positive. */
  predicate Charged(basis: AllocationMethod, rate: int, gallons: int, cases: int, hours: int, a: int) {
    match basis
    case PerGallon => if rate * gallons <= 0 then a == 0 else 10000 * a <= rate * gallons < 10000 * a + 10000
    case PerCase => a == if rate * cases <= 0 then 0 else rate * cases
    case PerLaborHour => if rate * hours <= 0 then a == 0 else 100 * a <= rate * hours < 100 * a + 100
    case Unknown => a == 0
  }

  lemma ChargeMeaning(b: Book, orders: seq<WorkOrder>, r: Rate, l: nat)
    ensures Charged(r.allocation, r.rate, VolumeAt(b)(l), SumBy(CasesOf(l), b.runs), SumBy(HoursOf(l), orders),
                    Charge(b, orders, r, l))
  {
  }

  /** Only completed work orders of the lot count. */
  lemma OneMoreOrder(orders: seq<WorkOrder>, w: WorkOrder, l: nat)
    ensures SumBy(HoursOf(l), orders + [w]) ==
              SumBy(HoursOf(l), orders) + (if w.completed && w.lot == l then w.hours else 0)
  {
    SumPush(HoursOf(l), orders, w);
  }

  /** Completing a run adds its full cases to its lot's base and to no other; planned runs
      do not count. */
  lemma CompletionAddsCases(b: Book, k: nat, l: nat)
    requires Complete(b, k).Some?
    ensures var c, r := Complete(b, k).value, b.runs[k];
            && k < |c.runs|
            && SumBy(CasesOf(l), c.runs) == SumBy(CasesOf(l), b.runs) + (if l == r.lot then c.runs[k].cases else 0)
            && c.runs[k].perCase == r.perCase && c.runs[k].bottles == r.bottles
            && (0 <= r.bottles && 0 < r.perCase ==>
                  && 0 <= c.runs[k].cases
                  && r.perCase * c.runs[k].cases <= r.bottles < r.perCase * c.runs[k].cases + r.perCase)
  {
    hide Complete, IntDiv, CloseRun;
    CompleteEffect(b, k);
    CloseRunEffect(b, k);
    if 0 <= b.runs[k].bottles && 0 < b.runs[k].perCase {
      CompletedCases(b, k);
    }
    SumUpdate(CasesOf(l), b.runs, k, Complete(b, k).value.runs[k]);
  }

  lemma PlannedRunsDoNotCount(b: Book, r: Run, l: nat)
    requires !r.completed
    ensures SumBy(CasesOf(l), b.runs + [r]) == SumBy(CasesOf(l), b.runs)
  {
    SumPush(CasesOf(l), b.runs, r);
  }

  /** So the per_case charge of a lot rises by the rate for each case of a completed run,
      and the charge per labour hour stays. */
  lemma CompletionRaisesCharge(b: Book, orders: seq<WorkOrder>, k: nat, rate: int, active: bool)
    requires Complete(b, k).Some? && 0 <= rate
    requires 0 <= SumBy(CasesOf(b.runs[k].lot), b.runs) && 0 <= b.runs[k].bottles && 0 < b.runs[k].perCase
    ensures var c, l := Complete(b, k).value, b.runs[k].lot;
            && k < |c.runs| && 0 <= c.runs[k].cases
            && Charge(c, orders, Rate(PerCase, rate, active), l) ==
                 Charge(b, orders, Rate(PerCase, rate, active), l) + rate * c.runs[k].cases
            && Charge(c, orders, Rate(PerLaborHour, rate, active), l) ==
                 Charge(b, orders, Rate(PerLaborHour, rate, active), l)
  {
    hide *;
    var c, l := Complete(b, k).value, b.runs[k].lot;
    CompletionAddsCases(b, k, l);
    HourChargeStays(b, c, orders, rate, active, l);
    ChargePerCase(c, orders, rate, active, l);
    ChargePerCase(b, orders, rate, active, l);
    Distribute(rate, SumBy(CasesOf(l), b.runs), c.runs[k].cases);
  }

  lemma Distribute(rate: int, n: int, more: int)
    ensures rate * (n + more) == rate * n + rate * more
  {
  }

  lemma HourChargeStays(b: Book, c: Book, orders: seq<WorkOrder>, rate: int, active: bool, l: nat)
    ensures Charge(c, orders, Rate(PerLaborHour, rate, active), l) ==
              Charge(b, orders, Rate(PerLaborHour, rate, active), l)
  {
  }

  lemma ChargePerCase(b: Book, orders: seq<WorkOrder>, rate: int, active: bool, l: nat)
    requires 0 <= rate && 0 <= SumBy(CasesOf(l), b.runs)
    ensures Charge(b, orders, Rate(PerCase, rate, active), l) == rate * SumBy(CasesOf(l), b.runs)
  {
    MulLe(0, SumBy(CasesOf(l), b.runs), rate);
  }

  // ---------- What a batch charges ----------

  function ChargeTo(b: Book, orders: seq<WorkOrder>, r: Rate, m: nat): nat -> int {
    (l: nat) => if l == m then Charge(b, orders, r, m) else 0
  }

  function ChargeOn(b: Book, orders: seq<WorkOrder>, m: nat): Rate -> int {
    (r: Rate) => Charge(b, orders, r, m)
  }

  /** Allocation reads lots, runs and work orders and writes only cost entries. */
  predicate SameBases(b: Book, c: Book) {
    c == b.(costs := c.costs, log := c.log)
  }

  lemma {:induction false} ToLotsEffect(b: Book, orders: seq<WorkOrder>, r: Rate, ls: seq<nat>)
    ensures var c := AllocateToLots(b, orders, r, ls);
            && SameBases(b, c) && Keeps(b, c) && Adds(b.costs, c.costs, CostType.Overhead)
            && forall m: nat :: TotalCost(c.costs, m) == TotalCost(b.costs, m) + SumBy(ChargeTo(b, orders, r, m), ls)
  {
    hide Adds;
    if ls == [] {
      KeepsSelf(b);
      AddsNothing(b.costs);
    } else {
      hide TotalCost, Allocation, Keeps;
      var front, l := ls[..|ls| - 1], ls[|ls| - 1];
      ToLotsEffect(b, orders, r, front);
      var before := AllocateToLots(b, orders, r, front);
      ChargeSame(b, before, orders, r, l);
      RecordTotals(before, l, Overhead, Charge(b, orders, r, l));
      RecordLaw(before, l, Overhead, Charge(b, orders, r, l));
      if 0 < Charge(b, orders, r, l) {
        AddsOne(b.costs, before.costs, l, CostType.Overhead, Charge(b, orders, r, l));
        KeepsChain(b, before, AllocateToLots(b, orders, r, ls));
      }
      assert 0 <= Charge(b, orders, r, l);
    }
  }

  lemma AddsChain(a: seq<CostEntry>, b: seq<CostEntry>, c: seq<CostEntry>, ty: CostType)
    requires Adds(a, b, ty) && Adds(b, c, ty)
    ensures Adds(a, c, ty)
  {
    assert c[..|a|] == b[..|a|];
  }

  lemma ChargeSame(b: Book, c: Book, orders: seq<WorkOrder>, r: Rate, l: nat)
    requires SameBases(b, c)
    ensures Charge(c, orders, r, l) == Charge(b, orders, r, l)
  {
    assert VolumeAt(c)(l) == VolumeAt(b)(l);
  }

  lemma {:induction false} ChargedOnce(b: Book, orders: seq<WorkOrder>, r: Rate, ls: seq<nat>, m: nat)
    requires forall i, j | 0 <= i < j < |ls| :: ls[i] != ls[j]
    ensures SumBy(ChargeTo(b, orders, r, m), ls) == if m in ls then Charge(b, orders, r, m) else 0
  {
    if ls != [] {
      var front, l := ls[..|ls| - 1], ls[|ls| - 1];
      ChargedOnce(b, orders, r, front, m);
      assert m in ls <==> m in front || m == l;
    }
  }

  /** One batch raises each listed lot by the sum, over the rates, of its positive
      truncated allocations; every other lot keeps its cost; log and ledger stay
      in step. */
  lemma {:induction false} BatchEffect(b: Book, orders: seq<WorkOrder>, rates: seq<Rate>, ls: seq<nat>)
    requires forall i, j | 0 <= i < j < |ls| :: ls[i] != ls[j]
    ensures var c := AllocateAll(b, orders, rates, ls);
            && SameBases(b, c) && Keeps(b, c) && Adds(b.costs, c.costs, CostType.Overhead)
            && forall m: nat :: TotalCost(c.costs, m) ==
                 TotalCost(b.costs, m) + (if m in ls then SumBy(ChargeOn(b, orders, m), rates) else 0)
  {
    if rates == [] {
      KeepsSelf(b);
      AddsNothing(b.costs);
    } else {
      hide TotalCost, Charge, Keeps, AllocateToLots, Adds;
      var front, r := rates[..|rates| - 1], rates[|rates| - 1];
      BatchEffect(b, orders, front, ls);
      var before := AllocateAll(b, orders, front, ls);
      ToLotsEffect(before, orders, r, ls);
      KeepsChain(b, before, AllocateAll(b, orders, rates, ls));
      AddsChain(b.costs, before.costs, AllocateAll(b, orders, rates, ls).costs, CostType.Overhead);
      forall m: nat
        ensures SumBy(ChargeTo(before, orders, r, m), ls) == if m in ls then Charge(b, orders, r, m) else 0
      {
        ChargedOnce(before, orders, r, ls, m);
        ChargeSame(b, before, orders, r, m);
      }
    }
  }

  /** allocateAllActive charges exactly the lots in work, and neither the order of
      the rates nor that of the lots matters to any lot's cost. */
  lemma BatchOrder(b: Book, orders: seq<WorkOrder>, rates: seq<Rate>, rates': seq<Rate>, ls: seq<nat>, ls': seq<nat>)
    requires Lists(b, ls) && Lists(b, ls') && multiset(rates) == multiset(rates')
    ensures forall m: nat ::
              && TotalCost(AllocateAll(b, orders, rates, ls).costs, m) ==
                   TotalCost(AllocateAll(b, orders, rates', ls').costs, m)
              && (!InWork(b, m) ==> TotalCost(AllocateAll(b, orders, rates, ls).costs, m) == TotalCost(b.costs, m))
  {
    hide TotalCost, AllocateAll;
    BatchEffect(b, orders, rates, ls);
    BatchEffect(b, orders, rates', ls');
    forall m: nat
      ensures SumBy(ChargeOn(b, orders, m), rates) == SumBy(ChargeOn(b, orders, m), rates')
    {
      SumPermutation(ChargeOn(b, orders, m), rates, rates');
    }
  }

  function ActiveChargeOn(b: Book, orders: seq<WorkOrder>, m: nat): Rate -> int {
    (r: Rate) => if r.active then Charge(b, orders, r, m) else 0
  }

  lemma {:induction false} ActiveSum(b: Book, orders: seq<WorkOrder>, rates: seq<Rate>, m: nat)
    ensures SumBy(ChargeOn(b, orders, m), ActiveRates(rates)) == SumBy(ActiveChargeOn(b, orders, m), rates)
  {
    hide Charge;
    if rates != [] {
      var front, r := rates[..|rates| - 1], rates[|rates| - 1];
      ActiveSum(b, orders, front, m);
      SumConcat(ChargeOn(b, orders, m), ActiveRates(front), if r.active then [r] else []);
      assert [r][..0] == [];
    }
  }

  /** The whole batch: each lot in progress or aging gains the charges of the
      active rates, every other lot gains nothing. */
  lemma ActiveBatch(b: Book, orders: seq<WorkOrder>, rates: seq<Rate>)
    ensures var c := AllocateAll(b, orders, ActiveRates(rates), LotsInWork(b, |b.lots|));
            && Keeps(b, c) && c.lots == b.lots && c.runs == b.runs && Adds(b.costs, c.costs, CostType.Overhead)
            && forall m: nat ::
                 var working := m < |b.lots| && b.lots[m].status in {InProgress, Aging};
                 TotalCost(c.costs, m) ==
                   TotalCost(b.costs, m) + (if working then SumBy(ActiveChargeOn(b, orders, m), rates) else 0)
  {
    hide TotalCost, AllocateAll, Keeps, Charge, Adds;
    var ls := LotsInWork(b, |b.lots|);
    BatchEffect(b, orders, ActiveRates(rates), ls);
    forall m: nat
      ensures SumBy(ChargeOn(b, orders, m), ActiveRates(rates)) == SumBy(ActiveChargeOn(b, orders, m), rates)
    {
      ActiveSum(b, orders, rates, m);
    }
  }

  /** A batch with one active rate raises the cost of a lot in work by the truncated
      product of the rate and the lot's gallons, completed cases or completed hours. */
  lemma OneRateBatch(b: Book, orders: seq<WorkOrder>, r: Rate, l: nat)
    requires l < |b.lots| && b.lots[l].status in {InProgress, Aging}
    ensures var c := AllocateAll(b, orders, ActiveRates([r]), LotsInWork(b, |b.lots|));
            var a := TotalCost(c.costs, l) - TotalCost(b.costs, l);
            var n, h := SumBy(CasesOf(l), b.runs), SumBy(HoursOf(l), orders);
            if r.active then Charged(r.allocation, r.rate, b.lots[l].volume, n, h, a) else a == 0
  {
    ActiveBatch(b, orders, [r]);
    ChargeMeaning(b, orders, r, l);
    hide TotalCost, AllocateAll, Keeps, Charge, Charged, CasesOf, HoursOf, Adds;
    assert [] + [r] == [r];
    SumPush(ActiveChargeOn(b, orders, l), [], r);
  }
}
