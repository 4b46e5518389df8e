/** What completing a bottling run leaves behind, table by table. */
module BottlingLaws {
  import opened FixedPoint
  import opened Sums
  import opened Options
  import opened CostLedger
  import opened LotBook
  import opened LotLaws

  /** What a packaging line draws from dry-goods item `i`, in units of 10^-2. */
  function Drawn(i: nat): Packaging -> int {
    (p: Packaging) => if p.linked == Some(i) then 100 * p.quantity else 0
  }

  /** Each linked item loses what all packaging lines together draw from it. */
  lemma {:induction false} PackagingTotals(b: Book, ps: seq<Packaging>)
    ensures var c := DeductPackaging(b, ps);
            && |c.goods| == |b.goods|
            && forall i | 0 <= i < |b.goods| ::
                 c.goods[i] == b.goods[i].(onHand := b.goods[i].onHand - SumBy(Drawn(i), ps))
  {
    if ps != [] {
      PackagingTotals(b, ps[..|ps| - 1]);
    }
  }

  /** The order of the packaging lines does not matter to the stock. */
  lemma PackagingOrder(b: Book, ps: seq<Packaging>, qs: seq<Packaging>)
    requires multiset(ps) == multiset(qs)
    ensures DeductPackaging(b, ps).goods == DeductPackaging(b, qs).goods
  {
    PackagingTotals(b, ps);
    PackagingTotals(b, qs);
    forall i | 0 <= i < |b.goods| ensures SumBy(Drawn(i), ps) == SumBy(Drawn(i), qs) {
      SumPermutation(Drawn(i), ps, qs);
    }
  }

  /** A run completes exactly when it is open, its lot holds the volume and its case
      size is not zero. The lot then lost the volume and is bottled if nothing is
      left, the run is closed, and no other lot, trial, item or cost changed. */
  lemma CloseRunEffect(b: Book, k: nat)
    requires k < |b.runs|
    ensures var r := b.runs[k];
            CloseRun(b, k).Some? <==>
              !r.completed && r.lot < |b.lots| && r.volume <= b.lots[r.lot].volume && r.perCase != 0
    ensures CloseRun(b, k).Some? ==>
              var c, r, left := CloseRun(b, k).value, b.runs[k], b.lots[b.runs[k].lot].volume - b.runs[k].volume;
              && c.runs == b.runs[k := r.(completed := true, cases := IntDiv(r.bottles, r.perCase))]
              && c.lots == b.lots[r.lot := b.lots[r.lot].(
                             volume := left, status := if left == 0 then Bottled else b.lots[r.lot].status)]
              && c.costs == b.costs && c.trials == b.trials && c.goods == b.goods && c.skus == b.skus
  {
    hide IntDiv;
  }

  /** A planned run is stored as asked, 12 bottles to the case where no size is given; a
      case size of zero or an unknown lot is refused. */
  lemma PlannedRun(b: Book, l: nat, volume: int, bottles: int, perCase: Option<int>, packaging: seq<Packaging>)
    ensures CreateRun(b, l, volume, bottles, perCase, packaging).Some? <==> l < |b.lots| && perCase != Some(0)
    ensures l < |b.lots| && perCase != Some(0) ==>
              var c := CreateRun(b, l, volume, bottles, perCase, packaging).value;
              && |c.runs| == |b.runs| + 1 && c.runs[..|b.runs|] == b.runs
              && c.lots == b.lots && c.costs == b.costs && c.goods == b.goods && c.log == b.log
              && var r := c.runs[|b.runs|];
                 && !r.completed && r.lot == l && r.volume == volume && r.bottles == bottles
                 && r.packaging == packaging
                 && (perCase.None? ==> r.perCase == 12) && (perCase.Some? ==> r.perCase == perCase.value)
                 && (0 <= bottles && 0 < r.perCase ==>
                       r.perCase * r.cases <= bottles < r.perCase * r.cases + r.perCase)
  {
  }

  /** A completed run records the full cases its bottles make: they fit, and less than
      one case of bottles is left over. */
  lemma CompletedCases(b: Book, k: nat)
    requires CloseRun(b, k).Some? && 0 <= b.runs[k].bottles && 0 < b.runs[k].perCase
    ensures var c := CloseRun(b, k).value;
            && k < |c.runs| && c.runs[k].completed
            && 0 <= c.runs[k].cases
            && c.runs[k].perCase * c.runs[k].cases <= c.runs[k].bottles
            && c.runs[k].bottles < c.runs[k].perCase * c.runs[k].cases + c.runs[k].perCase
  {
    CloseRunEffect(b, k);
  }

  /** Completing a run further draws the packaging from the dry goods, ends the log
      with the COGS snapshot of the ledger and prices before the call, and hands its
      price per bottle, rounded to cents, to the first SKU of the lot or run. */
  lemma CompleteEffect(b: Book, k: nat)
    requires Complete(b, k).Some?
    ensures CloseRun(b, k).Some?
    ensures var c, d, r := Complete(b, k).value, CloseRun(b, k).value, b.runs[k];
            && c.lots == d.lots && c.runs == d.runs && c.costs == b.costs && c.trials == b.trials
            && c.goods == DeductPackaging(b, r.packaging).goods
            && c.skus == Priced(b.skus, r.lot, k, Snapshot(b, k).costPerBottle)
            && |c.log| > 0 && c.log[|c.log| - 1] == CogsCalculated(r.lot, k, Snapshot(b, k))
  {
    hide TotalCost, SumBy, Keeps, DeductPackaging, CloseRun, Priced;
    var r, closed := b.runs[k], CloseRun(b, k).value;
    CloseRunEffect(b, k);
    var packed := DeductPackaging(closed, r.packaging);
    PackagingLaw(closed, r.packaging);
    SameGoods(b, closed, r.packaging);
    SamePackagingCost(b.goods, packed.goods, r.packaging);
  }

  /** The snapshot a completed run logs is of the run's own lot, bottles, case size
      and volume, at the costs the lot had. No other SKU is priced, and none without
      bottles. */
  lemma CompletedCogs(b: Book, k: nat)
    requires Complete(b, k).Some?
    ensures var log, r := Complete(b, k).value.log, b.runs[k];
            && |log| > 0 && log[|log| - 1].CogsCalculated?
            && log[|log| - 1].lot == r.lot && log[|log| - 1].run == k
            && var c := log[|log| - 1].cogs;
               && c.bottles == r.bottles && c.totalCost == TotalCost(b.costs, r.lot) + c.packagingTotal
               && (c.costPerBottle.Some? <==> 0 < r.bottles) && (c.costPerGallon.Some? <==> 0 < r.volume)
               && (0 < r.bottles && 0 < r.perCase ==> c.costPerCase == Some(r.perCase * c.costPerBottle.value))
               && (0 < r.bottles && 0 < r.perCase && 0 <= c.totalCost ==>
                     var each := c.costPerBottle.value;
                     r.bottles * each <= c.totalCost < r.bottles * each + r.bottles)
               && (0 < r.volume && 0 <= c.totalCost ==>
                     var g := c.costPerGallon.value;
                     r.volume * g <= 10000 * c.totalCost < r.volume * g + r.volume)
    ensures var r, skus := b.runs[k], Complete(b, k).value.skus;
            && |skus| == |b.skus|
            && (forall i | 0 <= i < |skus| && i != FindSku(b.skus, r.lot, k) :: skus[i] == b.skus[i])
            && (r.bottles <= 0 ==> skus == b.skus)
  {
    CompleteEffect(b, k);
    var r := b.runs[k];
    hide Complete, TotalCost, RoundDiv, FindSku;
    CogsPerGallon(b.costs, r.lot, b.goods, r.packaging, r.bottles, r.perCase, r.volume);
    if 0 < r.bottles && 0 < r.perCase {
      CogsPerBottle(b.costs, r.lot, b.goods, r.packaging, r.bottles, r.perCase, r.volume);
    }
    if 0 < r.bottles {
      BottlePriced(b.costs, r.lot, b.goods, r.packaging, r.bottles, r.perCase, r.volume);
    }
    hide CogsOf;
  }

  lemma BottlePriced(ledger: seq<CostEntry>, lot: nat, goods: seq<DryGood>, packaging: seq<Packaging>,
                     bottles: int, caseSize: int, volume: int)
    requires 0 < bottles
    ensures CogsOf(ledger, lot, goods, packaging, bottles, caseSize, volume).costPerBottle.Some?
  {
    hide TruncDiv, TotalCost, SumBy;
  }

  // ---------- What the packaging costs ----------

  function UnitPrice(g: DryGood): int { if g.costPerUnit.Some? then g.costPerUnit.value else 0 }

  /** The stock that left the first `n` items, at the items' unit costs. */
  function Consumed(before: seq<DryGood>, after: seq<DryGood>, n: nat): int
    requires n <= |before| && n <= |after|
  {
    if n == 0 then 0
    else Consumed(before, after, n - 1) + (before[n - 1].onHand - after[n - 1].onHand) * UnitPrice(before[n - 1])
  }

  predicate AllLinked(goods: seq<DryGood>, ps: seq<Packaging>) {
    forall j | 0 <= j < |ps| :: ps[j].linked.Some? && ps[j].linked.value < |goods|
  }

  lemma {:induction false} NothingConsumed(goods: seq<DryGood>, n: nat)
    requires n <= |goods|
    ensures Consumed(goods, goods, n) == 0
  {
    if 0 < n {
      NothingConsumed(goods, n - 1);
    }
  }

  lemma {:induction false} ConsumeMore(before: seq<DryGood>, mid: seq<DryGood>, i: nat, q: int, n: nat)
    requires i < |mid| && n <= |before| == |mid|
    ensures Consumed(before, mid[i := mid[i].(onHand := mid[i].onHand - q)], n) ==
              Consumed(before, mid, n) + (if i < n then q * UnitPrice(before[i]) else 0)
  {
    if 0 < n {
      ConsumeMore(before, mid, i, q, n - 1);
      if i == n - 1 {
        var x, p := before[i].onHand - mid[i].onHand, UnitPrice(before[i]);
        assert (x + q) * p == x * p + q * p;
      }
    }
  }

  /** When every link resolves, the packaging costs what left the stock is worth. */
  lemma {:induction false} PackagingIsConsumption(b: Book, ps: seq<Packaging>)
    requires AllLinked(b.goods, ps)
    ensures |DeductPackaging(b, ps).goods| == |b.goods|
    ensures 100 * SumBy(PackagingCost(b.goods), ps) == Consumed(b.goods, DeductPackaging(b, ps).goods, |b.goods|)
  {
    if ps == [] {
      NothingConsumed(b.goods, |b.goods|);
    } else {
      var front, p := ps[..|ps| - 1], ps[|ps| - 1];
      var mid, i, u := DeductPackaging(b, front).goods, p.linked.value, UnitPrice(b.goods[p.linked.value]);
      PackagingIsConsumption(b, front);
      DeductLast(b, ps);
      LinkedCost(b.goods, p);
      hide *;
      ConsumeMore(b.goods, mid, i, 100 * p.quantity, |b.goods|);
      assert ps == front + [p];
      SumPush(PackagingCost(b.goods), front, p);
      HundredTimes(p.quantity, u);
    }
  }

  lemma HundredTimes(q: int, u: int)
    ensures (100 * q) * u == 100 * (q * u)
  {
  }

  lemma DeductLast(b: Book, ps: seq<Packaging>)
    requires ps != [] && var p := ps[|ps| - 1]; p.linked.Some? && p.linked.value < |b.goods|
    requires |DeductPackaging(b, ps[..|ps| - 1]).goods| == |b.goods|
    ensures var p, mid := ps[|ps| - 1], DeductPackaging(b, ps[..|ps| - 1]).goods;
            var i := p.linked.value;
            DeductPackaging(b, ps).goods == mid[i := mid[i].(onHand := mid[i].onHand - 100 * p.quantity)]
  {
  }

  lemma LinkedCost(goods: seq<DryGood>, p: Packaging)
    requires p.linked.Some? && p.linked.value < |goods|
    ensures PackagingCost(goods)(p) == p.quantity * UnitPrice(goods[p.linked.value])
  {
  }

  /** A component adds its quantity times the unit cost of the item its link or else
      its name finds, and nothing if neither finds one. */
  lemma ComponentAdds(goods: seq<DryGood>, ps: seq<Packaging>, p: Packaging)
    ensures var more := SumBy(PackagingCost(goods), ps + [p]) - SumBy(PackagingCost(goods), ps);
            var named := FindNamed(goods, p.product);
            if p.linked.Some? && p.linked.value < |goods| then more == p.quantity * UnitPrice(goods[p.linked.value])
            else if named < |goods| then more == p.quantity * UnitPrice(goods[named])
            else more == 0
  {
    SumPush(PackagingCost(goods), ps, p);
  }

  /** So the packaging total of a completed run, times the stock's scale, is the worth
      of the dry goods the completion took, when every component is linked. */
  lemma RunConsumes(b: Book, k: nat)
    requires Complete(b, k).Some? && AllLinked(b.goods, b.runs[k].packaging)
    ensures |Complete(b, k).value.goods| == |b.goods|
    ensures 100 * Snapshot(b, k).packagingTotal == Consumed(b.goods, Complete(b, k).value.goods, |b.goods|)
  {
    hide Complete, Consumed, TotalCost, Column, PackagingCost, SumBy, DeductPackaging, AllLinked;
    CompleteEffect(b, k);
    PackagingIsConsumption(b, b.runs[k].packaging);
  }

  // ---------- The price of the SKU ----------

  /** The price `p` of a bottle is rounded so that all bottles together still cost no
      more than `total`: down, or exactly to a price that wastes nothing. */
  predicate RoundsWithin(total: int, bottles: int, p: int) {
    if 0 <= total then p % 100 < 50
    else -p % 100 >= 50 || (-p % 100 == 0 && bottles * p == total)
  }

  lemma RoundedCents(p: int)
    ensures var c := RoundDiv(p, 100);
            && -50 <= 100 * c - p <= 50
            && (0 <= p ==> (100 * c <= p <==> p % 100 < 50))
            && (p <= 0 ==> (100 * c < p <==> -p % 100 >= 50) && (100 * c == p <==> -p % 100 == 0))
  {
    hide RoundDiv;
    var c := RoundDiv(p, 100);
    assert 0 <= p ==> 200 * c - 100 <= 2 * p < 200 * c + 100;
    assert p <= 0 ==> 200 * c - 100 < 2 * p <= 200 * c + 100;
    if 0 <= p {
      var q, r := p / 100, p % 100;
      assert p == 100 * q + r && (c == q || c == q + 1);
    } else {
      var q, r := -p / 100, -p % 100;
      assert -p == 100 * q + r && (c == -q || c == -q - 1);
    }
  }

  lemma BottlesWithin(total: int, bottles: int, x: int)
    requires 0 < bottles
    ensures var p := TruncDiv(total, bottles);
            bottles * x <= total <==> if 0 <= total then x <= p else x < p || (x == p && bottles * p == total)
  {
    var p := TruncDiv(total, bottles);
    if x < p {
      MulLe(x, p - 1, bottles);
    } else if p < x {
      MulLe(p + 1, x, bottles);
    }
  }

  lemma SkuGets(b: Book, k: nat)
    requires Complete(b, k).Some? && 0 < b.runs[k].bottles
    requires FindSku(b.skus, b.runs[k].lot, k) < |b.skus|
    ensures var c, i := Complete(b, k).value, FindSku(b.skus, b.runs[k].lot, k);
            var cents := RoundDiv(TruncDiv(Snapshot(b, k).totalCost, b.runs[k].bottles), 100);
            c.skus == b.skus[i := b.skus[i].(costPerBottle := Some(cents))]
  {
    hide Complete, RoundDiv, TruncDiv, TotalCost, SumBy, FindSku, Column;
    CompleteEffect(b, k);
  }

  /** The SKU's price is within half a cent of the snapshot's. All bottles at that
      price cost no more than the run's total exactly when the snapshot's price
      rounds within it. */
  lemma SkuPrice(b: Book, k: nat)
    requires Complete(b, k).Some? && 0 < b.runs[k].bottles
    requires FindSku(b.skus, b.runs[k].lot, k) < |b.skus|
    ensures var c, i, bottles := Complete(b, k).value, FindSku(b.skus, b.runs[k].lot, k), b.runs[k].bottles;
            var total, p := Snapshot(b, k).totalCost, TruncDiv(Snapshot(b, k).totalCost, bottles);
            && |c.skus| == |b.skus| && c.skus[i].costPerBottle.Some?
            && var cents := c.skus[i].costPerBottle.value;
               && -50 <= 100 * cents - p <= 50
               && (bottles * (100 * cents) <= total <==> RoundsWithin(total, bottles, p))
  {
    hide Complete, RoundDiv, TruncDiv, Snapshot, FindSku, RoundsWithin;
    SkuGets(b, k);
    var total, bottles := Snapshot(b, k).totalCost, b.runs[k].bottles;
    var p := TruncDiv(total, bottles);
    RoundedCents(p);
    BottlesWithin(total, bottles, 100 * RoundDiv(p, 100));
    CentsWithin(total, bottles, p, 100 * RoundDiv(p, 100));
  }

  lemma CentsWithin(total: int, bottles: int, p: int, x: int)
    requires 0 <= total ==> 0 <= p && (x <= p <==> p % 100 < 50)
    requires total < 0 ==> p <= 0 && (x < p <==> -p % 100 >= 50) && (x == p <==> -p % 100 == 0)
    ensures RoundsWithin(total, bottles, p) <==>
              if 0 <= total then x <= p else x < p || (x == p && bottles * p == total)
  {
  }

  /** 101 dollars over 12 bottles are 8.4166 a bottle; the SKU says 8.42, which makes
      101.04. */
  lemma SkuPriceExceeds()
    ensures var b := Book([Lot("Merlot", 100, InProgress)], [], [Run(0, 100, 12, 12, [], 1, false)], [],
                          [SkuCard(Some(0), None, None)], [CostEntry(0, Fruit, 1010000)], []);
            && Complete(b, 0).Some? && Snapshot(b, 0).totalCost == 1010000
            && Snapshot(b, 0).costPerBottle == Some(84166)
            && Complete(b, 0).value.skus == [SkuCard(Some(0), None, Some(842))]
  {
    var b := Book([Lot("Merlot", 100, InProgress)], [], [Run(0, 100, 12, 12, [], 1, false)], [],
                  [SkuCard(Some(0), None, None)], [CostEntry(0, Fruit, 1010000)], []);
    assert TotalCost(b.costs, 0) == 1010000 by { assert b.costs[..0] == []; }
    assert TruncDiv(1010000, 12) == 84166 && RoundDiv(84166, 100) == 842;
    assert FindSku(b.skus, 0, 0) == 0;
    assert SumBy(PackagingCost(b.goods), []) == 0;
    CloseRunEffect(b, 0);
    hide TruncDiv, RoundDiv, TotalCost, SumBy, FindSku, Column, CloseRun, DeductPackaging;
    SkuGets(b, 0);
  }

  /** Two lists of dry goods that differ in stock only. */
  predicate SamePrices(a: seq<DryGood>, b: seq<DryGood>) {
    |a| == |b| && forall i | 0 <= i < |a| :: a[i].name == b[i].name && a[i].costPerUnit == b[i].costPerUnit
  }

  lemma {:induction false} SameNamed(a: seq<DryGood>, b: seq<DryGood>, product: string)
    requires SamePrices(a, b)
    ensures FindNamed(a, product) == FindNamed(b, product)
  {
    if a != [] {
      SameNamed(a[1..], b[1..], product);
    }
  }

  lemma {:induction false} SameGoods(b: Book, c: Book, ps: seq<Packaging>)
    requires b.goods == c.goods
    ensures DeductPackaging(b, ps).goods == DeductPackaging(c, ps).goods
    ensures |DeductPackaging(b, ps).goods| == |b.goods|
    ensures SamePrices(DeductPackaging(b, ps).goods, b.goods)
  {
    if ps != [] {
      SameGoods(b, c, ps[..|ps| - 1]);
    }
  }

  // ---------- The columns of every snapshot ----------

  predicate AllKnown(costs: seq<CostEntry>) {
    forall i | 0 <= i < |costs| :: !costs[i].costType.Other?
  }

  /** What the request validation of a manual cost entry lets through. */
  predicate KnownCost(op: Op) {
    op.CostOp? ==> !op.ty.Other?
  }

  lemma {:induction false} ToChildrenKnown(b: Book, first: nat, cost: int, volume: int, ws: seq<int>)
    requires 0 < volume && AllKnown(b.costs)
    ensures AllKnown(RollToChildren(b, first, cost, volume, ws).costs)
  {
    if ws != [] {
      ToChildrenKnown(b, first, cost, volume, ws[..|ws| - 1]);
    }
  }

  lemma {:induction false} ToBlendKnown(b: Book, into: nat, cs: seq<Component>)
    requires AllKnown(b.costs)
    ensures AllKnown(RollToBlend(b, into, cs).costs)
  {
    if cs != [] {
      ToBlendKnown(b, into, cs[..|cs| - 1]);
    }
  }

  lemma StepKnown(b: Book, op: Op)
    requires AllKnown(b.costs) && KnownCost(op)
    ensures AllKnown(Apply(b, op).costs)
  {
    hide RollToChildren, RollToBlend, CloseRun, DeductPackaging, CogsOf, Priced, TotalCost;
    if Attempt(b, op).Some? {
      match op
      case SplitOp(l, ws) =>
        var v, first := b.lots[l].volume, |b.lots|;
        SpawnKeepsLots(b, b.lots[l].variety, ws);
        var shrunk := ShrinkParent(Spawn(b, b.lots[l].variety, ws), l, v, Sum(ws));
        if 0 < v {
          ToChildrenKnown(shrunk, first, TotalCost(shrunk.costs, l), v, ws);
        }
      case FinalizeOp(k) =>
        var t, into := b.trials[k], |b.lots|;
        var made := NewLot(b, Lot(BlendName(t), t.total, InProgress));
        DeductKeepsRest(made, t.components);
        var deducted := DeductAll(made, t.components).value;
        var told := Logged(deducted.(trials := deducted.trials[k := t.(state := Finalized(into))]),
                           BlendFinalized(into, k, t.total));
        ToBlendKnown(told, into, t.components);
      case CompleteOp(k) => CompleteEffect(b, k);
      case _ =>
    }
  }

  lemma {:induction false} RunKnown(b: Book, ops: seq<Op>)
    requires AllKnown(b.costs) && forall i | 0 <= i < |ops| :: KnownCost(ops[i])
    ensures AllKnown(RunAll(b, ops).costs)
  {
    if ops != [] {
      RunKnown(b, ops[..|ops| - 1]);
      StepKnown(RunAll(b, ops[..|ops| - 1]), ops[|ops| - 1]);
    }
  }

  /** So after any run the next bottling writes a snapshot whose five columns add up
      to the lot's cost, and with the packaging to the snapshot's total. */
  lemma SnapshotColumns(b: Book, ops: seq<Op>, k: nat)
    requires AllKnown(b.costs) && forall i | 0 <= i < |ops| :: KnownCost(ops[i])
    requires Complete(RunAll(b, ops), k).Some?
    ensures var d := RunAll(b, ops);
            var log := Complete(d, k).value.log;
            && |log| > 0 && log[|log| - 1].CogsCalculated?
            && var c := log[|log| - 1].cogs;
               var columns := c.fruit + c.material + c.labor + c.overhead + c.transferIn;
               columns == TotalCost(d.costs, d.runs[k].lot) && columns + c.packagingTotal == c.totalCost
  {
    hide Complete, CogsOf;
    var d := RunAll(b, ops);
    var r := d.runs[k];
    RunKnown(b, ops);
    CompleteEffect(d, k);
    CogsAgreement(d.costs, r.lot, d.goods, r.packaging, r.bottles, r.perCase, r.volume);
  }

  lemma SamePackagingCost(a: seq<DryGood>, b: seq<DryGood>, ps: seq<Packaging>)
    requires SamePrices(a, b)
    ensures SumBy(PackagingCost(a), ps) == SumBy(PackagingCost(b), ps)
  {
    forall i | 0 <= i < |ps| ensures PackagingCost(a)(ps[i]) == PackagingCost(b)(ps[i]) {
      SameNamed(a, b, ps[i].product);
    }
    SumAgree(PackagingCost(a), PackagingCost(b), ps);
  }
}
