/** The append-only cost ledger and the COGS snapshot taken from it. Amounts and
    volumes are whole units of 10^-4. */
module CostLedger {
  import opened FixedPoint
  import opened Sums
  import opened Options
  import opened NameSearch

  /** The five known cost types; the column is a free string, so any other text
      can appear as well. */
  datatype CostType = Fruit | Material | Labor | Overhead | TransferIn | Other(name: string)

  datatype CostEntry = CostEntry(lot: nat, costType: CostType, amount: int)

  function AmountFor(lot: nat): CostEntry -> int {
    (e: CostEntry) => if e.lot == lot then e.amount else 0
  }

  function AmountOfType(lot: nat, ty: CostType): CostEntry -> int {
    (e: CostEntry) => if e.lot == lot && e.costType == ty then e.amount else 0
  }

  function AmountOfOthers(lot: nat): CostEntry -> int {
    (e: CostEntry) => if e.lot == lot && e.costType.Other? then e.amount else 0
  }

  function TotalCost(ledger: seq<CostEntry>, lot: nat): int {
    SumBy(AmountFor(lot), ledger)
  }

  function Column(ledger: seq<CostEntry>, lot: nat, ty: CostType): int {
    SumBy(AmountOfType(lot, ty), ledger)
  }

  function Outside(ledger: seq<CostEntry>, lot: nat): int {
    SumBy(AmountOfOthers(lot), ledger)
  }

  function FiveColumns(ledger: seq<CostEntry>, lot: nat): int {
    Column(ledger, lot, Fruit) + Column(ledger, lot, Material) + Column(ledger, lot, Labor)
    + Column(ledger, lot, Overhead) + Column(ledger, lot, TransferIn)
  }

  /** The lot's entries all have one of the five known types. */
  predicate KnownTypes(ledger: seq<CostEntry>, lot: nat) {
    forall i | 0 <= i < |ledger| && ledger[i].lot == lot :: !ledger[i].costType.Other?
  }

  predicate HasType(ledger: seq<CostEntry>, lot: nat, ty: CostType) {
    exists i :: 0 <= i < |ledger| && ledger[i].lot == lot && ledger[i].costType == ty
  }

  method GetTotalCost(ledger: seq<CostEntry>, lot: nat) returns (total: int)
    ensures total == TotalCost(ledger, lot)
  {
    total := 0;
    for i := 0 to |ledger|
      invariant total == SumBy(AmountFor(lot), ledger[..i])
    {
      SumStep(AmountFor(lot), ledger, i);
      if ledger[i].lot == lot {
        total := total + ledger[i].amount;
      }
    }
    assert ledger[..|ledger|] == ledger;
  }

  /** One entry per cost type that occurs, holding that type's sum. */
  method GetCostBreakdown(ledger: seq<CostEntry>, lot: nat) returns (breakdown: map<CostType, int>)
    ensures forall ty :: ty in breakdown <==> HasType(ledger, lot, ty)
    ensures forall ty | ty in breakdown :: breakdown[ty] == Column(ledger, lot, ty)
  {
    breakdown := map[];
    for i := 0 to |ledger|
      invariant forall ty :: ty in breakdown <==> HasType(ledger[..i], lot, ty)
      invariant forall ty :: (if ty in breakdown then breakdown[ty] else 0) == Column(ledger[..i], lot, ty)
    {
      var e := ledger[i];
      forall ty ensures Column(ledger[..i + 1], lot, ty) == Column(ledger[..i], lot, ty) + AmountOfType(lot, ty)(e) {
        SumStep(AmountOfType(lot, ty), ledger, i);
      }
      forall ty
        ensures HasType(ledger[..i + 1], lot, ty) <==>
                  HasType(ledger[..i], lot, ty) || (e.lot == lot && e.costType == ty)
      {
        HasTypeStep(ledger, i, lot, ty);
      }
      if e.lot == lot {
        breakdown := breakdown[e.costType := (if e.costType in breakdown then breakdown[e.costType] else 0) + e.amount];
      }
    }
    assert ledger[..|ledger|] == ledger;
  }

  lemma HasTypeStep(ledger: seq<CostEntry>, i: nat, lot: nat, ty: CostType)
    requires i < |ledger|
    ensures HasType(ledger[..i + 1], lot, ty) <==>
              HasType(ledger[..i], lot, ty) || (ledger[i].lot == lot && ledger[i].costType == ty)
  {
    var short, long := ledger[..i], ledger[..i + 1];
    assert long[i] == ledger[i] && forall j | 0 <= j < i :: long[j] == short[j];
    if HasType(short, lot, ty) {
      var j :| 0 <= j < i && short[j].lot == lot && short[j].costType == ty;
      assert long[j].lot == lot && long[j].costType == ty;
    }
  }

  /** The five columns account for the total up to the entries of other types. */
  lemma {:induction false} ColumnsPlusOutside(ledger: seq<CostEntry>, lot: nat)
    ensures FiveColumns(ledger, lot) + Outside(ledger, lot) == TotalCost(ledger, lot)
  {
    if ledger != [] {
      ColumnsPlusOutside(ledger[..|ledger| - 1], lot);
    }
  }

  /** Cost per gallon at 4 decimals; none for a lot without volume. */
  function CostPerGallon(cost: int, volume: int): Option<int> {
    if volume <= 0 then None else Some(TruncDiv(cost * 10000, volume))
  }

  // ---------- COGS at bottling ----------

  /** A packaging component of a bottling run: the quantity, the linked dry-goods
      item, and the product name to search by when no link resolves. */
  datatype Packaging = Packaging(quantity: int, linked: Option<nat>, product: string)

  /** Stock is held in units of 10^-2, the unit cost in units of 10^-4. */
  datatype DryGood = DryGood(name: string, onHand: int, costPerUnit: Option<int>)

  /** The first item whose name matches the product name, or the number of items. */
  function FindNamed(goods: seq<DryGood>, product: string): (i: nat)
    ensures i <= |goods|
    ensures i < |goods| ==> Like(goods[i].name, PatternOf(product))
    ensures forall j | 0 <= j < i :: !Like(goods[j].name, PatternOf(product))
  {
    if goods == [] || Like(goods[0].name, PatternOf(product)) then 0 else 1 + FindNamed(goods[1..], product)
  }

  function ItemOf(p: Packaging, goods: seq<DryGood>): Option<nat> {
    if p.linked.Some? && p.linked.value < |goods| then p.linked
    else
      var i := FindNamed(goods, p.product);
      if i < |goods| then Some(i) else None
  }

  /** Packaging whose link does not resolve is priced by the first item whose name
      matches its product name; for a name without pattern characters that is the
      first one that contains it, whatever the case. */
  lemma NamedItem(p: Packaging, goods: seq<DryGood>)
    requires p.linked.None? || p.linked.value >= |goods|
    ensures ItemOf(p, goods).Some? <==> exists i :: 0 <= i < |goods| && Like(goods[i].name, PatternOf(p.product))
    ensures ItemOf(p, goods).Some? ==>
              var i := ItemOf(p, goods).value;
              && i < |goods| && Like(goods[i].name, PatternOf(p.product))
              && forall j | 0 <= j < i :: !Like(goods[j].name, PatternOf(p.product))
    ensures Plain(p.product) ==>
              forall i | 0 <= i < |goods| ::
                Like(goods[i].name, PatternOf(p.product)) <==> FoundIn(goods[i].name, p.product)
    ensures Asked(p.product).Some? ==>
              forall i | 0 <= i < |goods| ::
                Like(goods[i].name, PatternOf(p.product)) <==> FoundAs(goods[i].name, Asked(p.product).value)
  {
    hide Like, FoundIn, FoundAs, Asked, Plain;
    forall i | 0 <= i < |goods| && Asked(p.product).Some?
      ensures Like(goods[i].name, PatternOf(p.product)) <==> FoundAs(goods[i].name, Asked(p.product).value)
    {
      PatternFinds(goods[i].name, p.product);
    }
    if Plain(p.product) {
      forall i | 0 <= i < |goods|
        ensures Like(goods[i].name, PatternOf(p.product)) <==> FoundIn(goods[i].name, p.product)
      {
        SearchFinds(goods[i].name, p.product);
      }
    }
  }

  function PackagingCost(goods: seq<DryGood>): Packaging -> int {
    (p: Packaging) =>
      var item := ItemOf(p, goods);
      if item.None? || item.value >= |goods| || goods[item.value].costPerUnit.None? then 0
      else p.quantity * goods[item.value].costPerUnit.value
  }

  datatype Cogs = Cogs(
    fruit: int, material: int, labor: int, overhead: int, transferIn: int,
    totalCost: int, packagingTotal: int, bottles: int,
    costPerBottle: Option<int>, costPerCase: Option<int>, packagingPerBottle: int, costPerGallon: Option<int>)

  function At(breakdown: map<CostType, int>, ty: CostType): int {
    if ty in breakdown then breakdown[ty] else 0
  }

  method CalculateBottlingCogs(ledger: seq<CostEntry>, lot: nat, goods: seq<DryGood>, packaging: seq<Packaging>,
                               bottles: int, caseSize: int, volume: int)
    returns (c: Cogs)
    ensures c == CogsOf(ledger, lot, goods, packaging, bottles, caseSize, volume)
  {
    var breakdown := GetCostBreakdown(ledger, lot);
    var bulk := GetTotalCost(ledger, lot);
    var packagingTotal := 0;
    for i := 0 to |packaging|
      invariant packagingTotal == SumBy(PackagingCost(goods), packaging[..i])
    {
      SumStep(PackagingCost(goods), packaging, i);
      var item := ItemOf(packaging[i], goods);
      if item.Some? && goods[item.value].costPerUnit.Some? {
        packagingTotal := packagingTotal + packaging[i].quantity * goods[item.value].costPerUnit.value;
      }
    }
    assert packaging[..|packaging|] == packaging;
    var packagingPerBottle := if bottles > 0 then TruncDiv(packagingTotal, bottles) else 0;
    var totalCost := bulk + packagingTotal;
    var costPerBottle := if bottles > 0 then Some(TruncDiv(totalCost, bottles)) else None;
    var costPerCase := if costPerBottle.Some? then Some(costPerBottle.value * caseSize) else None;
    forall ty ensures At(breakdown, ty) == Column(ledger, lot, ty) {
      if ty !in breakdown {
        NoEntryNoColumn(ledger, lot, ty);
      }
    }
    c := Cogs(At(breakdown, Fruit), At(breakdown, Material), At(breakdown, Labor), At(breakdown, Overhead),
              At(breakdown, TransferIn), totalCost, packagingTotal, bottles, costPerBottle, costPerCase,
              packagingPerBottle, CostPerGallon(totalCost, volume));
  }

  lemma NoEntryNoColumn(ledger: seq<CostEntry>, lot: nat, ty: CostType)
    requires !HasType(ledger, lot, ty)
    ensures Column(ledger, lot, ty) == 0
  {
    SumBounds(AmountOfType(lot, ty), ledger, 0, 0);
  }

  function CogsOf(ledger: seq<CostEntry>, lot: nat, goods: seq<DryGood>, packaging: seq<Packaging>,
                  bottles: int, caseSize: int, volume: int): Cogs {
    var packagingTotal := SumBy(PackagingCost(goods), packaging);
    var total := TotalCost(ledger, lot) + packagingTotal;
    Cogs(Column(ledger, lot, Fruit), Column(ledger, lot, Material), Column(ledger, lot, Labor),
         Column(ledger, lot, Overhead), Column(ledger, lot, TransferIn),
         total, packagingTotal, bottles,
         if bottles > 0 then Some(TruncDiv(total, bottles)) else None,
         if bottles > 0 then Some(TruncDiv(total, bottles) * caseSize) else None,
         if bottles > 0 then TruncDiv(packagingTotal, bottles) else 0,
         CostPerGallon(total, volume))
  }

  /** The snapshot's columns and packaging add up to its total when the lot's entries
      have known types; in general, exactly when entries of other types cancel out. */
  lemma CogsAgreement(ledger: seq<CostEntry>, lot: nat, goods: seq<DryGood>, packaging: seq<Packaging>,
                      bottles: int, caseSize: int, volume: int)
    ensures var c := CogsOf(ledger, lot, goods, packaging, bottles, caseSize, volume);
            var columns := c.fruit + c.material + c.labor + c.overhead + c.transferIn;
            && columns == FiveColumns(ledger, lot)
            && (KnownTypes(ledger, lot) ==>
                  columns == TotalCost(ledger, lot) && columns + c.packagingTotal == c.totalCost)
            && (columns + c.packagingTotal == c.totalCost <==> Outside(ledger, lot) == 0)
  {
    ColumnsPlusOutside(ledger, lot);
    if KnownTypes(ledger, lot) {
      SumBounds(AmountOfOthers(lot), ledger, 0, 0);
    }
  }

  /** All bottles at the truncated price, and all cases at their multiple of it. */
  lemma PriceBounds(total: int, bottles: int, caseSize: int)
    requires 0 < bottles && 0 < caseSize
    ensures var each, perCase := TruncDiv(total, bottles), TruncDiv(total, bottles) * caseSize;
            && perCase == caseSize * each
            && (0 <= total ==>
                  && bottles * each <= total < bottles * each + bottles
                  && bottles * perCase <= caseSize * total
                  && caseSize * total < bottles * perCase + bottles * caseSize)
            && (total <= 0 ==> bottles * each - bottles < total <= bottles * each)
  {
    var each := TruncDiv(total, bottles);
    assert total <= 0 ==> bottles * each - bottles < total <= bottles * each;
    assert 0 <= total ==> bottles * each <= total < bottles * each + bottles;
    hide TruncDiv;
    if 0 <= total {
      CaseBounds(total, bottles, caseSize, each);
    }
  }

  lemma CaseBounds(total: int, bottles: int, caseSize: int, each: int)
    requires 0 < caseSize && bottles * each <= total < bottles * each + bottles
    ensures bottles * (each * caseSize) <= caseSize * total < bottles * (each * caseSize) + bottles * caseSize
  {
    MulLe(bottles * each, total, caseSize);
    MulLt(total, bottles * each + bottles, caseSize);
    assert caseSize * (bottles * each) == bottles * (each * caseSize);
    assert caseSize * (bottles * each + bottles) == caseSize * (bottles * each) + bottles * caseSize;
  }

  lemma TruncDivMonotone(a: int, b: int, n: int)
    requires a <= b && 0 < n
    ensures TruncDiv(a, n) <= TruncDiv(b, n)
  {
    if TruncDiv(b, n) < TruncDiv(a, n) {
      TruncDivReflects(a, b, n);
    }
  }

  lemma TruncDivReflects(a: int, b: int, n: int)
    requires 0 < n && TruncDiv(b, n) < TruncDiv(a, n)
    ensures b < a
  {
    var p, q := TruncDiv(a, n), TruncDiv(b, n);
    MulLe(q + 1, p, n);
    assert n * (q + 1) == n * q + n;
  }

  /** All bottles at the stored price cost at most the total and miss it by less
      than one unit a bottle; a case misses its exact price by less than its
      size. A negative total is met from the other side. */
  lemma CogsPerBottle(ledger: seq<CostEntry>, lot: nat, goods: seq<DryGood>, packaging: seq<Packaging>,
                      bottles: int, caseSize: int, volume: int)
    requires 0 < bottles && 0 < caseSize
    ensures var c := CogsOf(ledger, lot, goods, packaging, bottles, caseSize, volume);
            var each := c.costPerBottle.value;
            && c.costPerCase == Some(caseSize * each)
            && (0 <= c.totalCost ==>
                  && bottles * each <= c.totalCost < bottles * each + bottles
                  && bottles * c.costPerCase.value <= caseSize * c.totalCost
                  && caseSize * c.totalCost < bottles * c.costPerCase.value + bottles * caseSize)
            && (c.totalCost <= 0 ==> bottles * each - bottles < c.totalCost <= bottles * each)
            && (c.packagingTotal <= c.totalCost ==> c.packagingPerBottle <= each)
            && (0 <= c.packagingTotal ==>
                  bottles * c.packagingPerBottle <= c.packagingTotal < bottles * c.packagingPerBottle + bottles)
  {
    CogsPrices(ledger, lot, goods, packaging, bottles, caseSize, volume);
    hide CogsOf, TruncDiv;
    var c := CogsOf(ledger, lot, goods, packaging, bottles, caseSize, volume);
    PriceBounds(c.totalCost, bottles, caseSize);
    PriceBounds(c.packagingTotal, bottles, caseSize);
    if c.packagingTotal <= c.totalCost {
      TruncDivMonotone(c.packagingTotal, c.totalCost, bottles);
    }
  }

  /** Without bottles there are no prices; per gallon the truncated quotient by the
      bottled volume, and none without a volume. */
  lemma CogsPerGallon(ledger: seq<CostEntry>, lot: nat, goods: seq<DryGood>, packaging: seq<Packaging>,
                      bottles: int, caseSize: int, volume: int)
    ensures var c := CogsOf(ledger, lot, goods, packaging, bottles, caseSize, volume);
            && c.bottles == bottles && c.totalCost == TotalCost(ledger, lot) + c.packagingTotal
            && (bottles <= 0 ==> c.costPerBottle.None? && c.costPerCase.None? && c.packagingPerBottle == 0)
            && (c.costPerGallon.Some? <==> 0 < volume)
            && (0 < volume && 0 <= c.totalCost ==>
                  var g := c.costPerGallon.value;
                  volume * g <= 10000 * c.totalCost < volume * g + volume)
  {
    var total := TotalCost(ledger, lot) + SumBy(PackagingCost(goods), packaging);
    if 0 < volume {
      QuotientBounds(total * 10000, volume);
    }
    hide TruncDiv;
  }

  /** Without entries a snapshot holds the packaging only; one more entry raises the
      column of its type and the total, if it is the lot's, and nothing else. */
  lemma CogsEntry(ledger: seq<CostEntry>, e: CostEntry, lot: nat, goods: seq<DryGood>, packaging: seq<Packaging>,
                  bottles: int, caseSize: int, volume: int)
    ensures var none := CogsOf([], lot, goods, packaging, bottles, caseSize, volume);
            && none.fruit == none.material == none.labor == none.overhead == none.transferIn == 0
            && none.totalCost == none.packagingTotal
    ensures var before := CogsOf(ledger, lot, goods, packaging, bottles, caseSize, volume);
            var after := CogsOf(ledger + [e], lot, goods, packaging, bottles, caseSize, volume);
            var x := if e.lot == lot then e.amount else 0;
            && after.totalCost == before.totalCost + x && after.packagingTotal == before.packagingTotal
            && after.fruit == before.fruit + (if e.costType == Fruit then x else 0)
            && after.material == before.material + (if e.costType == Material then x else 0)
            && after.labor == before.labor + (if e.costType == Labor then x else 0)
            && after.overhead == before.overhead + (if e.costType == Overhead then x else 0)
            && after.transferIn == before.transferIn + (if e.costType == TransferIn then x else 0)
  {
    ColumnPush(ledger, e, lot);
    hide TruncDiv, PackagingCost, SumBy, CostPerGallon;
    assert TotalCost([], lot) == Column([], lot, Fruit) == Column([], lot, Material) == Column([], lot, Labor)
           == Column([], lot, Overhead) == Column([], lot, TransferIn) == 0 by { NoEntries(lot); }
    hide TotalCost, Column;
  }

  lemma NoEntries(lot: nat)
    ensures TotalCost([], lot) == 0 && forall ty :: Column([], lot, ty) == 0
  {
  }

  lemma ColumnPush(ledger: seq<CostEntry>, e: CostEntry, lot: nat)
    ensures TotalCost(ledger + [e], lot) == TotalCost(ledger, lot) + (if e.lot == lot then e.amount else 0)
    ensures forall ty :: Column(ledger + [e], lot, ty) ==
              Column(ledger, lot, ty) + (if e.lot == lot && e.costType == ty then e.amount else 0)
  {
    SumPush(AmountFor(lot), ledger, e);
    forall ty
      ensures Column(ledger + [e], lot, ty) ==
                Column(ledger, lot, ty) + (if e.lot == lot && e.costType == ty then e.amount else 0)
    {
      SumPush(AmountOfType(lot, ty), ledger, e);
    }
  }

  lemma QuotientBounds(a: int, n: int)
    requires 0 < n
    ensures 0 <= a ==> n * TruncDiv(a, n) <= a < n * TruncDiv(a, n) + n
  {
  }

  lemma CogsPrices(ledger: seq<CostEntry>, lot: nat, goods: seq<DryGood>, packaging: seq<Packaging>,
                   bottles: int, caseSize: int, volume: int)
    requires 0 < bottles
    ensures var c := CogsOf(ledger, lot, goods, packaging, bottles, caseSize, volume);
            && c.costPerBottle == Some(TruncDiv(c.totalCost, bottles))
            && c.costPerCase == Some(TruncDiv(c.totalCost, bottles) * caseSize)
            && c.packagingPerBottle == TruncDiv(c.packagingTotal, bottles)
  {
    hide TruncDiv;
  }
}
