/** What a split and a blend do to lot volumes and to the cost ledger, lot by lot. */
module CostLaws {
  import opened FixedPoint
  import opened Sums
  import opened Options
  import opened CostLedger
  import opened CostAllocation
  import opened LotBook
  import opened LotLaws

  function Amount(e: CostEntry): int { e.amount }

  function LedgerTotal(costs: seq<CostEntry>): int { SumBy(Amount, costs) }

  lemma RecordTotals(b: Book, l: nat, ty: CostType, amount: int)
    ensures var c := Record(b, l, ty, amount).costs;
            && (forall m: nat :: TotalCost(c, m) == TotalCost(b.costs, m) + (if m == l then amount else 0))
            && LedgerTotal(c) == LedgerTotal(b.costs) + amount
  {
    var e := CostEntry(l, ty, amount);
    forall m: nat ensures TotalCost(b.costs + [e], m) == TotalCost(b.costs, m) + (if m == l then amount else 0) {
      SumPush(AmountFor(m), b.costs, e);
    }
    SumPush(Amount, b.costs, e);
  }

  lemma NoCostsYet(costs: seq<CostEntry>, n: nat, m: nat)
    requires CostsBelow(costs, n) && n <= m
    ensures TotalCost(costs, m) == 0
  {
    SumBounds(AmountFor(m), costs, 0, 0);
  }

  /** The ledger gained entries of one type only, each above zero. */
  predicate Adds(before: seq<CostEntry>, after: seq<CostEntry>, ty: CostType) {
    && |before| <= |after| && after[..|before|] == before
    && forall i | |before| <= i < |after| :: after[i].costType == ty && 0 < after[i].amount
  }

  lemma AddsOne(before: seq<CostEntry>, after: seq<CostEntry>, l: nat, ty: CostType, amount: int)
    requires Adds(before, after, ty) && 0 < amount
    ensures Adds(before, after + [CostEntry(l, ty, amount)], ty)
  {
  }

  // ---------- Splits ----------

  lemma {:induction false} ToChildrenAdds(b: Book, first: nat, t: int, v: int, ws: seq<int>)
    requires 0 < v
    ensures Adds(b.costs, RollToChildren(b, first, t, v, ws).costs, TransferIn)
  {
    hide SplitShare, Adds;
    if ws == [] {
      AddsNothing(b.costs);
    } else {
      var n := |ws| - 1;
      ToChildrenAdds(b, first, t, v, ws[..n]);
      if 0 < SplitShare(t, v, ws[n]) {
        AddsOne(b.costs, RollToChildren(b, first, t, v, ws[..n]).costs, first + n, TransferIn, SplitShare(t, v, ws[n]));
      }
    }
  }

  lemma AddsNothing(costs: seq<CostEntry>)
    ensures forall ty :: Adds(costs, costs, ty)
  {
  }

  lemma {:induction false} ToBlendAdds(b: Book, into: nat, cs: seq<Component>)
    ensures Adds(b.costs, RollToBlend(b, into, cs).costs, TransferIn)
  {
    hide RolledShare, Adds;
    if cs == [] {
      AddsNothing(b.costs);
    } else {
      var before := RollToBlend(b, into, cs[..|cs| - 1]);
      ToBlendAdds(b, into, cs[..|cs| - 1]);
      if 0 < RolledShare(before, cs[|cs| - 1]) {
        AddsOne(b.costs, before.costs, into, TransferIn, RolledShare(before, cs[|cs| - 1]));
      }
    }
  }

  lemma ShareNonNegative(t: int, v: int, w: int)
    requires 0 < t && 0 < v && 0 <= w
    ensures 0 <= SplitShare(t, v, w)
  {
    SplitShareBound(t, v, w);
  }

  lemma {:induction false} RollToChildrenTotals(b: Book, first: nat, t: int, v: int, ws: seq<int>)
    requires 0 < t && 0 < v && forall i | 0 <= i < |ws| :: 0 <= ws[i]
    ensures var c := RollToChildren(b, first, t, v, ws).costs;
            && (forall m: nat :: TotalCost(c, m) ==
                  TotalCost(b.costs, m) + (if first <= m < first + |ws| then SplitShare(t, v, ws[m - first]) else 0))
            && LedgerTotal(c) == LedgerTotal(b.costs) + SumBy(ShareOf(t, v), ws)
  {
    hide TotalCost, LedgerTotal, SplitShare;
    if ws != [] {
      var n := |ws| - 1;
      RollToChildrenTotals(b, first, t, v, ws[..n]);
      ShareNonNegative(t, v, ws[n]);
      RecordTotals(RollToChildren(b, first, t, v, ws[..n]), first + n, TransferIn, SplitShare(t, v, ws[n]));
    }
  }

  /** The volumes after a split: the parent less the sum, the children as asked,
      every other lot untouched. */
  lemma SplitVolumes(b: Book, l: nat, ws: seq<int>)
    requires Split(b, l, ws).Some?
    ensures var c, n := Split(b, l, ws).value, |b.lots|;
            && |c.lots| == n + |ws|
            && (forall m | 0 <= m < n ::
                  c.lots[m] == if m == l then b.lots[l].(volume := b.lots[l].volume - Sum(ws)) else b.lots[m])
            && (forall i | 0 <= i < |ws| :: c.lots[n + i] == Lot(b.lots[l].variety, ws[i], InProgress))
  {
    var volume, first, variety := b.lots[l].volume, |b.lots|, b.lots[l].variety;
    SpawnKeepsLots(b, variety, ws);
    var shrunk := ShrinkParent(Spawn(b, variety, ws), l, volume, Sum(ws));
    var cost := TotalCost(shrunk.costs, l);
    if 0 < cost && 0 < volume {
      RollToChildrenLaw(shrunk, first, cost, volume, ws);
    }
  }

  /** What a split charges the children, if anything. */
  function Charged(b: Book, l: nat, ws: seq<int>): int {
    if l < |b.lots| && 0 < TotalCost(b.costs, l) && 0 < b.lots[l].volume
    then SumBy(ShareOf(TotalCost(b.costs, l), b.lots[l].volume), ws) else 0
  }

  /** Each child's cost is its truncated share; every older lot, the parent with
      it, keeps the cost it had, so the ledger grows by what the children get, in
      transfer_in entries. */
  lemma SplitCosts(b: Book, l: nat, ws: seq<int>)
    requires Sound(b) && Split(b, l, ws).Some? && forall i | 0 <= i < |ws| :: 0 <= ws[i]
    ensures var c, n, t, v := Split(b, l, ws).value.costs, |b.lots|, TotalCost(b.costs, l), b.lots[l].volume;
            && (forall m | 0 <= m < n :: TotalCost(c, m) == TotalCost(b.costs, m))
            && (forall m | n <= m < n + |ws| ::
                  TotalCost(c, m) == if 0 < t && 0 < v then SplitShare(t, v, ws[m - n]) else 0)
            && LedgerTotal(c) == LedgerTotal(b.costs) + Charged(b, l, ws)
            && Adds(b.costs, c, TransferIn)
  {
    hide TotalCost, LedgerTotal, SplitShare, Adds;
    AddsNothing(b.costs);
    var v, first, variety := b.lots[l].volume, |b.lots|, b.lots[l].variety;
    SpawnKeepsLots(b, variety, ws);
    var shrunk := ShrinkParent(Spawn(b, variety, ws), l, v, Sum(ws));
    var t := TotalCost(b.costs, l);
    assert shrunk.costs == b.costs;
    forall m | first <= m < first + |ws| ensures TotalCost(b.costs, m) == 0 {
      NoCostsYet(b.costs, first, m);
    }
    if 0 < t && 0 < v {
      RollToChildrenTotals(shrunk, first, t, v, ws);
      ToChildrenAdds(shrunk, first, t, v, ws);
    }
  }

  lemma ShareZero(t: int, v: int, w: int)
    requires 0 < t && 0 < v && 0 <= w
    ensures 0 <= SplitShare(t, v, w)
    ensures SplitShare(t, v, w) == 0 <==> UnitCost(t, v) * w < SCALE
  {
    MulLe(0, UnitCost(t, v), w);
  }

  lemma {:induction false} SharesZero(t: int, v: int, ws: seq<int>)
    requires 0 < t && 0 < v && forall i | 0 <= i < |ws| :: 0 <= ws[i]
    ensures 0 <= SumBy(ShareOf(t, v), ws)
    ensures SumBy(ShareOf(t, v), ws) == 0 <==> forall i | 0 <= i < |ws| :: UnitCost(t, v) * ws[i] < SCALE
  {
    hide SplitShare, UnitCost;
    if ws != [] {
      SharesZero(t, v, ws[..|ws| - 1]);
      ShareZero(t, v, ws[|ws| - 1]);
    }
  }

  /** The children of a split together get at most the parent's cost and at least
      its exact proportional part less n + W/10^8 units. The parent keeps its cost,
      so the ledger's total is kept exactly when the parent has no cost to share or
      every child's volume is too small for a whole unit of it. */
  lemma SplitLedger(b: Book, l: nat, ws: seq<int>)
    requires Sound(b) && Split(b, l, ws).Some? && ws != [] && forall i | 0 <= i < |ws| :: 0 <= ws[i]
    ensures var t, v, got := TotalCost(b.costs, l), b.lots[l].volume, Charged(b, l, ws);
            && 0 <= got
            && (0 < t ==> got <= t)
            && (0 < t && 0 < v ==>
                  && v * got <= t * Sum(ws)
                  && SCALE * (t * Sum(ws) - v * got) < |ws| * (SCALE * v) + v * Sum(ws))
            && (LedgerTotal(Split(b, l, ws).value.costs) == LedgerTotal(b.costs) <==>
                  t <= 0 || v <= 0 || forall i | 0 <= i < |ws| :: UnitCost(t, v) * ws[i] < SCALE)
  {
    hide TotalCost, LedgerTotal, Split, UnitCost, SplitShare;
    assert Sum(ws) <= b.lots[l].volume by { SplitAccepted(b, l, ws); }
    SplitCosts(b, l, ws);
    var t, v := TotalCost(b.costs, l), b.lots[l].volume;
    if 0 < t && 0 < v {
      SplitSharesBound(t, v, ws);
      SplitNeverExceeds(t, v, ws);
      SharesZero(t, v, ws);
    }
  }

  /** A split is accepted exactly when the lot exists and holds the children; one of the
      whole lot leaves the parent at zero. */
  lemma SplitAccepted(b: Book, l: nat, ws: seq<int>)
    ensures Split(b, l, ws).Some? <==> l < |b.lots| && Sum(ws) <= b.lots[l].volume
    ensures l < |b.lots| && Sum(ws) == b.lots[l].volume ==>
              Split(b, l, ws).Some? && l < |Split(b, l, ws).value.lots| && Split(b, l, ws).value.lots[l].volume == 0
  {
    hide TotalCost, SplitShare, RollToChildren;
    if l < |b.lots| && Sum(ws) <= b.lots[l].volume {
      SpawnKeepsLots(b, b.lots[l].variety, ws);
      SplitVolumes(b, l, ws);
    }
  }

  /** What getCostPerGallon returns for a lot. */
  function LotUnitCost(b: Book, m: nat): Option<int>
    requires m < |b.lots|
  {
    CostPerGallon(TotalCost(b.costs, m), b.lots[m].volume)
  }

  lemma PartOfSum(ws: seq<int>, i: nat)
    requires i < |ws| && forall j | 0 <= j < |ws| :: 0 <= ws[j]
    ensures 0 <= ws[i] <= Sum(ws)
  {
    var rest := ws[..i] + ws[i + 1..];
    forall j | 0 <= j < |rest| ensures 0 <= rest[j] {
      assert rest[j] == if j < i then ws[j] else ws[j + 1];
    }
    SumRemove(Same, ws, i);
    SumNotNegative(rest);
  }

  lemma {:induction false} SumNotNegative(ws: seq<int>)
    requires forall j | 0 <= j < |ws| :: 0 <= ws[j]
    ensures 0 <= Sum(ws)
  {
    if ws != [] {
      SumNotNegative(ws[..|ws| - 1]);
    }
  }

  lemma ChildIsCheaper(t: int, v: int, w: int, rest: int)
    requires 0 < t && 0 < w && 0 <= rest && w + rest <= v
    ensures SplitShare(t, v, w) * rest < t * w
  {
    var c := SplitShare(t, v, w);
    SplitShareBound(t, v, w);
    hide SplitShare;
    MulLt(0, w, t);
    if 0 < c {
      MulLt(rest, v, c);
    }
  }

  lemma QuotientAtLeast(a: int, n: int, g: int)
    requires 0 <= a && 0 < n && 0 <= g
    ensures g <= TruncDiv(a, n) <==> n * g <= a
  {
    var q := TruncDiv(a, n);
    if g <= q {
      MulLe(g, q, n);
    } else {
      MulLe(q + 1, g, n);
    }
  }

  /** The price per gallon at `v`, the child's at `w` for its share `c` and the
      parent's at `rest` come in this order. */
  lemma PricesInOrder(t: int, v: int, w: int, rest: int, c: int)
    requires 0 < t && 0 < w && 0 < rest && w + rest <= v && 0 <= c && v * c <= t * w
    ensures TruncDiv(c * 10000, w) <= TruncDiv(t * 10000, v) <= TruncDiv(t * 10000, rest)
  {
    hide TruncDiv;
    UnitCostOrder(c, w, t, v);
    assert t * rest <= t * v by { MulLe(rest, v, t); }
    UnitCostOrder(t, v, t, rest);
  }

  /** The outer two agree exactly when neither truncation passes a unit. */
  lemma PricesAgree(t: int, v: int, w: int, rest: int, c: int)
    requires 0 < t && 0 < w && 0 < rest && w + rest <= v && 0 <= c && v * c <= t * w
    ensures var g := TruncDiv(t * 10000, v);
            TruncDiv(c * 10000, w) == TruncDiv(t * 10000, rest) <==> t * 10000 < rest * (g + 1) && w * g <= c * 10000
  {
    PricesInOrder(t, v, w, rest, c);
    var g := TruncDiv(t * 10000, v);
    QuotientAtLeast(c * 10000, w, g);
    QuotientAtLeast(t * 10000, rest, g + 1);
    hide TruncDiv;
  }

  lemma PriceGap(x: int, v: int, rest: int, g: int)
    requires 0 < rest <= v && v * g <= x < rest * (g + 1)
    ensures x * (v - rest) < v * rest
  {
    assert v * x < v * (rest * (g + 1)) by { MulLt(x, rest * (g + 1), v); }
    assert rest * (v * g) <= rest * x by { MulLe(v * g, x, rest); }
    assert v * (rest * (g + 1)) == rest * (v * g) + v * rest;
    assert x * (v - rest) == v * x - rest * x;
  }

  lemma SplitOutcome(b: Book, l: nat, ws: seq<int>, i: nat)
    requires Sound(b) && Split(b, l, ws).Some? && i < |ws| && forall j | 0 <= j < |ws| :: 0 <= ws[j]
    ensures l < |b.lots| && 0 <= ws[i] <= Sum(ws) <= b.lots[l].volume
    ensures var c, n, t, v := Split(b, l, ws).value, |b.lots|, TotalCost(b.costs, l), b.lots[l].volume;
            && |c.lots| == n + |ws|
            && LotUnitCost(c, l) == CostPerGallon(t, v - Sum(ws))
            && LotUnitCost(c, n + i) == CostPerGallon(if 0 < t && 0 < v then SplitShare(t, v, ws[i]) else 0, ws[i])
            && TotalCost(c.costs, l) == t && c.lots[l].volume == v - Sum(ws) && c.lots[n + i].volume == ws[i]
            && TotalCost(c.costs, n + i) == if 0 < t && 0 < v then SplitShare(t, v, ws[i]) else 0
  {
    hide TotalCost, Split, SplitShare, CostPerGallon;
    SplitAccepted(b, l, ws);
    PartOfSum(ws, i);
    SplitVolumes(b, l, ws);
    SplitCosts(b, l, ws);
  }

  /** After a split the parent's exact cost per gallon is above a child's exactly
      when the parent has a cost and the child a volume; then the returned values
      are in that order too, with the value before the split between them. */
  lemma SplitUnitCosts(b: Book, l: nat, ws: seq<int>, i: nat)
    requires Sound(b) && Split(b, l, ws).Some? && i < |ws| && forall j | 0 <= j < |ws| :: 0 <= ws[j]
    ensures var c, n := Split(b, l, ws).value, |b.lots|;
            && l < n && n + i < |c.lots|
            && (TotalCost(c.costs, n + i) * c.lots[l].volume < TotalCost(c.costs, l) * c.lots[n + i].volume <==>
                  0 < TotalCost(b.costs, l) && 0 < ws[i])
            && (0 < TotalCost(b.costs, l) && 0 < ws[i] && 0 < c.lots[l].volume ==>
                  && LotUnitCost(c, n + i).Some? && LotUnitCost(b, l).Some? && LotUnitCost(c, l).Some?
                  && LotUnitCost(c, n + i).value <= LotUnitCost(b, l).value <= LotUnitCost(c, l).value)
  {
    hide TotalCost, Split, SplitShare, TruncDiv;
    SplitOutcome(b, l, ws, i);
    var t, v, w, rest := TotalCost(b.costs, l), b.lots[l].volume, ws[i], b.lots[l].volume - Sum(ws);
    if t <= 0 {
      MulLe(t, 0, w);
    } else if w == 0 {
      if 0 < v {
        SplitShareBound(t, v, w);
        MulLe(0, SplitShare(t, v, w), rest);
      }
    } else {
      ChildIsCheaper(t, v, w, rest);
      if 0 < rest {
        SplitShareBound(t, v, w);
        PricesInOrder(t, v, w, rest, SplitShare(t, v, w));
      }
    }
  }

  /** When child and parent show the same cost per gallon: both are empty; or the
      parent has no cost and its negative cost rounds away; or the four decimals `g`
      of the price `u` before the split are still those of the rest, and what `g * w`
      lacks to a whole unit is made up by the further decimals of `u`. */
  predicate SamePrice(t: int, v: int, w: int, rest: int) {
    if v <= 0 || w <= 0 || rest <= 0 then w <= 0 && rest <= 0
    else if t <= 0 then -rest < t * 10000
    else
      var u := UnitCost(t, v);
      var g := u / 10000;
      t * 10000 < rest * (g + 1) && (-(g * w) % 10000) * 10000 <= (u % 10000) * w
  }

  lemma FourDecimals(a: int, v: int, u: int)
    requires 0 < v && v * u <= 10000 * a < v * u + v
    ensures v * (u / 10000) <= a < v * (u / 10000 + 1)
  {
    var g := u / 10000;
    assert v * (g * 10000) <= v * u by { MulLe(g * 10000, u, v); }
    assert v * (u + 1) <= v * (g * 10000 + 10000) by { MulLe(u + 1, g * 10000 + 10000, v); }
    assert v * (g * 10000) == 10000 * (v * g) && v * (g * 10000 + 10000) == 10000 * (v * (g + 1));
    assert v * (u + 1) == v * u + v;
  }

  /** Truncating to eight decimals and then to four is truncating to four. */
  lemma FourOfEight(t: int, v: int)
    requires 0 < t && 0 < v
    ensures 0 <= UnitCost(t, v) && TruncDiv(t * 10000, v) == UnitCost(t, v) / 10000
  {
    var u := UnitCost(t, v);
    var g := u / 10000;
    assert 0 <= u && v * u <= 10000 * (t * 10000) < v * u + v;
    hide UnitCost, TruncDiv;
    FourDecimals(t * 10000, v, u);
    QuotientAtLeast(t * 10000, v, g);
    QuotientAtLeast(t * 10000, v, g + 1);
  }

  /** The truncated share still reaches the price `g` exactly when the decimals of `u`
      past the fourth make up for what is missing. */
  lemma ShareReaches(u: int, w: int)
    requires 0 <= u && 0 < w
    ensures var g := u / 10000;
            w * g <= ShareAt(u, w) * 10000 <==> (-(g * w) % 10000) * 10000 <= (u % 10000) * w
  {
    var g, r := u / 10000, u % 10000;
    var x, d := g * w, -(g * w) % 10000;
    var c := (x + d) / 10000;
    assert 0 <= x by { MulLe(0, g, w); }
    assert x + d == 10000 * c;
    assert u * w == 10000 * x + r * w by { assert (10000 * g + r) * w == 10000 * (g * w) + r * w; }
    assert 0 <= u * w by { MulLe(0, u, w); }
    QuotientAtLeast(u * w, SCALE, c);
    assert c <= ShareAt(u, w) <==> SCALE * c <= u * w;
    assert SCALE * c == 10000 * (x + d);
    assert w * g == x;
  }

  /** The cost per gallon of a child and of the parent, as the program returns them,
      agree exactly then; and then the price has moved by less than one unit. */
  lemma SplitPricesAgree(b: Book, l: nat, ws: seq<int>, i: nat)
    requires Sound(b) && Split(b, l, ws).Some? && i < |ws| && forall j | 0 <= j < |ws| :: 0 <= ws[j]
    ensures var c, n := Split(b, l, ws).value, |b.lots|;
            && l < n && n + i < |c.lots|
            && var t, v, rest := TotalCost(b.costs, l), b.lots[l].volume, b.lots[l].volume - Sum(ws);
               && (LotUnitCost(c, n + i) == LotUnitCost(c, l) <==> SamePrice(t, v, ws[i], rest))
               && (LotUnitCost(c, n + i) == LotUnitCost(c, l) && 0 < t && 0 < ws[i] ==>
                     t * 10000 * Sum(ws) < v * rest)
  {
    hide TotalCost, Split, SplitShare, UnitCost, TruncDiv;
    SplitOutcome(b, l, ws, i);
    var t, v, w, rest := TotalCost(b.costs, l), b.lots[l].volume, ws[i], b.lots[l].volume - Sum(ws);
    if 0 < w && 0 < rest {
      if 0 < t {
        SplitShareBound(t, v, w);
        PricesAgree(t, v, w, rest, SplitShare(t, v, w));
        FourOfEight(t, v);
        SharePrice(t, v, w);
        if SamePrice(t, v, w, rest) {
          var g := TruncDiv(t * 10000, v);
          assert v * g <= t * 10000 by { QuotientBelow(t * 10000, v); }
          PriceGap(t * 10000, v, rest, g);
        }
      } else {
        QuotientVanishes(t * 10000, rest);
        QuotientVanishes(0, w);
      }
    }
  }

  lemma SharePrice(t: int, v: int, w: int)
    requires 0 < t && 0 < v && 0 < w
    ensures var u := UnitCost(t, v);
            w * (u / 10000) <= SplitShare(t, v, w) * 10000 <==> (-(u / 10000 * w) % 10000) * 10000 <= (u % 10000) * w
  {
    FourOfEight(t, v);
    ShareReaches(UnitCost(t, v), w);
  }

  lemma QuotientBelow(a: int, n: int)
    requires 0 <= a && 0 < n
    ensures n * TruncDiv(a, n) <= a
  {
  }

  lemma QuotientVanishes(a: int, n: int)
    requires a <= 0 && 0 < n
    ensures TruncDiv(a, n) == 0 <==> -n < a
  {
    var q := TruncDiv(a, n);
    if q < 0 {
      MulLe(q, -1, n);
    }
  }

  /** 100 gallons that cost 1000 dollars, two times 20 split off: the ledger then
      holds 1400 dollars, and the parent's cost per gallon is 16.6666 to the
      children's 10. */
  lemma SplitChargesTwice()
    ensures var b := Book([Lot("Merlot", 1000000, InProgress)], [], [], [], [], [CostEntry(0, Fruit, 10000000)], []);
            var s := Split(b, 0, [200000, 200000]);
            && s.Some? && LedgerTotal(b.costs) == 10000000 && LedgerTotal(s.value.costs) == 14000000
            && LotUnitCost(b, 0) == Some(100000) && |s.value.lots| == 3
            && LotUnitCost(s.value, 0) == Some(166666) && LotUnitCost(s.value, 1) == Some(100000)
  {
    var b := Book([Lot("Merlot", 1000000, InProgress)], [], [], [], [], [CostEntry(0, Fruit, 10000000)], []);
    var ws := [200000, 200000];
    SumOfTwo(Same, 200000, 200000);
    SumOfTwo(ShareOf(10000000, 1000000), 200000, 200000);
    assert SplitShare(10000000, 1000000, 200000) == 2000000;
    assert b.costs[..0] == [];
    assert TotalCost(b.costs, 0) == 10000000 && LedgerTotal(b.costs) == 10000000;
    assert Sound(b);
    assert Split(b, 0, ws).Some?;
    hide Split, TotalCost, LedgerTotal, SplitShare;
    SplitOutcome(b, 0, ws, 0);
    SplitCosts(b, 0, ws);
  }

  lemma UnitCostOrder(a: int, p: int, b: int, q: int)
    requires 0 <= a && 0 <= b && 0 < p && 0 < q && a * q <= b * p
    ensures CostPerGallon(a, p).value <= CostPerGallon(b, q).value
  {
    QuotientOrder(a, p, b, q, CostPerGallon(a, p).value, CostPerGallon(b, q).value);
  }

  lemma QuotientOrder(a: int, p: int, b: int, q: int, x: int, y: int)
    requires 0 < p && 0 < q && a * q <= b * p
    requires p * x <= 10000 * a && 10000 * b < q * y + q
    ensures x <= y
  {
    if y < x {
      QuotientGap(a, p, b, q, x, y);
    }
  }

  lemma QuotientGap(a: int, p: int, b: int, q: int, x: int, y: int)
    requires 0 < p && 0 < q && y < x
    requires p * x <= 10000 * a && 10000 * b < q * y + q
    ensures b * p < a * q
  {
    assert (p * q) * x <= 10000 * (a * q) by { ScaleLe(p, x, a, q); }
    assert 10000 * (b * p) < (p * q) * (y + 1) by { ScaleLt(b, q, y, p); }
    assert (p * q) * (y + 1) <= (p * q) * x by { MulLe(y + 1, x, p * q); }
  }

  lemma ScaleLe(p: int, x: int, a: int, q: int)
    requires 0 < q && p * x <= 10000 * a
    ensures (p * q) * x <= 10000 * (a * q)
  {
    MulLe(p * x, 10000 * a, q);
    assert q * (p * x) == (p * q) * x && q * (10000 * a) == 10000 * (a * q);
  }

  lemma ScaleLt(b: int, q: int, y: int, p: int)
    requires 0 < p && 10000 * b < q * y + q
    ensures 10000 * (b * p) < (p * q) * (y + 1)
  {
    MulLt(10000 * b, q * y + q, p);
    assert p * (q * y + q) == (p * q) * (y + 1) && p * (10000 * b) == 10000 * (b * p);
  }

  // ---------- Blends ----------

  /** The volume a list of components takes from a lot. */
  function Taken(m: nat): Component -> int {
    (c: Component) => if c.source == m then c.volume else 0
  }

  lemma {:induction false} DeductVolumes(b: Book, cs: seq<Component>)
    requires DeductAll(b, cs).Some?
    ensures var c := DeductAll(b, cs).value;
            && |c.lots| == |b.lots|
            && forall m | 0 <= m < |b.lots| :: c.lots[m] == b.lots[m].(volume := b.lots[m].volume - SumBy(Taken(m), cs))
  {
    if cs != [] {
      DeductVolumes(b, cs[..|cs| - 1]);
    }
  }

  lemma {:induction false} TakenOnce(cs: seq<Component>, i: nat)
    requires Distinct(cs) && i < |cs|
    ensures SumBy(Taken(cs[i].source), cs) == cs[i].volume
  {
    var f, rest := Taken(cs[i].source), cs[..i] + cs[i + 1..];
    forall j | 0 <= j < |rest| ensures f(rest[j]) == 0 {
      if j < i {
        assert rest[j] == cs[j];
      } else {
        assert rest[j] == cs[j + 1];
      }
    }
    SumBounds(f, rest, 0, 0);
    SumRemove(f, cs, i);
  }

  lemma {:induction false} TakenNever(cs: seq<Component>, m: nat)
    requires forall j | 0 <= j < |cs| :: cs[j].source != m
    ensures SumBy(Taken(m), cs) == 0
  {
    SumBounds(Taken(m), cs, 0, 0);
  }

  /** With distinct sources that each hold enough, no deduction can fail. */
  lemma {:induction false} DeductSucceeds(b: Book, cs: seq<Component>)
    requires Distinct(cs) && Enough(b, cs)
    ensures DeductAll(b, cs).Some?
  {
    if cs != [] {
      var n := |cs| - 1;
      DeductSucceeds(b, cs[..n]);
      DeductVolumes(b, cs[..n]);
      TakenNever(cs[..n], cs[n].source);
    }
  }

  /** The exact part of a source's cost a component carries over. */
  function BlendPart(b: Book): Component -> int {
    (c: Component) =>
      if c.source < |b.lots| && 0 < TotalCost(b.costs, c.source) && 0 < b.lots[c.source].volume
      then BlendShare(TotalCost(b.costs, c.source), c.volume, b.lots[c.source].volume) else 0
  }

  function PositiveCost(b: Book): Component -> int {
    (c: Component) => if 0 < TotalCost(b.costs, c.source) then TotalCost(b.costs, c.source) else 0
  }

  lemma PartBound(b: Book, c: Component)
    requires c.source < |b.lots| && 0 <= c.volume <= b.lots[c.source].volume
    ensures 0 <= BlendPart(b)(c) <= PositiveCost(b)(c)
    ensures var t, s := TotalCost(b.costs, c.source), b.lots[c.source].volume;
            0 < t && 0 < s ==>
              && s * BlendPart(b)(c) <= t * c.volume
              && SCALE * (t * c.volume - s * BlendPart(b)(c)) < SCALE * s + t * s
  {
    var t, s := TotalCost(b.costs, c.source), b.lots[c.source].volume;
    if 0 < t && 0 < s {
      BlendShareBound(t, c.volume, s);
    }
  }

  /** A component whose source has nothing to hand on, or less than a unit of it. */
  predicate HandsOnNothing(b: Book, c: Component)
    requires c.source < |b.lots|
  {
    var t, s := TotalCost(b.costs, c.source), b.lots[c.source].volume;
    t <= 0 || s <= 0 || t * Proportion(c.volume, s) < SCALE
  }

  lemma PartZero(b: Book, c: Component)
    requires c.source < |b.lots| && 0 <= c.volume
    ensures BlendPart(b)(c) == 0 <==> HandsOnNothing(b, c)
  {
    var t, s := TotalCost(b.costs, c.source), b.lots[c.source].volume;
    if 0 < t && 0 < s {
      MulLe(0, Proportion(c.volume, s), t);
    }
  }

  lemma {:induction false} PartsZero(b: Book, cs: seq<Component>)
    requires ComponentsNotNegative(cs) && Enough(b, cs)
    ensures SumBy(BlendPart(b), cs) == 0 <==> forall i | 0 <= i < |cs| :: HandsOnNothing(b, cs[i])
  {
    hide HandsOnNothing, BlendShare;
    if cs != [] {
      PartsZero(b, cs[..|cs| - 1]);
      PartsBound(b, cs[..|cs| - 1]);
      PartBound(b, cs[|cs| - 1]);
      PartZero(b, cs[|cs| - 1]);
    }
  }

  lemma {:induction false} PartsBound(b: Book, cs: seq<Component>)
    requires ComponentsNotNegative(cs) && Enough(b, cs)
    ensures 0 <= SumBy(BlendPart(b), cs) <= SumBy(PositiveCost(b), cs)
  {
    if cs != [] {
      PartsBound(b, cs[..|cs| - 1]);
      PartBound(b, cs[|cs| - 1]);
    }
  }

  /** The state in which the costs are rolled: sources deducted, nothing charged. */
  ghost predicate Deducted(b: Book, d: Book, cs: seq<Component>) {
    && |b.lots| < |d.lots| && d.costs == b.costs
    && forall i | 0 <= i < |cs| :: cs[i].source < |b.lots| && 0 <= cs[i].volume <= b.lots[cs[i].source].volume
                                   && d.lots[cs[i].source].volume + cs[i].volume == b.lots[cs[i].source].volume
  }

  lemma {:induction false} RollToBlendTotals(b: Book, d: Book, cs: seq<Component>)
    requires Deducted(b, d, cs)
    ensures var c, into := RollToBlend(d, |b.lots|, cs).costs, |b.lots|;
            && (forall m: nat ::
                  TotalCost(c, m) == TotalCost(b.costs, m) + (if m == into then SumBy(BlendPart(b), cs) else 0))
            && LedgerTotal(c) == LedgerTotal(b.costs) + SumBy(BlendPart(b), cs)
  {
    hide TotalCost, LedgerTotal, BlendShare;
    if cs != [] {
      var into, front, last := |b.lots|, cs[..|cs| - 1], cs[|cs| - 1];
      RollToBlendTotals(b, d, front);
      RollToBlendLaw(d, into, front);
      var before := RollToBlend(d, into, front);
      PartBound(b, last);
      assert RolledShare(before, last) == BlendPart(b)(last);
      RecordTotals(before, into, TransferIn, BlendPart(b)(last));
    }
  }

  /** A trial is finalized exactly when it is a draft and each source holds its
      component; the new lot then has the trial's total and the label's variety, each
      source has lost its component, and all other lots are as before. */
  lemma FinalizeVolumes(b: Book, k: nat)
    requires Sound(b)
    ensures Finalize(b, k).Some? <==>
              && k < |b.trials| && b.trials[k].state == Draft
              && forall i | 0 <= i < |b.trials[k].components| ::
                   b.trials[k].components[i].volume <= b.lots[b.trials[k].components[i].source].volume
    ensures Finalize(b, k).Some? ==>
              var c, t, n := Finalize(b, k).value, b.trials[k], |b.lots|;
              && |c.lots| == n + 1
              && c.lots[n] == Lot(if t.chosen.Some? then t.chosen.value else "Blend", t.total, InProgress)
              && (forall m | 0 <= m < n ::
                    c.lots[m] == b.lots[m].(volume := b.lots[m].volume - SumBy(Taken(m), t.components)))
              && (forall i | 0 <= i < |t.components| ::
                    SumBy(Taken(t.components[i].source), t.components) == t.components[i].volume)
              && c.trials == b.trials[k := t.(state := Finalized(n))]
  {
    if k < |b.trials| && b.trials[k].state == Draft && Enough(b, b.trials[k].components) {
      var t, into := b.trials[k], |b.lots|;
      var made := NewLot(b, Lot(BlendName(t), t.total, InProgress));
      DeductSucceeds(made, t.components);
      DeductVolumes(made, t.components);
      DeductKeepsRest(made, t.components);
      TakenNever(t.components, into);
      forall i | 0 <= i < |t.components|
        ensures SumBy(Taken(t.components[i].source), t.components) == t.components[i].volume
      {
        TakenOnce(t.components, i);
      }
      var deducted := DeductAll(made, t.components).value;
      var told := Logged(deducted.(trials := deducted.trials[k := t.(state := Finalized(into))]),
                         BlendFinalized(into, k, t.total));
      RollToBlendLaw(told, into, t.components);
    }
  }

  /** The blended lot's cost is the sum of its components' truncated parts of the
      sources' costs, never more than the sources' positive costs together. The
      sources keep theirs, so the ledger's total is kept exactly when no component
      hands on a whole unit. */
  lemma FinalizeCosts(b: Book, k: nat)
    requires Sound(b) && Finalize(b, k).Some?
    ensures var c, cs, n := Finalize(b, k).value.costs, b.trials[k].components, |b.lots|;
            && TotalCost(c, n) == SumBy(BlendPart(b), cs)
            && 0 <= SumBy(BlendPart(b), cs) <= SumBy(PositiveCost(b), cs)
            && (forall m | 0 <= m < n :: TotalCost(c, m) == TotalCost(b.costs, m))
            && LedgerTotal(c) == LedgerTotal(b.costs) + SumBy(BlendPart(b), cs)
            && (LedgerTotal(c) == LedgerTotal(b.costs) <==> forall i | 0 <= i < |cs| :: HandsOnNothing(b, cs[i]))
            && Adds(b.costs, c, TransferIn)
  {
    hide TotalCost, LedgerTotal, BlendShare, HandsOnNothing, Adds;
    var t, into := b.trials[k], |b.lots|;
    var made := NewLot(b, Lot(BlendName(t), t.total, InProgress));
    DeductVolumes(made, t.components);
    DeductKeepsRest(made, t.components);
    var deducted := DeductAll(made, t.components).value;
    var told := Logged(deducted.(trials := deducted.trials[k := t.(state := Finalized(into))]),
                       BlendFinalized(into, k, t.total));
    assert told.costs == b.costs;
    forall i | 0 <= i < |t.components|
      ensures told.lots[t.components[i].source].volume + t.components[i].volume == b.lots[t.components[i].source].volume
    {
      TakenOnce(t.components, i);
    }
    assert Deducted(b, told, t.components);
    RollToBlendTotals(b, told, t.components);
    ToBlendAdds(told, into, t.components);
    PartsBound(b, t.components);
    PartsZero(b, t.components);
    NoCostsYet(b.costs, into, into);
  }

  /** Two lots of 100 gallons that cost 1000 dollars each, half of each blended: the
      ledger then holds 3000 dollars. */
  lemma BlendChargesTwice()
    ensures var lot, cs := Lot("Merlot", 1000000, InProgress), [Component(0, 500000), Component(1, 500000)];
            var costs := [CostEntry(0, Fruit, 10000000), CostEntry(1, Fruit, 10000000)];
            var b := Book([lot, lot], [Trial(Draft, cs, 1000000, Some("Merlot"))], [], [], [], costs, []);
            && Finalize(b, 0).Some?
            && LedgerTotal(costs) == 20000000 && LedgerTotal(Finalize(b, 0).value.costs) == 30000000
  {
    var lot, cs := Lot("Merlot", 1000000, InProgress), [Component(0, 500000), Component(1, 500000)];
    var costs := [CostEntry(0, Fruit, 10000000), CostEntry(1, Fruit, 10000000)];
    var b := Book([lot, lot], [Trial(Draft, cs, 1000000, Some("Merlot"))], [], [], [], costs, []);
    TwoHalves(b, cs, costs);
    hide LedgerTotal, TotalCost, BlendShare, Finalize;
    assert TrialsSound(b) && Sound(b);
    FinalizeVolumes(b, 0);
    FinalizeCosts(b, 0);
  }

  lemma TwoHalves(b: Book, cs: seq<Component>, costs: seq<CostEntry>)
    requires costs == [CostEntry(0, Fruit, 10000000), CostEntry(1, Fruit, 10000000)] && b.costs == costs
    requires cs == [Component(0, 500000), Component(1, 500000)]
    requires |b.lots| == 2 && b.lots[0].volume == 1000000 && b.lots[1].volume == 1000000
    ensures LedgerTotal(costs) == 20000000 && Needed(cs) == 1000000
    ensures SumBy(BlendPart(b), cs) == 10000000
  {
    forall l: nat ensures TotalCost(costs, l) == AmountFor(l)(costs[0]) + AmountFor(l)(costs[1]) {
      SumOfTwo(AmountFor(l), costs[0], costs[1]);
    }
    SumOfTwo(Amount, costs[0], costs[1]);
    SumOfTwo(ComponentVolume, cs[0], cs[1]);
    SumOfTwo(BlendPart(b), cs[0], cs[1]);
    assert Proportion(500000, 1000000) == 50000000;
    assert BlendShare(10000000, 500000, 1000000) == 5000000;
  }
}
