/** LotService, LotSplitService, BlendService and BottlingService as they run:
    tables as fields, loops that overwrite rows one after the other, and the
    rollback of a transaction that fails half-way. */
module LotServices {
  import opened FixedPoint
  import opened Sums
  import opened Options
  import opened CostLedger
  import opened CostAllocation
  import opened VarietalLabel
  import opened LotBook

  class Winery {
    var lots: seq<Lot>
    var trials: seq<Trial>
    var runs: seq<Run>
    var goods: seq<DryGood>
    var skus: seq<SkuCard>
    var costs: seq<CostEntry>
    var log: seq<Event>

    function Now(): Book
      reads this
    {
      Book(lots, trials, runs, goods, skus, costs, log)
    }

    /** Roll back to the state the transaction began with. */
    method Restore(saved: Book)
      modifies this
      ensures Now() == saved
    {
      lots, trials, runs := saved.lots, saved.trials, saved.runs;
      goods, skus, costs, log := saved.goods, saved.skus, saved.costs, saved.log;
    }

    // ---------- LotService ----------

    method CreateLot(lot: Lot) returns (id: nat)
      modifies this`lots, this`log
      ensures Now() == NewLot(old(Now()), lot) && id == |old(lots)|
    {
      id := |lots|;
      lots := lots + [lot];
      log := log + [LotCreated(id, lot.volume, lot.status)];
    }

    method AdjustVolume(l: nat, delta: int) returns (ok: bool)
      modifies this`lots, this`log
      ensures ok == Adjust(old(Now()), l, delta).Some?
      ensures Now() == if ok then Adjust(old(Now()), l, delta).value else old(Now())
    {
      if l >= |lots| {
        return false;
      }
      var before := lots[l].volume;
      var after := before + delta;
      if after < 0 {
        return false;
      }
      lots := lots[l := lots[l].(volume := after)];
      log := log + [VolumeAdjusted(l, before, after, delta)];
      return true;
    }

    method UpdateLot(l: nat, volume: Option<int>, status: Option<LotStatus>) returns (ok: bool)
      modifies this`lots, this`log
      ensures ok == Update(old(Now()), l, volume, status).Some?
      ensures Now() == if ok then Update(old(Now()), l, volume, status).value else old(Now())
    {
      if l >= |lots| {
        return false;
      }
      var oldStatus := lots[l].status;
      if volume.Some? {
        lots := lots[l := lots[l].(volume := volume.value)];
      }
      if status.Some? {
        lots := lots[l := lots[l].(status := status.value)];
        if oldStatus != status.value {
          log := log + [StatusChanged(l, oldStatus, status.value)];
        }
      }
      return true;
    }

    method RecordCost(l: nat, ty: CostType, amount: int)
      modifies this`costs, this`log
      ensures Now() == Record(old(Now()), l, ty, amount)
    {
      var entry := CostEntry(l, ty, amount);
      costs := costs + [entry];
      log := log + [CostEntryCreated(entry)];
    }

    // ---------- LotSplitService ----------

    method TotalOf(ws: seq<int>) returns (total: int)
      ensures total == Sum(ws)
    {
      total := 0;
      for i := 0 to |ws|
        invariant total == Sum(ws[..i])
      {
        SumStep(Same, ws, i);
        total := total + ws[i];
      }
      assert ws[..|ws|] == ws;
    }

    method SplitLot(l: nat, ws: seq<int>) returns (ok: bool)
      modifies this
      ensures ok == Split(old(Now()), l, ws).Some?
      ensures Now() == if ok then Split(old(Now()), l, ws).value else old(Now())
    {
      if l >= |lots| {
        return false;
      }
      var parentVolume := lots[l].volume;
      var total := TotalOf(ws);
      if total > parentVolume {
        return false;
      }
      var first := |lots|;
      CreateChildren(lots[l].variety, ws);
      SpawnKeepsLots(old(Now()), old(lots)[l].variety, ws);
      lots := lots[l := lots[l].(volume := parentVolume - total)];
      log := log + [LotSplit(l, parentVolume, parentVolume - total, total)];
      SplitCostsToChildren(l, first, parentVolume, ws);
      return true;
    }

    method CreateChildren(variety: Variety, ws: seq<int>)
      modifies this`lots, this`log
      ensures Now() == Spawn(old(Now()), variety, ws)
    {
      var i := 0;
      while i < |ws|
        invariant 0 <= i <= |ws| && Now() == Spawn(old(Now()), variety, ws[..i])
      {
        assert ws[..i + 1][..i] == ws[..i];
        var child := CreateLot(Lot(variety, ws[i], InProgress));
        i := i + 1;
      }
      assert ws[..i] == ws;
    }

    method SplitCostsToChildren(l: nat, first: nat, volume: int, ws: seq<int>)
      modifies this`costs, this`log
      ensures var t := TotalCost(old(costs), l);
              Now() == if t <= 0 || volume <= 0 then old(Now()) else RollToChildren(old(Now()), first, t, volume, ws)
    {
      var parentCost := GetTotalCost(costs, l);
      if parentCost <= 0 || volume <= 0 {
        return;
      }
      var unitCost := UnitCost(parentCost, volume);
      var i := 0;
      while i < |ws|
        invariant 0 <= i <= |ws|
        invariant Now() == RollToChildren(old(Now()), first, parentCost, volume, ws[..i])
      {
        assert ws[..i + 1][..i] == ws[..i];
        var share := ShareAt(unitCost, ws[i]);
        assert share == SplitShare(parentCost, volume, ws[i]);
        if share > 0 {
          RecordCost(first + i, TransferIn, share);
        }
        i := i + 1;
      }
      assert ws[..i] == ws;
    }

    // ---------- BlendService ----------

    method CreateBlendTrial(cs: seq<Component>) returns (ok: bool)
      modifies this`trials
      ensures ok == CreateTrial(old(Now()), cs).Some?
      ensures Now() == if ok then CreateTrial(old(Now()), cs).value else old(Now())
    {
      if !SourcesKnown(Now(), cs) {
        return false;
      }
      var total, _, chosen := Compose(PartsOf(Now(), cs));
      if !Distinct(cs) {
        return false;
      }
      trials := trials + [Trial(Draft, cs, total, chosen)];
      return true;
    }

    method HaveEnough(cs: seq<Component>) returns (ok: bool)
      ensures ok == Enough(Now(), cs)
    {
      var i := 0;
      while i < |cs|
        invariant 0 <= i <= |cs| && Enough(Now(), cs[..i])
      {
        if cs[i].source >= |lots| || cs[i].volume > lots[cs[i].source].volume {
          return false;
        }
        i := i + 1;
      }
      assert cs[..i] == cs;
      return true;
    }

    method FinalizeTrial(k: nat) returns (ok: bool)
      modifies this
      ensures ok == Finalize(old(Now()), k).Some?
      ensures Now() == if ok then Finalize(old(Now()), k).value else old(Now())
    {
      if k >= |trials| || trials[k].state != Draft {
        return false;
      }
      var t := trials[k];
      var enough := HaveEnough(t.components);
      if !enough {
        return false;
      }
      var saved := Now();
      var blend := CreateLot(Lot(BlendName(t), t.total, InProgress));
      ghost var made := Now();
      var deducted := DeductComponents(t.components);
      if !deducted {
        Restore(saved);
        return false;
      }
      DeductKeepsRest(made, t.components);
      trials := trials[k := t.(state := Finalized(blend))];
      log := log + [BlendFinalized(blend, k, t.total)];
      RollCosts(blend, t.components);
      return true;
    }

    method DeductComponents(cs: seq<Component>) returns (ok: bool)
      modifies this`lots, this`log
      ensures ok == DeductAll(old(Now()), cs).Some?
      ensures ok ==> Now() == DeductAll(old(Now()), cs).value
    {
      var i := 0;
      while i < |cs|
        invariant 0 <= i <= |cs|
        invariant DeductAll(old(Now()), cs[..i]) == Some(Now())
      {
        assert cs[..i + 1][..i] == cs[..i];
        var done := AdjustVolume(cs[i].source, -cs[i].volume);
        if !done {
          DeductFailed(old(Now()), cs, i + 1);
          return false;
        }
        i := i + 1;
      }
      assert cs[..i] == cs;
      return true;
    }

    method RollCosts(into: nat, cs: seq<Component>)
      modifies this`costs, this`log
      ensures Now() == RollToBlend(old(Now()), into, cs)
    {
      var i := 0;
      while i < |cs|
        invariant 0 <= i <= |cs|
        invariant Now() == RollToBlend(old(Now()), into, cs[..i]) && lots == old(lots)
      {
        hide BlendShare, TotalCost;
        assert cs[..i + 1][..i] == cs[..i];
        var c := cs[i];
        if c.source < |lots| {
          var whole := lots[c.source].volume + c.volume;
          var cost := GetTotalCost(costs, c.source);
          if cost > 0 && whole > 0 {
            var share := BlendShare(cost, c.volume, whole);
            if share > 0 {
              RecordCost(into, TransferIn, share);
            }
          }
        }
        i := i + 1;
      }
      assert cs[..i] == cs;
    }

    // ---------- BottlingService ----------

    method CreateBottlingRun(l: nat, volume: int, bottles: int, perCase: Option<int>, packaging: seq<Packaging>)
      returns (ok: bool)
      modifies this`runs
      ensures ok == CreateRun(old(Now()), l, volume, bottles, perCase, packaging).Some?
      ensures Now() == if ok then CreateRun(old(Now()), l, volume, bottles, perCase, packaging).value else old(Now())
    {
      var size := if perCase.Some? then perCase.value else 12;
      if size == 0 || l >= |lots| {
        return false;
      }
      runs := runs + [Run(l, volume, bottles, size, packaging, IntDiv(bottles, size), false)];
      return true;
    }

    method CompleteBottlingRun(k: nat) returns (ok: bool)
      modifies this
      ensures ok == Complete(old(Now()), k).Some?
      ensures Now() == if ok then Complete(old(Now()), k).value else old(Now())
    {
      hide IntDiv, CogsOf, Priced, DeductPackaging;
      if k >= |runs| || runs[k].completed {
        return false;
      }
      var r := runs[k];
      var saved := Now();
      var drawn := AdjustVolume(r.lot, -r.volume);
      if !drawn {
        return false;
      }
      if r.perCase == 0 {
        Restore(saved);
        return false;
      }
      var cases, left := IntDiv(r.bottles, r.perCase), lots[r.lot].volume;
      runs := runs[k := r.(completed := true, cases := cases)];
      if left <= 0 {
        lots := lots[r.lot := lots[r.lot].(status := Bottled)];
        log := log + [StatusChanged(r.lot, InProgress, Bottled)];
      }
      log := log + [BottlingCompleted(r.lot, k, r.volume, saved.lots[r.lot].volume, left, cases)];
      DeductPackagingInventory(r.packaging);
      var cogs := CalculateBottlingCogs(costs, r.lot, goods, r.packaging, r.bottles, r.perCase, r.volume);
      PriceSku(r.lot, k, cogs.costPerBottle);
      log := log + [CogsCalculated(r.lot, k, cogs)];
      return true;
    }

    method PriceSku(l: nat, k: nat, price: Option<int>)
      modifies this`skus
      ensures skus == Priced(old(skus), l, k, price)
    {
      if price.Some? {
        var i := FindSku(skus, l, k);
        if i < |skus| {
          skus := skus[i := skus[i].(costPerBottle := Some(RoundDiv(price.value, 100)))];
        }
      }
    }

    method DeductPackagingInventory(ps: seq<Packaging>)
      modifies this`goods, this`log
      ensures Now() == DeductPackaging(old(Now()), ps)
    {
      var i := 0;
      while i < |ps|
        invariant 0 <= i <= |ps| && Now() == DeductPackaging(old(Now()), ps[..i])
      {
        assert ps[..i + 1][..i] == ps[..i];
        var p := ps[i];
        if p.linked.Some? && p.linked.value < |goods| {
          var item := p.linked.value;
          var previous := goods[item].onHand;
          var amount := 100 * p.quantity;
          goods := goods[item := goods[item].(onHand := previous - amount)];
          log := log + [DryGoodsDeducted(item, amount, previous, previous - amount)];
        }
        i := i + 1;
      }
      assert ps[..i] == ps;
    }
  }

  /** A deduction that failed once fails for every longer list. */
  lemma {:induction false} DeductFailed(b: Book, cs: seq<Component>, n: nat)
    requires n <= |cs| && DeductAll(b, cs[..n]).None?
    ensures DeductAll(b, cs).None?
  {
    if n == |cs| {
      assert cs[..n] == cs;
    } else {
      assert cs[..|cs| - 1][..n] == cs[..n];
      DeductFailed(b, cs[..|cs| - 1], n);
    }
  }
}
