/** Lot statuses and the log: what the events say a lot's status is, and which
    events quote a status that the lot did not have. */
module StatusLaws {
  import opened Options
  import opened Sums
  import opened CostLedger
  import opened CostAllocation
  import opened VarietalLabel
  import opened LotBook

  /** The status the last event about it gives a lot. */
  function SaidStatus(log: seq<Event>, l: nat): LotStatus {
    if log == [] then InProgress
    else
      var e := log[|log| - 1];
      if e.LotCreated? && e.lot == l then e.status
      else if e.StatusChanged? && e.lot == l then e.now
      else SaidStatus(log[..|log| - 1], l)
  }

  /** Every lot has the status its events say. */
  ghost predicate StatusInStep(b: Book) {
    forall l | 0 <= l < |b.lots| :: SaidStatus(b.log, l) == b.lots[l].status
  }

  predicate QuotesStatus(log: seq<Event>, e: Event) {
    e.StatusChanged? ==> e.was == SaidStatus(log, e.lot)
  }

  /** Every status change quotes the status the events before it gave. */
  predicate HonestLog(log: seq<Event>) {
    log == [] || (HonestLog(log[..|log| - 1]) && QuotesStatus(log[..|log| - 1], log[|log| - 1]))
  }

  /** From `b` to `c` statuses stay in step and nothing dishonest was written. */
  ghost predicate StatusKeeps(b: Book, c: Book) {
    StatusInStep(b) ==> StatusInStep(c) && (HonestLog(c.log) <==> HonestLog(b.log))
  }

  lemma StatusChain(a: Book, b: Book, c: Book)
    requires StatusKeeps(a, b) && StatusKeeps(b, c)
    ensures StatusKeeps(a, c)
  {
  }

  lemma OneEvent(log: seq<Event>, e: Event)
    ensures HonestLog(log + [e]) <==> HonestLog(log) && QuotesStatus(log, e)
    ensures forall l: nat :: SaidStatus(log + [e], l) ==
              if e.LotCreated? && e.lot == l then e.status
              else if e.StatusChanged? && e.lot == l then e.now
              else SaidStatus(log, l)
  {
    assert (log + [e])[..|log|] == log;
  }

  /** An event about something else. */
  lemma OtherEvent(b: Book, c: Book, e: Event)
    requires c.log == b.log + [e] && !e.LotCreated? && !e.StatusChanged?
    requires |c.lots| == |b.lots| && forall l | 0 <= l < |b.lots| :: c.lots[l].status == b.lots[l].status
    ensures StatusKeeps(b, c)
  {
    OneEvent(b.log, e);
  }

  lemma NewLotStatus(b: Book, lot: Lot)
    ensures StatusKeeps(b, NewLot(b, lot))
  {
    OneEvent(b.log, LotCreated(|b.lots|, lot.volume, lot.status));
  }

  lemma AdjustStatus(b: Book, l: nat, delta: int)
    requires Adjust(b, l, delta).Some?
    ensures StatusKeeps(b, Adjust(b, l, delta).value)
  {
    var before := b.lots[l].volume;
    OtherEvent(b, Adjust(b, l, delta).value, VolumeAdjusted(l, before, before + delta, delta));
  }

  lemma UpdateStatus(b: Book, l: nat, volume: Option<int>, status: Option<LotStatus>)
    requires Update(b, l, volume, status).Some?
    ensures StatusKeeps(b, Update(b, l, volume, status).value)
  {
    var was, now := b.lots[l].status, Update(b, l, volume, status).value.lots[l].status;
    OneEvent(b.log, StatusChanged(l, was, now));
  }

  lemma RecordStatus(b: Book, l: nat, ty: CostType, amount: int)
    ensures StatusKeeps(b, Record(b, l, ty, amount))
  {
    OtherEvent(b, Record(b, l, ty, amount), CostEntryCreated(CostEntry(l, ty, amount)));
  }

  lemma {:induction false} SpawnStatus(b: Book, variety: Variety, ws: seq<int>)
    ensures StatusKeeps(b, Spawn(b, variety, ws))
  {
    hide StatusKeeps;
    if ws == [] {
      StatusSelf(b);
    } else {
      var front := Spawn(b, variety, ws[..|ws| - 1]);
      SpawnStatus(b, variety, ws[..|ws| - 1]);
      NewLotStatus(front, Lot(variety, ws[|ws| - 1], InProgress));
      StatusChain(b, front, Spawn(b, variety, ws));
    }
  }

  lemma StatusSelf(b: Book)
    ensures StatusKeeps(b, b)
  {
  }

  lemma {:induction false} ToChildrenStatus(b: Book, first: nat, cost: int, volume: int, ws: seq<int>)
    requires 0 < volume
    ensures StatusKeeps(b, RollToChildren(b, first, cost, volume, ws))
  {
    hide StatusKeeps, SplitShare;
    if ws == [] {
      StatusSelf(b);
    } else {
      var n := |ws| - 1;
      var before, share := RollToChildren(b, first, cost, volume, ws[..n]), SplitShare(cost, volume, ws[n]);
      ToChildrenStatus(b, first, cost, volume, ws[..n]);
      RecordStatus(before, first + n, TransferIn, share);
      if 0 < share {
        StatusChain(b, before, Record(before, first + n, TransferIn, share));
      }
    }
  }

  lemma SplitStatus(b: Book, l: nat, ws: seq<int>)
    requires Split(b, l, ws).Some?
    ensures StatusKeeps(b, Split(b, l, ws).value)
  {
    hide StatusKeeps, TotalCost, RollToChildren, Spawn;
    var volume, first := b.lots[l].volume, |b.lots|;
    var spawned := Spawn(b, b.lots[l].variety, ws);
    SpawnKeepsLots(b, b.lots[l].variety, ws);
    SpawnStatus(b, b.lots[l].variety, ws);
    var shrunk := ShrinkParent(spawned, l, volume, Sum(ws));
    OtherEvent(spawned, shrunk, LotSplit(l, volume, volume - Sum(ws), Sum(ws)));
    StatusChain(b, spawned, shrunk);
    var cost := TotalCost(shrunk.costs, l);
    if 0 < cost && 0 < volume {
      ToChildrenStatus(shrunk, first, cost, volume, ws);
      StatusChain(b, shrunk, Split(b, l, ws).value);
    }
  }

  lemma {:induction false} DeductStatus(b: Book, cs: seq<Component>)
    requires DeductAll(b, cs).Some?
    ensures StatusKeeps(b, DeductAll(b, cs).value)
  {
    hide StatusKeeps, Adjust;
    if cs == [] {
      StatusSelf(b);
    } else {
      var front, c := DeductAll(b, cs[..|cs| - 1]).value, cs[|cs| - 1];
      DeductStatus(b, cs[..|cs| - 1]);
      AdjustStatus(front, c.source, -c.volume);
      StatusChain(b, front, DeductAll(b, cs).value);
    }
  }

  lemma {:induction false} ToBlendStatus(b: Book, into: nat, cs: seq<Component>)
    ensures StatusKeeps(b, RollToBlend(b, into, cs))
  {
    hide StatusKeeps, RolledShare;
    if cs == [] {
      StatusSelf(b);
    } else {
      var before := RollToBlend(b, into, cs[..|cs| - 1]);
      ToBlendStatus(b, into, cs[..|cs| - 1]);
      var share := RolledShare(before, cs[|cs| - 1]);
      if 0 < share {
        RecordStatus(before, into, TransferIn, share);
        StatusChain(b, before, Record(before, into, TransferIn, share));
      }
    }
  }

  lemma FinalizeStatus(b: Book, k: nat)
    requires Finalize(b, k).Some?
    ensures StatusKeeps(b, Finalize(b, k).value)
  {
    hide StatusKeeps, DeductAll, RollToBlend;
    var t, into := b.trials[k], |b.lots|;
    var made := NewLot(b, Lot(BlendName(t), t.total, InProgress));
    NewLotStatus(b, Lot(BlendName(t), t.total, InProgress));
    var deducted := DeductAll(made, t.components).value;
    DeductKeepsRest(made, t.components);
    DeductStatus(made, t.components);
    var told := Logged(deducted.(trials := deducted.trials[k := t.(state := Finalized(into))]),
                       BlendFinalized(into, k, t.total));
    OtherEvent(deducted, told, BlendFinalized(into, k, t.total));
    ToBlendStatus(told, into, t.components);
    StatusChain(b, made, deducted);
    StatusChain(b, deducted, told);
    StatusChain(b, told, Finalize(b, k).value);
  }

  lemma {:induction false} PackagingStatus(b: Book, ps: seq<Packaging>)
    ensures StatusKeeps(b, DeductPackaging(b, ps))
  {
    hide StatusKeeps;
    if ps == [] {
      StatusSelf(b);
    } else {
      var before, p := DeductPackaging(b, ps[..|ps| - 1]), ps[|ps| - 1];
      PackagingStatus(b, ps[..|ps| - 1]);
      if p.linked.Some? && p.linked.value < |before.goods| {
        var held := before.goods[p.linked.value].onHand;
        OtherEvent(before, Deduct1(before, p),
                   DryGoodsDeducted(p.linked.value, 100 * p.quantity, held, held - 100 * p.quantity));
        StatusChain(b, before, Deduct1(before, p));
      }
    }
  }

  /** The run is open, completing it empties its lot, and the lot is not in progress. */
  predicate Misquotes(b: Book, k: nat) {
    && k < |b.runs| && !b.runs[k].completed && b.runs[k].perCase != 0
    && b.runs[k].lot < |b.lots| && b.lots[b.runs[k].lot].volume == b.runs[k].volume
    && b.lots[b.runs[k].lot].status != InProgress
  }

  /** The event of an emptied lot quotes `in_progress` whatever the status was. */
  lemma CompleteStatus(b: Book, k: nat)
    requires Complete(b, k).Some? && StatusInStep(b)
    ensures StatusInStep(Complete(b, k).value)
    ensures HonestLog(Complete(b, k).value.log) <==> HonestLog(b.log) && !Misquotes(b, k)
  {
    hide DeductPackaging, CogsOf, Priced, IntDiv, HonestLog, SaidStatus;
    var r := b.runs[k];
    var drawn := Adjust(b, r.lot, -r.volume).value;
    AdjustStatus(b, r.lot, -r.volume);
    var cases, left := IntDiv(r.bottles, r.perCase), drawn.lots[r.lot].volume;
    var done := drawn.(runs := b.runs[k := r.(completed := true, cases := cases)]);
    var marked := MarkBottled(done, r.lot);
    OneEvent(done.log, StatusChanged(r.lot, InProgress, Bottled));
    var e := BottlingCompleted(r.lot, k, r.volume, b.lots[r.lot].volume, left, cases);
    OtherEvent(marked, Logged(marked, e), e);
    var packed := DeductPackaging(Logged(marked, e), r.packaging);
    PackagingStatus(Logged(marked, e), r.packaging);
    var c := Complete(b, k).value;
    OtherEvent(packed, c, c.log[|c.log| - 1]);
  }

  /** What follows the closing of a run says nothing about statuses. */
  lemma CompleteTells(b: Book, k: nat)
    requires Complete(b, k).Some?
    ensures HonestLog(Complete(b, k).value.log) <==> HonestLog(CloseRun(b, k).value.log)
  {
    hide CogsOf, Priced, HonestLog, CloseRun, Deduct1;
    var closed, r := CloseRun(b, k).value, b.runs[k];
    var packed, c := DeductPackaging(closed, r.packaging), Complete(b, k).value;
    PackagingHonest(closed, r.packaging);
    OneEvent(packed.log, c.log[|c.log| - 1]);
    assert c.log == packed.log + [c.log[|c.log| - 1]];
  }

  lemma {:induction false} PackagingHonest(b: Book, ps: seq<Packaging>)
    ensures HonestLog(DeductPackaging(b, ps).log) <==> HonestLog(b.log)
  {
    hide HonestLog;
    if ps != [] {
      var before, p := DeductPackaging(b, ps[..|ps| - 1]), ps[|ps| - 1];
      PackagingHonest(b, ps[..|ps| - 1]);
      if p.linked.Some? && p.linked.value < |before.goods| {
        var held := before.goods[p.linked.value].onHand;
        OneEvent(before.log, DryGoodsDeducted(p.linked.value, 100 * p.quantity, held, held - 100 * p.quantity));
      }
    }
  }

  /** An aging lot of 100 units, bottled to the last: the log then says that it was
      in progress before. */
  lemma AgingLotMisquoted()
    ensures var b := Book([Lot("Merlot", 100, Aging)], [], [Run(0, 100, 12, 12, [], 1, false)], [], [], [],
                          [LotCreated(0, 100, Aging)]);
            && StatusInStep(b) && HonestLog(b.log) && CloseRun(b, 0).Some?
            && !HonestLog(CloseRun(b, 0).value.log)
  {
    hide CogsOf, IntDiv, Priced;
    var e := LotCreated(0, 100, Aging);
    var b := Book([Lot("Merlot", 100, Aging)], [], [Run(0, 100, 12, 12, [], 1, false)], [], [], [], [e]);
    OneEvent([], e);
    assert [] + [e] == [e];
    assert StatusInStep(b) && HonestLog(b.log) && Misquotes(b, 0);
    hide HonestLog, SaidStatus, MarkBottled, Logged;
    assert CloseRun(b, 0).Some?;
    hide *;
    Completes(b, 0);
    CompleteStatus(b, 0);
    CompleteTells(b, 0);
  }

  lemma Completes(b: Book, k: nat)
    requires CloseRun(b, k).Some?
    ensures Complete(b, k).Some?
  {
    hide CloseRun, CogsOf, Priced, DeductPackaging;
  }

  lemma StepStatus(b: Book, op: Op)
    requires StatusInStep(b)
    ensures StatusInStep(Apply(b, op))
    ensures HonestLog(Apply(b, op).log) <==> HonestLog(b.log) && !(op.CompleteOp? && Misquotes(b, op.k))
  {
    hide StatusInStep, HonestLog;
    var r := Attempt(b, op);
    if r.Some? {
      match op
      case CreateLotOp(lot) => NewLotStatus(b, lot);
      case AdjustOp(l, delta) => AdjustStatus(b, l, delta);
      case UpdateOp(l, v, s) => UpdateStatus(b, l, v, s);
      case CostOp(l, ty, amount) => RecordStatus(b, l, ty, amount);
      case SplitOp(l, ws) => SplitStatus(b, l, ws);
      case TrialOp(_) => RowsOnlyStatus(b, r.value);
      case FinalizeOp(k) => FinalizeStatus(b, k);
      case RunOp(_, _, _, _, _) => RowsOnlyStatus(b, r.value);
      case CompleteOp(k) => CompleteStatus(b, k);
    }
  }

  lemma RowsOnlyStatus(b: Book, c: Book)
    requires c.lots == b.lots && c.log == b.log
    ensures StatusKeeps(b, c)
  {
  }

  /** Over every run the statuses are those the events say; and the log quotes the
      old status truly exactly when no run emptied a lot that was not in progress. */
  lemma {:induction false} RunStatus(b: Book, ops: seq<Op>)
    requires StatusInStep(b)
    ensures StatusInStep(RunAll(b, ops))
    ensures HonestLog(RunAll(b, ops).log) <==>
              HonestLog(b.log) &&
              forall i | 0 <= i < |ops| && ops[i].CompleteOp? :: !Misquotes(RunAll(b, ops[..i]), ops[i].k)
  {
    hide StatusInStep, HonestLog, Misquotes, Apply;
    if ops != [] {
      var n := |ops| - 1;
      RunStatus(b, ops[..n]);
      StepStatus(RunAll(b, ops[..n]), ops[n]);
      assert forall i | 0 <= i < n :: ops[..n][i] == ops[i] && ops[..n][..i] == ops[..i];
      forall i | 0 <= i < |ops| && ops[i].CompleteOp?
        ensures Misquotes(RunAll(b, ops[..i]), ops[i].k) <==>
                  if i < n then Misquotes(RunAll(b, ops[..n][..i]), ops[..n][i].k)
                  else Misquotes(RunAll(b, ops[..n]), ops[n].k)
      {
      }
    }
  }
}
