/** The laws of the lot book: lot volumes and the cost ledger are what the event
    log says, wine is neither made nor lost, volumes never go below zero. */
module LotLaws {
  import opened Sums
  import opened Options
  import opened CostLedger
  import opened CostAllocation
  import opened VarietalLabel
  import opened LotBook

  // ---------- What the log says ----------

  /** How an event changes the volume of lot `l`. */
  function VolumeChange(l: nat): Event -> int {
    (e: Event) =>
      match e
      case LotCreated(m, volume, _) => if m == l then volume else 0
      case VolumeAdjusted(m, _, _, delta) => if m == l then delta else 0
      case LotSplit(m, _, _, total) => if m == l then -total else 0
      case _ => 0
  }

  function Replayed(log: seq<Event>, l: nat): int {
    SumBy(VolumeChange(l), log)
  }

  function LedgerOf(log: seq<Event>): seq<CostEntry> {
    if log == [] then []
    else
      var e := log[|log| - 1];
      LedgerOf(log[..|log| - 1]) + (if e.CostEntryCreated? then [e.entry] else [])
  }

  /** The volumes an event quotes are those its lot has, given the volumes `at`. */
  predicate Quotes(at: nat -> int, e: Event) {
    match e
    case LotCreated(m, _, _) => at(m) == 0
    case VolumeAdjusted(m, before, after, delta) => before == at(m) && after == before + delta
    case LotSplit(m, before, after, total) => before == at(m) && after == before - total
    case BottlingCompleted(m, _, bottled, before, after, _) => after == at(m) && before == after + bottled
    case _ => true
  }

  function ReplayAt(log: seq<Event>): nat -> int {
    (l: nat) => Replayed(log, l)
  }

  /** Every event quotes the volumes that replaying the log up to it gives. */
  predicate Truthful(log: seq<Event>) {
    log == [] || (Truthful(log[..|log| - 1]) && Quotes(ReplayAt(log[..|log| - 1]), log[|log| - 1]))
  }

  function VolumeAt(b: Book): nat -> int {
    (l: nat) => if l < |b.lots| then b.lots[l].volume else 0
  }

  function Gap(b: Book, l: nat): int {
    VolumeAt(b)(l) - Replayed(b.log, l)
  }

  /** The stored state is the one the log replays to. */
  ghost predicate InStep(b: Book) {
    (forall l: nat :: Gap(b, l) == 0) && Truthful(b.log) && LedgerOf(b.log) == b.costs
  }

  function LotVolume(lot: Lot): int { lot.volume }

  /** All the wine in the cellar. */
  function Cellar(b: Book): int { SumBy(LotVolume, b.lots) }

  // ---------- One event ----------

  /** `c` is `b` after one event that says what happened to volumes and costs. */
  ghost predicate Follows(b: Book, c: Book, e: Event) {
    && c.log == b.log + [e]
    && (forall l: nat :: VolumeAt(c)(l) == VolumeAt(b)(l) + VolumeChange(l)(e))
    && c.costs == b.costs + (if e.CostEntryCreated? then [e.entry] else [])
    && Quotes(VolumeAt(b), e)
  }

  ghost predicate Keeps(b: Book, c: Book) {
    (forall l: nat :: Gap(c, l) == Gap(b, l)) && (InStep(b) ==> InStep(c))
  }

  lemma FollowsKeeps(b: Book, c: Book, e: Event)
    requires Follows(b, c, e)
    ensures Keeps(b, c)
  {
    assert c.log[..|b.log|] == b.log;
    forall l: nat ensures Gap(c, l) == Gap(b, l) {
      SumPush(VolumeChange(l), b.log, e);
    }
    if InStep(b) {
      forall l: nat ensures ReplayAt(b.log)(l) == VolumeAt(b)(l) {
        assert Gap(b, l) == 0;
      }
      assert Quotes(ReplayAt(b.log), e);
    }
  }

  lemma NewLotLaw(b: Book, lot: Lot)
    ensures Keeps(b, NewLot(b, lot)) && Cellar(NewLot(b, lot)) == Cellar(b) + lot.volume
  {
    FollowsKeeps(b, NewLot(b, lot), LotCreated(|b.lots|, lot.volume, lot.status));
    SumPush(LotVolume, b.lots, lot);
  }

  lemma AdjustLaw(b: Book, l: nat, delta: int)
    requires Adjust(b, l, delta).Some?
    ensures var c := Adjust(b, l, delta).value;
            Keeps(b, c) && Cellar(c) == Cellar(b) + delta && 0 <= c.lots[l].volume
  {
    var c, before := Adjust(b, l, delta).value, b.lots[l].volume;
    FollowsKeeps(b, c, VolumeAdjusted(l, before, before + delta, delta));
    SumUpdate(LotVolume, b.lots, l, c.lots[l]);
  }

  lemma RecordLaw(b: Book, l: nat, ty: CostType, amount: int)
    ensures Keeps(b, Record(b, l, ty, amount)) && Cellar(Record(b, l, ty, amount)) == Cellar(b)
  {
    FollowsKeeps(b, Record(b, l, ty, amount), CostEntryCreated(CostEntry(l, ty, amount)));
  }

  lemma ShrinkLaw(b: Book, l: nat, total: int)
    requires l < |b.lots|
    ensures var c := ShrinkParent(b, l, b.lots[l].volume, total);
            Keeps(b, c) && Cellar(c) == Cellar(b) - total
  {
    var before := b.lots[l].volume;
    var c := ShrinkParent(b, l, before, total);
    FollowsKeeps(b, c, LotSplit(l, before, before - total, total));
    SumUpdate(LotVolume, b.lots, l, c.lots[l]);
  }

  /** An event that leaves volumes and costs alone. */
  lemma QuietLaw(b: Book, c: Book, e: Event)
    requires c.log == b.log + [e] && c.costs == b.costs && |c.lots| == |b.lots|
    requires forall i | 0 <= i < |b.lots| :: c.lots[i].volume == b.lots[i].volume
    requires e.StatusChanged? || e.BlendFinalized? || e.BottlingCompleted? || e.DryGoodsDeducted? || e.CogsCalculated?
    requires Quotes(VolumeAt(b), e)
    ensures Keeps(b, c) && Cellar(c) == Cellar(b)
  {
    FollowsKeeps(b, c, e);
    SameVolumes(b.lots, c.lots);
  }

  lemma {:induction false} SameVolumes(a: seq<Lot>, b: seq<Lot>)
    requires |a| == |b| && forall i | 0 <= i < |a| :: a[i].volume == b[i].volume
    ensures SumBy(LotVolume, a) == SumBy(LotVolume, b)
  {
    if a != [] {
      SameVolumes(a[..|a| - 1], b[..|b| - 1]);
    }
  }

  // ---------- Splits ----------

  lemma {:induction false} SpawnLaw(b: Book, variety: Variety, ws: seq<int>)
    ensures Keeps(b, Spawn(b, variety, ws)) && Cellar(Spawn(b, variety, ws)) == Cellar(b) + Sum(ws)
  {
    if ws != [] {
      var front := ws[..|ws| - 1];
      SpawnLaw(b, variety, front);
      NewLotLaw(Spawn(b, variety, front), Lot(variety, ws[|ws| - 1], InProgress));
      KeepsChain(b, Spawn(b, variety, front), Spawn(b, variety, ws));
    } else {
      KeepsSelf(b);
    }
  }

  lemma KeepsSelf(b: Book)
    ensures Keeps(b, b)
  {
  }

  lemma KeepsChain(a: Book, b: Book, c: Book)
    requires Keeps(a, b) && Keeps(b, c)
    ensures Keeps(a, c)
  {
  }

  lemma {:induction false} RollToChildrenLaw(b: Book, first: nat, cost: int, volume: int, ws: seq<int>)
    requires 0 < volume
    ensures var c := RollToChildren(b, first, cost, volume, ws);
            Keeps(b, c) && c == b.(costs := c.costs, log := c.log)
  {
    if ws == [] {
      KeepsSelf(b);
    } else {
      hide Keeps, SplitShare;
      var n := |ws| - 1;
      RollToChildrenLaw(b, first, cost, volume, ws[..n]);
      var before, share := RollToChildren(b, first, cost, volume, ws[..n]), SplitShare(cost, volume, ws[n]);
      if 0 < share {
        RecordLaw(before, first + n, TransferIn, share);
        KeepsChain(b, before, Record(before, first + n, TransferIn, share));
      }
    }
  }

  /** A split keeps the cellar's wine and the log in step. */
  lemma SplitLaw(b: Book, l: nat, ws: seq<int>)
    requires Split(b, l, ws).Some?
    ensures Keeps(b, Split(b, l, ws).value) && Cellar(Split(b, l, ws).value) == Cellar(b)
  {
    var volume, first, variety := b.lots[l].volume, |b.lots|, b.lots[l].variety;
    var spawned := Spawn(b, variety, ws);
    SpawnKeepsLots(b, variety, ws);
    SpawnLaw(b, variety, ws);
    var shrunk := ShrinkParent(spawned, l, volume, Sum(ws));
    ShrinkLaw(spawned, l, Sum(ws));
    KeepsChain(b, spawned, shrunk);
    var cost := TotalCost(shrunk.costs, l);
    if 0 < cost && 0 < volume {
      RollToChildrenLaw(shrunk, first, cost, volume, ws);
      KeepsChain(b, shrunk, RollToChildren(shrunk, first, cost, volume, ws));
    }
  }

  // ---------- Blends ----------

  function ComponentVolume(c: Component): int { c.volume }

  function Needed(cs: seq<Component>): int { SumBy(ComponentVolume, cs) }

  lemma {:induction false} DeductLaw(b: Book, cs: seq<Component>)
    requires DeductAll(b, cs).Some?
    ensures Keeps(b, DeductAll(b, cs).value) && Cellar(DeductAll(b, cs).value) == Cellar(b) - Needed(cs)
  {
    hide Keeps;
    if cs == [] {
      KeepsSelf(b);
    } else {
      var front, c := cs[..|cs| - 1], cs[|cs| - 1];
      DeductLaw(b, front);
      var before := DeductAll(b, front).value;
      AdjustLaw(before, c.source, -c.volume);
      KeepsChain(b, before, DeductAll(b, cs).value);
    }
  }

  lemma {:induction false} RollToBlendLaw(b: Book, into: nat, cs: seq<Component>)
    ensures var c := RollToBlend(b, into, cs);
            Keeps(b, c) && c == b.(costs := c.costs, log := c.log)
  {
    if cs == [] {
      KeepsSelf(b);
    } else {
      RollToBlendLaw(b, into, cs[..|cs| - 1]);
      var before := RollToBlend(b, into, cs[..|cs| - 1]);
      var share := RolledShare(before, cs[|cs| - 1]);
      if 0 < share {
        RecordLaw(before, into, TransferIn, share);
        KeepsChain(b, before, Record(before, into, TransferIn, share));
      }
    }
  }

  /** The trials are as createTrial made them: known and distinct sources, and a
      total that is the sum of the components. */
  predicate TrialsSound(b: Book) {
    forall k | 0 <= k < |b.trials| ::
      var t := b.trials[k];
      SourcesKnown(b, t.components) && Distinct(t.components) && t.total == Needed(t.components)
  }

  lemma {:induction false} PartsVolume(b: Book, cs: seq<Component>)
    requires SourcesKnown(b, cs)
    ensures BlendVolume(PartsOf(b, cs)) == Needed(cs)
  {
    if cs != [] {
      PartsVolume(b, cs[..|cs| - 1]);
      assert PartsOf(b, cs)[..|cs| - 1] == PartsOf(b, cs[..|cs| - 1]);
    }
  }

  lemma FinalizeLaw(b: Book, k: nat)
    requires Finalize(b, k).Some? && TrialsSound(b)
    ensures Keeps(b, Finalize(b, k).value) && Cellar(Finalize(b, k).value) == Cellar(b)
  {
    var t, into := b.trials[k], |b.lots|;
    var made := NewLot(b, Lot(BlendName(t), t.total, InProgress));
    NewLotLaw(b, Lot(BlendName(t), t.total, InProgress));
    var deducted := DeductAll(made, t.components).value;
    DeductKeepsRest(made, t.components);
    DeductLaw(made, t.components);
    var told := Logged(deducted.(trials := deducted.trials[k := t.(state := Finalized(into))]),
                       BlendFinalized(into, k, t.total));
    QuietLaw(deducted, told, BlendFinalized(into, k, t.total));
    RollToBlendLaw(told, into, t.components);
    KeepsChain(b, made, deducted);
    KeepsChain(b, deducted, told);
    KeepsChain(b, told, Finalize(b, k).value);
  }

  // ---------- Bottling ----------

  lemma {:induction false} PackagingLaw(b: Book, ps: seq<Packaging>)
    ensures var c := DeductPackaging(b, ps);
            Keeps(b, c) && c == b.(goods := c.goods, log := c.log) && |c.goods| == |b.goods|
  {
    if ps == [] {
      KeepsSelf(b);
    } else {
      PackagingLaw(b, ps[..|ps| - 1]);
      var before, p := DeductPackaging(b, ps[..|ps| - 1]), ps[|ps| - 1];
      if p.linked.Some? && p.linked.value < |before.goods| {
        var i := p.linked.value;
        var held := before.goods[i].onHand;
        QuietLaw(before, Deduct1(before, p), DryGoodsDeducted(i, 100 * p.quantity, held, held - 100 * p.quantity));
        KeepsChain(b, before, Deduct1(before, p));
      }
    }
  }

  lemma MarkBottledLaw(b: Book, l: nat)
    requires l < |b.lots|
    ensures Keeps(b, MarkBottled(b, l)) && Cellar(MarkBottled(b, l)) == Cellar(b)
    ensures |MarkBottled(b, l).lots| == |b.lots| && MarkBottled(b, l).lots[l].volume == b.lots[l].volume
    ensures MarkBottled(b, l) == b.(lots := MarkBottled(b, l).lots, log := MarkBottled(b, l).log)
  {
    if b.lots[l].volume <= 0 {
      QuietLaw(b, MarkBottled(b, l), StatusChanged(l, InProgress, Bottled));
    } else {
      KeepsSelf(b);
    }
  }

  lemma CloseRunLaw(b: Book, k: nat)
    requires CloseRun(b, k).Some?
    ensures Keeps(b, CloseRun(b, k).value)
    ensures Cellar(CloseRun(b, k).value) == Cellar(b) - b.runs[k].volume
  {
    hide Keeps, MarkBottled, IntDiv;
    var r := b.runs[k];
    var drawn := Adjust(b, r.lot, -r.volume).value;
    AdjustLaw(b, r.lot, -r.volume);
    var cases, left := IntDiv(r.bottles, r.perCase), drawn.lots[r.lot].volume;
    var done := drawn.(runs := b.runs[k := r.(completed := true, cases := cases)]);
    RowsOnly(drawn, done);
    MarkBottledLaw(done, r.lot);
    var marked := MarkBottled(done, r.lot);
    var e := BottlingCompleted(r.lot, k, r.volume, b.lots[r.lot].volume, left, cases);
    QuietLaw(marked, Logged(marked, e), e);
    KeepsChain(b, drawn, done);
    KeepsChain(b, done, marked);
    KeepsChain(b, marked, Logged(marked, e));
  }

  lemma CompleteLaw(b: Book, k: nat)
    requires Complete(b, k).Some?
    ensures Keeps(b, Complete(b, k).value)
    ensures Cellar(Complete(b, k).value) == Cellar(b) - b.runs[k].volume
  {
    hide Keeps, CloseRun, CogsOf, DeductPackaging, Priced;
    var r, closed := b.runs[k], CloseRun(b, k).value;
    CloseRunLaw(b, k);
    var packed := DeductPackaging(closed, r.packaging);
    PackagingLaw(closed, r.packaging);
    var cogs := CogsOf(packed.costs, r.lot, packed.goods, r.packaging, r.bottles, r.perCase, r.volume);
    var e := CogsCalculated(r.lot, k, cogs);
    var priced := packed.(skus := Priced(packed.skus, r.lot, k, cogs.costPerBottle));
    QuietLaw(packed, Logged(priced, e), e);
    KeepsChain(b, closed, packed);
    KeepsChain(b, packed, Logged(priced, e));
  }

  // ---------- Runs: replay, drift, conservation ----------

  /** The volume an updateLot overwrites without telling the log. */
  function Drift(b: Book, op: Op, l: nat): int {
    if op.UpdateOp? && op.l == l && l < |b.lots| && op.newVolume.Some? then op.newVolume.value - b.lots[l].volume else 0
  }

  function TotalDrift(b: Book, ops: seq<Op>, l: nat): int {
    if ops == [] then 0
    else TotalDrift(b, ops[..|ops| - 1], l) + Drift(RunAll(b, ops[..|ops| - 1]), ops[|ops| - 1], l)
  }

  /** An update takes exactly on a known lot; a field that is given is stored, any other
      stays. */
  lemma UpdateStores(b: Book, l: nat, volume: Option<int>, status: Option<LotStatus>)
    ensures Update(b, l, volume, status).Some? <==> l < |b.lots|
    ensures l < |b.lots| ==>
              var c := Update(b, l, volume, status).value;
              && |c.lots| == |b.lots| && c.costs == b.costs && c.trials == b.trials && c.runs == b.runs
              && (forall m | 0 <= m < |b.lots| && m != l :: c.lots[m] == b.lots[m])
              && (volume.Some? ==> c.lots[l].volume == volume.value)
              && (volume.None? ==> c.lots[l].volume == b.lots[l].volume)
              && (status.Some? ==> c.lots[l].status == status.value)
              && (status.None? ==> c.lots[l].status == b.lots[l].status)
              && c.lots[l].variety == b.lots[l].variety
              && (if c.lots[l].status == b.lots[l].status then c.log == b.log
                  else |c.log| == |b.log| + 1 && c.log[..|b.log|] == b.log)
  {
  }

  lemma UpdateLaw(b: Book, op: Op)
    requires op.UpdateOp? && Attempt(b, op).Some?
    ensures var c := Attempt(b, op).value;
            && (forall l: nat :: Gap(c, l) == Gap(b, l) + Drift(b, op, l))
            && Cellar(c) == Cellar(b) + Drift(b, op, op.l)
            && (Drift(b, op, op.l) == 0 ==> Keeps(b, c))
  {
    var c := Attempt(b, op).value;
    SumUpdate(LotVolume, b.lots, op.l, c.lots[op.l]);
    var was, now := b.lots[op.l], c.lots[op.l];
    if was.status != now.status {
      forall l: nat ensures Replayed(c.log, l) == Replayed(b.log, l) {
        SumPush(VolumeChange(l), b.log, StatusChanged(op.l, was.status, now.status));
      }
      if Drift(b, op, op.l) == 0 {
        QuietLaw(b, c, StatusChanged(op.l, was.status, now.status));
      }
    }
  }

  /** Wine that enters or leaves the cellar in one operation. */
  function Flow(b: Book, op: Op): int {
    if Attempt(b, op).None? then 0
    else
      match op
      case CreateLotOp(lot) => lot.volume
      case AdjustOp(_, delta) => delta
      case UpdateOp(l, _, _) => Drift(b, op, l)
      case CompleteOp(k) => -b.runs[k].volume
      case _ => 0
  }

  function TotalFlow(b: Book, ops: seq<Op>): int {
    if ops == [] then 0
    else TotalFlow(b, ops[..|ops| - 1]) + Flow(RunAll(b, ops[..|ops| - 1]), ops[|ops| - 1])
  }

  lemma StepLaw(b: Book, op: Op)
    requires TrialsSound(b)
    ensures forall l: nat :: Gap(Apply(b, op), l) == Gap(b, l) + Drift(b, op, l)
    ensures Cellar(Apply(b, op)) == Cellar(b) + Flow(b, op)
    ensures (forall l: nat :: Drift(b, op, l) == 0) ==> Keeps(b, Apply(b, op))
  {
    var r := Attempt(b, op);
    if r.None? {
      KeepsSelf(b);
    } else {
      match op
      case CreateLotOp(lot) => NewLotLaw(b, lot);
      case AdjustOp(l, delta) => AdjustLaw(b, l, delta);
      case UpdateOp(_, _, _) => UpdateLaw(b, op);
      case CostOp(l, ty, amount) => RecordLaw(b, l, ty, amount);
      case SplitOp(l, ws) => SplitLaw(b, l, ws);
      case TrialOp(_) => RowsOnly(b, r.value);
      case FinalizeOp(k) => FinalizeLaw(b, k);
      case RunOp(_, _, _, _, _) => RowsOnly(b, r.value);
      case CompleteOp(k) => CompleteLaw(b, k);
    }
  }

  lemma RowsOnly(b: Book, c: Book)
    requires c.lots == b.lots && c.log == b.log && c.costs == b.costs
    ensures Keeps(b, c) && Cellar(c) == Cellar(b)
  {
  }

  // ---------- What every run keeps ----------

  predicate ComponentsNotNegative(cs: seq<Component>) {
    forall i | 0 <= i < |cs| :: 0 <= cs[i].volume
  }

  predicate LotsNotNegative(b: Book) {
    forall l | 0 <= l < |b.lots| :: 0 <= b.lots[l].volume
  }

  predicate CostsBelow(costs: seq<CostEntry>, n: nat) {
    forall i | 0 <= i < |costs| :: costs[i].lot < n
  }

  predicate TrialsNotNegative(b: Book) {
    forall k | 0 <= k < |b.trials| :: ComponentsNotNegative(b.trials[k].components)
  }

  /** Trials as created, volumes not negative, cost entries on existing lots. */
  predicate Sound(b: Book) {
    TrialsSound(b) && LotsNotNegative(b) && TrialsNotNegative(b) && CostsBelow(b.costs, |b.lots|)
  }

  /** The volumes the request validation lets through. */
  predicate Admitted(op: Op) {
    match op
    case CreateLotOp(lot) => 0 <= lot.volume
    case UpdateOp(_, v, _) => v.Some? ==> 0 <= v.value
    case SplitOp(_, ws) => forall i | 0 <= i < |ws| :: 0 <= ws[i]
    case TrialOp(cs) => ComponentsNotNegative(cs)
    case _ => true
  }

  lemma {:induction false} RollToChildrenBelow(b: Book, first: nat, cost: int, volume: int, ws: seq<int>, n: nat)
    requires 0 < volume && CostsBelow(b.costs, n) && first + |ws| <= n
    ensures CostsBelow(RollToChildren(b, first, cost, volume, ws).costs, n)
  {
    if ws != [] {
      RollToChildrenBelow(b, first, cost, volume, ws[..|ws| - 1], n);
    }
  }

  lemma {:induction false} RollToBlendBelow(b: Book, into: nat, cs: seq<Component>, n: nat)
    requires CostsBelow(b.costs, n) && into < n
    ensures CostsBelow(RollToBlend(b, into, cs).costs, n)
  {
    if cs != [] {
      RollToBlendBelow(b, into, cs[..|cs| - 1], n);
    }
  }

  lemma {:induction false} DeductNotNegative(b: Book, cs: seq<Component>)
    requires LotsNotNegative(b) && DeductAll(b, cs).Some?
    ensures LotsNotNegative(DeductAll(b, cs).value)
  {
    if cs != [] {
      DeductNotNegative(b, cs[..|cs| - 1]);
    }
  }

  lemma {:induction false} NeededNotNegative(cs: seq<Component>)
    requires ComponentsNotNegative(cs)
    ensures 0 <= Needed(cs)
  {
    if cs != [] {
      NeededNotNegative(cs[..|cs| - 1]);
    }
  }

  lemma SplitSound(b: Book, l: nat, ws: seq<int>)
    requires Sound(b) && Split(b, l, ws).Some? && forall i | 0 <= i < |ws| :: 0 <= ws[i]
    ensures Sound(Split(b, l, ws).value)
  {
    var volume, first, variety := b.lots[l].volume, |b.lots|, b.lots[l].variety;
    var spawned := Spawn(b, variety, ws);
    SpawnKeepsLots(b, variety, ws);
    var shrunk := ShrinkParent(spawned, l, volume, Sum(ws));
    assert LotsNotNegative(spawned) by {
      forall i | 0 <= i < |spawned.lots| ensures 0 <= spawned.lots[i].volume {
        if first <= i {
          assert spawned.lots[first + (i - first)] == Lot(variety, ws[i - first], InProgress);
        }
      }
    }
    var cost := TotalCost(shrunk.costs, l);
    if 0 < cost && 0 < volume {
      RollToChildrenLaw(shrunk, first, cost, volume, ws);
      RollToChildrenBelow(shrunk, first, cost, volume, ws, |shrunk.lots|);
    }
  }

  lemma FinalizeSound(b: Book, k: nat)
    requires Sound(b) && Finalize(b, k).Some?
    ensures Sound(Finalize(b, k).value)
  {
    hide BlendName, BlendShare, TotalCost, Keeps, DeductAll, RollToBlend, Enough;
    var t, into := b.trials[k], |b.lots|;
    var made := NewLot(b, Lot(BlendName(t), t.total, InProgress));
    NeededNotNegative(t.components);
    var deducted := DeductAll(made, t.components).value;
    DeductKeepsRest(made, t.components);
    DeductNotNegative(made, t.components);
    var told := Logged(deducted.(trials := deducted.trials[k := t.(state := Finalized(into))]),
                       BlendFinalized(into, k, t.total));
    assert Sound(told);
    RollToBlendLaw(told, into, t.components);
    RollToBlendBelow(told, into, t.components, |told.lots|);
  }

  lemma CloseRunSound(b: Book, k: nat)
    requires Sound(b) && CloseRun(b, k).Some?
    ensures Sound(CloseRun(b, k).value)
  {
    hide IntDiv, Keeps;
    var r := b.runs[k];
    var drawn := Adjust(b, r.lot, -r.volume).value;
    var done := drawn.(runs := b.runs[k := r.(completed := true, cases := IntDiv(r.bottles, r.perCase))]);
    assert Sound(done);
    MarkBottledLaw(done, r.lot);
  }

  lemma CompleteSound(b: Book, k: nat)
    requires Sound(b) && Complete(b, k).Some?
    ensures Sound(Complete(b, k).value)
  {
    hide CogsOf, CloseRun, Keeps, DeductPackaging, Priced;
    CloseRunSound(b, k);
    PackagingLaw(CloseRun(b, k).value, b.runs[k].packaging);
  }

  lemma StepSound(b: Book, op: Op)
    requires Sound(b) && Admitted(op)
    ensures Sound(Apply(b, op))
  {
    if Attempt(b, op).Some? {
      match op
      case SplitOp(l, ws) => SplitSound(b, l, ws);
      case FinalizeOp(k) => FinalizeSound(b, k);
      case CompleteOp(k) => CompleteSound(b, k);
      case TrialOp(cs) => PartsVolume(b, cs);
      case _ =>
    }
  }

  predicate AllAdmitted(ops: seq<Op>) {
    forall i | 0 <= i < |ops| :: Admitted(ops[i])
  }

  /** No lot volume is ever negative, and the trials stay as they were created. */
  lemma {:induction false} RunSound(b: Book, ops: seq<Op>)
    requires Sound(b) && AllAdmitted(ops)
    ensures Sound(RunAll(b, ops))
  {
    if ops != [] {
      RunSound(b, ops[..|ops| - 1]);
      StepSound(RunAll(b, ops[..|ops| - 1]), ops[|ops| - 1]);
    }
  }

  /** After any run the stored volume of a lot is what its events replay to plus
      what updateLot overwrote silently; and all the wine is accounted for. */
  lemma {:induction false} RunReplays(b: Book, ops: seq<Op>)
    requires Sound(b) && AllAdmitted(ops)
    ensures forall l: nat :: Gap(RunAll(b, ops), l) == Gap(b, l) + TotalDrift(b, ops, l)
    ensures Cellar(RunAll(b, ops)) == Cellar(b) + TotalFlow(b, ops)
  {
    if ops != [] {
      var front := ops[..|ops| - 1];
      RunReplays(b, front);
      RunSound(b, front);
      StepLaw(RunAll(b, front), ops[|ops| - 1]);
    }
  }

  /** Replay equals state exactly when the silent overwrites cancel out. */
  lemma ReplayEqualsState(b: Book, ops: seq<Op>, l: nat)
    requires Sound(b) && AllAdmitted(ops) && InStep(b)
    ensures VolumeAt(RunAll(b, ops))(l) == Replayed(RunAll(b, ops).log, l) <==> TotalDrift(b, ops, l) == 0
  {
    RunReplays(b, ops);
  }

  /** Without volume overwrites the whole book stays in step with its log: lot
      volumes, the volumes each event quotes, and the cost ledger. */
  lemma {:induction false} RunInStep(b: Book, ops: seq<Op>)
    requires Sound(b) && AllAdmitted(ops) && InStep(b)
    requires forall i | 0 <= i < |ops| && ops[i].UpdateOp? :: ops[i].newVolume.None?
    ensures InStep(RunAll(b, ops))
  {
    if ops != [] {
      var front := ops[..|ops| - 1];
      RunInStep(b, front);
      RunSound(b, front);
      StepLaw(RunAll(b, front), ops[|ops| - 1]);
    }
  }

  /** One updateLot with a volume is enough to part a lot from its events. */
  lemma UpdateHidesVolume()
    ensures var b := NewLot(Book([], [], [], [], [], [], []), Lot("Merlot", 100, InProgress));
            var c := RunAll(b, [UpdateOp(0, Some(40), None)]);
            InStep(b) && VolumeAt(c)(0) == 40 && Replayed(c.log, 0) == 100
  {
    var e, op := Book([], [], [], [], [], [], []), UpdateOp(0, Some(40), None);
    var b := NewLot(e, Lot("Merlot", 100, InProgress));
    assert InStep(e);
    assert Attempt(b, op).Some? && VolumeAt(Attempt(b, op).value)(0) == 40 && Drift(b, op, 0) == -60;
    RunOne(b, op);
    hide Attempt, RunAll, Drift, Replayed, Truthful, LedgerOf, VolumeAt;
    NewLotLaw(e, Lot("Merlot", 100, InProgress));
    UpdateLaw(b, op);
    assert Gap(b, 0) == 0;
  }

  lemma RunOne(b: Book, op: Op)
    ensures RunAll(b, [op]) == Apply(b, op)
  {
    assert [op][..0] == [];
  }
}
