/** The events the fill operations write, and their replay: the fills are derived
    state, the event log is what they derive from. */
module FillEvents {
  import opened Sums
  import opened VesselFills
  import opened FillLaws

  datatype Event =
    | BarrelFilled(lot: LotId, vessel: VesselId, volume: int)
    | BarrelTopped(lot: LotId, vessel: VesselId, source: VesselId, volume: int)
    | BarrelRacked(lot: LotId, vessel: VesselId, target: VesselId, volume: int)
    | BarrelSampled(lot: LotId, vessel: VesselId, ml: real)
    | TransferExecuted(lot: LotId, from: VesselId, to: VesselId, volume: int, variance: int)

  function FilledEvents(l: LotId, pours: seq<Pour>): seq<Event> {
    seq(|pours|, i requires 0 <= i < |pours| => BarrelFilled(l, pours[i].vessel, pours[i].volume))
  }

  function ToppedEvents(source: VesselId, l: LotId, pours: seq<Pour>): seq<Event> {
    seq(|pours|, i requires 0 <= i < |pours| => BarrelTopped(l, pours[i].vessel, source, pours[i].volume))
  }

  function RackedEvents(target: VesselId, l: LotId, pours: seq<Pour>): seq<Event> {
    seq(|pours|, i requires 0 <= i < |pours| => BarrelRacked(l, pours[i].vessel, target, pours[i].volume))
  }

  lemma FilledStep(l: LotId, pours: seq<Pour>, p: Pour)
    ensures (pours + [p])[..|pours|] == pours
    ensures FilledEvents(l, pours + [p]) == FilledEvents(l, pours) + [BarrelFilled(l, p.vessel, p.volume)]
  {
  }

  lemma ToppedStep(source: VesselId, l: LotId, pours: seq<Pour>, p: Pour)
    ensures (pours + [p])[..|pours|] == pours
    ensures ToppedEvents(source, l, pours + [p]) ==
              ToppedEvents(source, l, pours) + [BarrelTopped(l, p.vessel, source, p.volume)]
  {
  }

  lemma RackedStep(target: VesselId, l: LotId, pours: seq<Pour>, p: Pour)
    ensures (pours + [p])[..|pours|] == pours
    ensures RackedEvents(target, l, pours + [p]) ==
              RackedEvents(target, l, pours) + [BarrelRacked(l, p.vessel, target, p.volume)]
  {
  }

  /** The events of an operation that was carried out. */
  function EventsOf(op: Op): seq<Event> {
    match op
    case TransferOp(from, to, lot, requested, variance) => [TransferExecuted(lot, from, to, requested, variance)]
    case FillOp(lot, pours) => FilledEvents(lot, pours)
    case TopOp(source, lot, pours) => ToppedEvents(source, lot, pours)
    case RackOp(target, lot, pours) => RackedEvents(target, lot, pours)
    case SampleOp(vessel, lot, ml) => [BarrelSampled(lot, vessel, ml)]
    case StatusOp(_, _) => []
  }

  function Logged(t: Table, op: Op): seq<Event> {
    if Attempt(t, op).Done? then EventsOf(op) else []
  }

  function LogOf(t: Table, ops: seq<Op>): seq<Event> {
    if ops == [] then []
    else LogOf(t, ops[..|ops| - 1]) + Logged(Run(t, ops[..|ops| - 1]), ops[|ops| - 1])
  }

  // ---------- Replay ----------

  type Levels = map<(VesselId, LotId), int>

  function At(m: Levels, v: VesselId, l: LotId): int {
    if (v, l) in m then m[(v, l)] else 0
  }

  function Raise(m: Levels, v: VesselId, l: LotId, amount: int): Levels {
    m[(v, l) := At(m, v, l) + amount]
  }

  function Lower(m: Levels, v: VesselId, l: LotId, amount: int): Levels {
    m[(v, l) := Max0(At(m, v, l) - amount)]
  }

  function Replay1(m: Levels, e: Event): Levels {
    match e
    case BarrelFilled(l, v, volume) => Raise(m, v, l, volume)
    case BarrelTopped(l, v, source, volume) => Raise(Lower(m, source, l, volume), v, l, volume)
    case BarrelRacked(l, v, target, volume) => Raise(Lower(m, v, l, volume), target, l, volume)
    case BarrelSampled(l, v, ml) => m[(v, l) := SampledLevel(At(m, v, l), ml)]
    case TransferExecuted(l, from, to, volume, variance) =>
      Raise(Lower(m, from, l, volume), to, l, volume - variance)
  }

  function Replay(m: Levels, log: seq<Event>): Levels {
    if log == [] then m else Replay1(Replay(m, log[..|log| - 1]), log[|log| - 1])
  }

  ghost predicate Shows(m: Levels, rows: seq<Row>) {
    forall v, l :: At(m, v, l) == Level(rows, v, l)
  }

  lemma {:induction false} ReplayConcat(m: Levels, a: seq<Event>, b: seq<Event>)
    ensures Replay(m, a + b) == Replay(Replay(m, a), b)
  {
    if b == [] {
      assert a + b == a;
    } else {
      var front := b[..|b| - 1];
      assert (a + b)[..|a + b| - 1] == a + front;
      ReplayConcat(m, a, front);
    }
  }

  lemma {:induction false} ReplayFilled(m: Levels, l: LotId, pours: seq<Pour>)
    ensures forall v, l' :: At(Replay(m, FilledEvents(l, pours)), v, l') ==
              At(m, v, l') + (if l' == l then SumBy(Into(v), pours) else 0)
  {
    var log := FilledEvents(l, pours);
    if pours != [] {
      var front := pours[..|pours| - 1];
      assert log[..|log| - 1] == FilledEvents(l, front);
      ReplayFilled(m, l, front);
    }
  }

  function Max(x: int, y: int): int { if x < y then y else x }

  /** The source's level while the topping events are replayed: each lowers the
      source, and raises it again where the barrel is the source itself. */
  function ToppedLevel(x: int, source: VesselId, pours: seq<Pour>): int {
    if pours == [] then x
    else
      var before, p := ToppedLevel(x, source, pours[..|pours| - 1]), pours[|pours| - 1];
      if p.vessel == source then Max(before, p.volume) else Max0(before - p.volume)
  }

  /** The target's level while the racking events are replayed. */
  function RackedLevel(x: int, target: VesselId, pours: seq<Pour>): int {
    if pours == [] then x
    else
      var before, p := RackedLevel(x, target, pours[..|pours| - 1]), pours[|pours| - 1];
      if p.vessel == target then Max(before, p.volume) else before + p.volume
  }

  lemma {:induction false} ReplayTopped(m: Levels, source: VesselId, l: LotId, pours: seq<Pour>)
    ensures forall v, l' :: At(Replay(m, ToppedEvents(source, l, pours)), v, l') ==
              if l' != l then At(m, v, l')
              else if v == source then ToppedLevel(At(m, v, l), source, pours)
              else At(m, v, l) + SumBy(Into(v), pours)
  {
    var log := ToppedEvents(source, l, pours);
    if pours != [] {
      var front := pours[..|pours| - 1];
      assert log[..|log| - 1] == ToppedEvents(source, l, front);
      ReplayTopped(m, source, l, front);
    }
  }

  lemma {:induction false} ReplayRacked(m: Levels, target: VesselId, l: LotId, pours: seq<Pour>)
    requires Positive(pours)
    ensures forall v, l' :: At(Replay(m, RackedEvents(target, l, pours)), v, l') ==
              if l' != l then At(m, v, l')
              else if v == target then RackedLevel(At(m, v, l), target, pours)
              else Drained(At(m, v, l), SumBy(Into(v), pours))
  {
    var log := RackedEvents(target, l, pours);
    if pours != [] {
      var front := pours[..|pours| - 1];
      assert log[..|log| - 1] == RackedEvents(target, l, front);
      ReplayRacked(m, target, l, front);
      TotalNotNegative(front);
    }
  }

  /** How much of the list goes into vessels other than `v`. */
  function Around(v: VesselId, pours: seq<Pour>): int {
    Total(pours) - SumBy(Into(v), pours)
  }

  lemma {:induction false} PouredBounds(v: VesselId, pours: seq<Pour>)
    requires Positive(pours)
    ensures 0 <= SumBy(Into(v), pours) && 0 <= Around(v, pours)
    ensures pours != [] ==> 0 < SumBy(Into(v), pours) + Around(v, pours)
    ensures pours != [] && pours[0].vessel == v ==> pours[0].volume <= SumBy(Into(v), pours)
  {
    if pours != [] {
      PouredBounds(v, pours[..|pours| - 1]);
    }
  }

  /** Nothing is clamped at the target when the list racks nothing from it or no more
      than it holds, or when all of that is the first entry. */
  predicate RackReplays(x: int, target: VesselId, pours: seq<Pour>) {
    var own := SumBy(Into(target), pours);
    own == 0 || own <= x || (pours != [] && pours[0].vessel == target && own == pours[0].volume)
  }

  /** The replay clamps entry by entry where the service clamps the whole, so it
      never shows more than the table, and shows the same exactly then. */
  lemma {:induction false} RackedLevelExact(x: int, target: VesselId, pours: seq<Pour>)
    requires Positive(pours)
    ensures var own := SumBy(Into(target), pours);
            && RackedLevel(x, target, pours) <= Drained(x, own) + Total(pours)
            && x + Around(target, pours) <= RackedLevel(x, target, pours)
            && (RackedLevel(x, target, pours) == Drained(x, own) + Total(pours) <==> RackReplays(x, target, pours))
  {
    if pours != [] {
      var front, p := pours[..|pours| - 1], pours[|pours| - 1];
      RackedLevelExact(x, target, front);
      PouredBounds(target, front);
      if front != [] {
        assert front[0] == pours[0];
      }
    }
  }

  /** The list takes no more from the source than it has, or nothing goes back into
      it, or all that goes back is the last entry. */
  predicate TopReplays(x: int, source: VesselId, pours: seq<Pour>) {
    var own := SumBy(Into(source), pours);
    if pours == [] then 0 <= x
    else Total(pours) <= x || own == 0 || (pours[|pours| - 1].vessel == source && own == pours[|pours| - 1].volume)
  }

  lemma {:induction false} ToppedLevelExact(x: int, source: VesselId, pours: seq<Pour>)
    requires Positive(pours)
    ensures var own := SumBy(Into(source), pours);
            && ToppedLevel(x, source, pours) <= Max0(x - Total(pours)) + own
            && (ToppedLevel(x, source, pours) == Max0(x - Total(pours)) + own <==> TopReplays(x, source, pours))
            && (Total(pours) <= x ==> ToppedLevel(x, source, pours) == x - Around(source, pours))
  {
    if pours != [] {
      var front := pours[..|pours| - 1];
      ToppedLevelExact(x, source, front);
      PouredBounds(source, front);
    }
  }

  /** The operation is one whose events replay to the fills it leaves. The events
      of a bulk move are one per entry; they part from the service only where the
      source or target is also one of the barrels and something is clamped there. */
  predicate Replays(t: Table, op: Op) {
    match op
    case TopOp(source, lot, pours) => TopReplays(Level(t.rows, source, lot), source, pours)
    case RackOp(target, lot, pours) => RackReplays(Level(t.rows, target, lot), target, pours)
    case _ => true
  }

  /** A list without the shared vessel always replays. */
  lemma UnsharedReplays(t: Table, op: Op)
    requires op.TopOp? && op.pours == [] ==> 0 <= Level(t.rows, op.source, op.lot)
    requires op.TopOp? ==> forall i | 0 <= i < |op.pours| :: op.pours[i].vessel != op.source
    requires op.RackOp? ==> forall i | 0 <= i < |op.pours| :: op.pours[i].vessel != op.target
    ensures Replays(t, op)
  {
    if op.TopOp? {
      SumBounds(Into(op.source), op.pours, 0, 0);
    }
    if op.RackOp? {
      SumBounds(Into(op.target), op.pours, 0, 0);
    }
  }

  lemma TopReplay(m: Levels, t: Table, source: VesselId, l: LotId, pours: seq<Pour>)
    requires Unique(t.rows) && Shows(m, t.rows) && Positive(pours) && Top(t, source, l, pours).Done?
    ensures Shows(Replay(m, ToppedEvents(source, l, pours)), Top(t, source, l, pours).table.rows) <==>
              TopReplays(Level(t.rows, source, l), source, pours)
  {
    hide Level, Unique, Top, SumBy, TopReplays, ToppedLevel;
    var x := Level(t.rows, source, l);
    assert At(m, source, l) == x;
    TopAccounting(t, source, l, pours);
    ReplayTopped(m, source, l, pours);
    ToppedLevelExact(x, source, pours);
    assert At(Replay(m, ToppedEvents(source, l, pours)), source, l) == ToppedLevel(x, source, pours);
  }

  lemma RackReplay(m: Levels, t: Table, target: VesselId, l: LotId, pours: seq<Pour>)
    requires Unique(t.rows) && Shows(m, t.rows) && Positive(pours) && Rack(t, target, l, pours).Done?
    ensures Shows(Replay(m, RackedEvents(target, l, pours)), Rack(t, target, l, pours).table.rows) <==>
              RackReplays(Level(t.rows, target, l), target, pours)
  {
    hide Level, Unique, Rack, SumBy, RackReplays, RackedLevel, Drained;
    var x := Level(t.rows, target, l);
    assert At(m, target, l) == x;
    forall v, l' { RackLevels(t, target, l, pours, v, l'); }
    ReplayRacked(m, target, l, pours);
    RackedLevelExact(x, target, pours);
    assert At(Replay(m, RackedEvents(target, l, pours)), target, l) == RackedLevel(x, target, pours);
  }

  /** Replaying the events of one operation gives the fills it leaves exactly when
      the operation was rejected or replays. */
  lemma ReplayStep(m: Levels, t: Table, op: Op)
    requires Unique(t.rows) && Requested(op) && Shows(m, t.rows)
    ensures Shows(Replay(m, Logged(t, op)), Apply(t, op).rows) <==> (Attempt(t, op).Done? ==> Replays(t, op))
  {
    hide Level, LotTotal, Unique, FillAll, DrainAll, Decrease, Increase, Settle, CurrentVolume, SumBy,
         TopReplays, RackReplays, Top, Rack;
    if Attempt(t, op).Done? {
      match op
      case TransferOp(from, to, lot, requested, variance) =>
        TransferAccounting(t, from, to, lot, requested, variance);
        ReplayOne(m, TransferExecuted(lot, from, to, requested, variance));
      case FillOp(lot, pours) =>
        FillAllEffect(t, lot, pours);
        ReplayFilled(m, lot, pours);
      case TopOp(source, lot, pours) => TopReplay(m, t, source, lot, pours);
      case RackOp(target, lot, pours) => RackReplay(m, t, target, lot, pours);
      case SampleOp(vessel, lot, ml) =>
        SampleEffect(t, vessel, lot, ml);
        ReplayOne(m, BarrelSampled(lot, vessel, ml));
      case StatusOp(_, _) =>
    }
  }

  /** Vessel 0 holds 10 units, vessel 1 none; 10 of each are racked into vessel 1 in
      this order: the service stores 20 units, the events replay to 10. */
  lemma SharedRackMisreplayed()
    ensures var t := Table([Row(1, 0, 10, true)], map[0 := InUse, 1 := Empty]);
            var m: Levels, pours := map[(0, 1) := 10], [Pour(0, 10), Pour(1, 10)];
            && Inv(t) && Shows(m, t.rows) && Rack(t, 1, 1, pours).Done? && !TargetDrainedDry(t, 1, 1, pours)
            && Level(Rack(t, 1, 1, pours).table.rows, 1, 1) == 20
            && At(Replay(m, RackedEvents(1, 1, pours)), 1, 1) == 10
  {
    var t := Table([Row(1, 0, 10, true)], map[0 := InUse, 1 := Empty]);
    var m: Levels, pours := map[(0, 1) := 10], [Pour(0, 10), Pour(1, 10)];
    assert Inv(t) by {
      assert Occupied(t.rows, 0) by { assert t.rows[0].open; }
    }
    forall v, l ensures Level(t.rows, v, l) == At(m, v, l) { LevelIsRow(t.rows, v, l); }
    SumOfTwo(Into(1), pours[0], pours[1]);
    SumOfTwo(Poured, pours[0], pours[1]);
    assert RackedLevel(0, 1, pours) == 10 by {
      assert pours[..1] == [Pour(0, 10)] && pours[..1][..0] == [];
      assert RackedLevel(0, 1, pours[..1]) == 10;
    }
    hide Level, Inv, Rack, SumBy, RackedLevel, RackedEvents, Replay;
    RackLevels(t, 1, 1, pours, 1, 1);
    ReplayRacked(m, 1, 1, pours);
  }

  /** Lot 1 is topped from vessel 0, which holds lot 2 only, into vessel 0 itself and
      then into vessel 1: the service leaves 10 units in vessel 0, the replay 5. */
  lemma SharedTopMisreplayed()
    ensures var t := Table([Row(2, 0, 100, true)], map[0 := InUse, 1 := Empty]);
            var m: Levels, pours := map[(0, 2) := 100], [Pour(0, 10), Pour(1, 5)];
            && Inv(t) && Shows(m, t.rows) && Top(t, 0, 1, pours).Done?
            && Level(Top(t, 0, 1, pours).table.rows, 0, 1) == 10
            && At(Replay(m, ToppedEvents(0, 1, pours)), 0, 1) == 5
  {
    var t := Table([Row(2, 0, 100, true)], map[0 := InUse, 1 := Empty]);
    var m: Levels, pours := map[(0, 2) := 100], [Pour(0, 10), Pour(1, 5)];
    assert Inv(t) by {
      assert Occupied(t.rows, 0) by { assert t.rows[0].open; }
    }
    forall v, l ensures Level(t.rows, v, l) == At(m, v, l) { LevelIsRow(t.rows, v, l); }
    SumOfTwo(Into(0), pours[0], pours[1]);
    SumOfTwo(Poured, pours[0], pours[1]);
    assert ToppedLevel(0, 0, pours) == 5 by {
      assert pours[..1] == [Pour(0, 10)] && pours[..1][..0] == [];
      assert ToppedLevel(0, 0, pours[..1]) == 10;
    }
    assert CurrentVolume(t.rows, 0) == 100;
    hide Level, Inv, SumBy, ToppedLevel, ToppedEvents, Replay, FillAll, Decrease;
    TopAccounting(t, 0, 1, pours);
    ReplayTopped(m, 0, 1, pours);
  }

  lemma ReplayOne(m: Levels, e: Event)
    ensures Replay(m, [e]) == Replay1(m, e)
  {
    assert [e][..0] == [];
  }

  /** Operation `i` of the run is rejected or replays. */
  predicate StepReplays(t: Table, ops: seq<Op>, i: nat)
    requires i < |ops|
  {
    Attempt(Run(t, ops[..i]), ops[i]).Done? ==> Replays(Run(t, ops[..i]), ops[i])
  }

  /** Every operation of the run that is carried out replays. */
  predicate RunReplays(t: Table, ops: seq<Op>) {
    forall i | 0 <= i < |ops| :: StepReplays(t, ops, i)
  }

  /** The log of the first `n` operations replays to the fills after them. */
  ghost predicate ReplaysAt(m: Levels, t: Table, ops: seq<Op>, n: nat)
    requires n <= |ops|
  {
    Shows(Replay(m, LogOf(t, ops[..n])), Run(t, ops[..n]).rows)
  }

  lemma LogOneMore(m: Levels, t: Table, ops: seq<Op>, n: nat)
    requires n < |ops|
    ensures Run(t, ops[..n + 1]) == Apply(Run(t, ops[..n]), ops[n])
    ensures Replay(m, LogOf(t, ops[..n + 1])) == Replay(Replay(m, LogOf(t, ops[..n])), Logged(Run(t, ops[..n]), ops[n]))
  {
    hide Apply, Logged, Replay;
    assert ops[..n + 1][..n] == ops[..n];
    ReplayConcat(m, LogOf(t, ops[..n]), Logged(Run(t, ops[..n]), ops[n]));
  }

  predicate AllRequested(ops: seq<Op>) {
    forall i | 0 <= i < |ops| :: Requested(ops[i])
  }

  lemma RunUnique(t: Table, ops: seq<Op>)
    requires Unique(t.rows)
    ensures Unique(Run(t, ops).rows)
  {
    RunCarries(t, ops);
  }

  /** From a point where the log replays, it replays at the next exactly when the
      operation between them does. */
  lemma ReplayNext(m: Levels, t: Table, ops: seq<Op>, n: nat)
    requires Unique(t.rows) && n < |ops| && Requested(ops[n]) && ReplaysAt(m, t, ops, n)
    ensures ReplaysAt(m, t, ops, n + 1) <==> StepReplays(t, ops, n)
  {
    hide Unique, Requested, Shows, Replay, Run, LogOf, Logged, Apply, Attempt, Replays;
    RunUnique(t, ops[..n]);
    LogOneMore(m, t, ops, n);
    ReplayStep(Replay(m, LogOf(t, ops[..n])), Run(t, ops[..n]), ops[n]);
  }

  lemma {:induction false} ReplayUpTo(m: Levels, t: Table, ops: seq<Op>, n: nat)
    requires Unique(t.rows) && n <= |ops| && ReplaysAt(m, t, ops, 0)
    requires forall i | 0 <= i < n :: Requested(ops[i])
    ensures (forall k | 0 <= k <= n :: ReplaysAt(m, t, ops, k)) <==> (forall i | 0 <= i < n :: StepReplays(t, ops, i))
  {
    hide *;
    if 0 < n {
      ReplayUpTo(m, t, ops, n - 1);
      if ReplaysAt(m, t, ops, n - 1) {
        ReplayNext(m, t, ops, n - 1);
      }
    }
  }

  /** Replaying the log of a run gives, at every point of the run, the fills stored
      at that point, exactly when every operation of the run replays: whatever the
      variances, racked targets, samples and statuses set by hand. */
  lemma ReplayRun(m: Levels, t: Table, ops: seq<Op>)
    requires Unique(t.rows) && AllRequested(ops) && Shows(m, t.rows)
    ensures (forall n | 0 <= n <= |ops| :: ReplaysAt(m, t, ops, n)) <==> RunReplays(t, ops)
  {
    hide Unique, Requested, Shows, StepReplays;
    assert ReplaysAt(m, t, ops, 0) by { assert ops[..0] == []; }
    ReplayUpTo(m, t, ops, |ops|);
  }

  lemma SoundIsRequested(t: Table, ops: seq<Op>)
    requires SoundRun(t, ops)
    ensures AllRequested(ops)
  {
    forall i | 0 <= i < |ops| ensures Requested(ops[i]) {
      assert Sound(Run(t, ops[..i]), ops[i]);
    }
  }

  /** What replays also shows which rows are open. */
  lemma ReplayShowsOpen(m: Levels, t: Table, ops: seq<Op>)
    requires Inv(t) && SoundRun(t, ops) && Shows(m, t.rows) && RunReplays(t, ops)
    ensures forall v, l :: FindOpen(Run(t, ops).rows, v, l) < |Run(t, ops).rows| <==>
              0 < At(Replay(m, LogOf(t, ops)), v, l)
  {
    InvParts(t);
    SoundIsRequested(t, ops);
    ReplayRun(m, t, ops);
    RunKeepsInv(t, ops);
    assert ops[..|ops|] == ops;
    assert ReplaysAt(m, t, ops, |ops|);
    forall v, l { OpenIffLevel(Run(t, ops), v, l); }
  }
}
