/** Overlapping changes of lot volumes: each writes the volume it read earlier plus
    its own change, without a lock on the lot's row. */
module LotRaces {
  import opened Sums
  import opened LotBook
  import opened LotLaws

  type Tid = nat

  /** The volume of a lot as a request loaded it. */
  datatype Loaded = Loaded(lot: nat, seen: int)

  datatype System = System(volumes: seq<int>, log: seq<Event>, loaded: map<Tid, Loaded>)

  /** What a request does with the lot it loaded: adjustVolume, or the parent's part of
      a split. */
  datatype Change = Adjusting(delta: int) | Splitting(total: int)

  datatype Step =
    | Load(tid: Tid, lot: nat)
    | Save(tid: Tid, change: Change)
    | Drop(tid: Tid)

  function DeltaOf(change: Change): int {
    match change
    case Adjusting(delta) => delta
    case Splitting(total) => -total
  }

  function EventOf(r: Loaded, change: Change): Event {
    match change
    case Adjusting(delta) => VolumeAdjusted(r.lot, r.seen, r.seen + delta, delta)
    case Splitting(total) => LotSplit(r.lot, r.seen, r.seen - total, total)
  }

  predicate Enabled(s: System, step: Step) {
    match step
    case Load(tid, lot) => tid !in s.loaded && lot < |s.volumes|
    case Save(tid, _) => tid in s.loaded && s.loaded[tid].lot < |s.volumes|
    case Drop(tid) => tid in s.loaded
  }

  function Without(loaded: map<Tid, Loaded>, tid: Tid): map<Tid, Loaded> {
    map t | t in loaded && t != tid :: loaded[t]
  }

  /** A save is refused if the loaded volume does not cover it; else the loaded volume
      with the change overwrites the stored one. */
  function Take(s: System, step: Step): System
    requires Enabled(s, step)
  {
    match step
    case Load(tid, lot) => s.(loaded := s.loaded[tid := Loaded(lot, s.volumes[lot])])
    case Save(tid, change) =>
      var r, rest := s.loaded[tid], Without(s.loaded, tid);
      if r.seen + DeltaOf(change) < 0 then s.(loaded := rest)
      else System(s.volumes[r.lot := r.seen + DeltaOf(change)], s.log + [EventOf(r, change)], rest)
    case Drop(tid) => s.(loaded := Without(s.loaded, tid))
  }

  function Try(s: System, step: Step): System {
    if Enabled(s, step) then Take(s, step) else s
  }

  function Interleave(s: System, steps: seq<Step>): System {
    if steps == [] then s else Try(Interleave(s, steps[..|steps| - 1]), steps[|steps| - 1])
  }

  function Before(s: System, steps: seq<Step>, j: nat): System
    requires j <= |steps|
  {
    Interleave(s, steps[..j])
  }

  lemma StepBefore(s: System, steps: seq<Step>, j: nat)
    requires j < |steps|
    ensures Before(s, steps, j + 1) == Try(Before(s, steps, j), steps[j])
  {
    assert steps[..j + 1][..j] == steps[..j];
  }

  function VolumeOf(s: System, l: nat): int { if l < |s.volumes| then s.volumes[l] else 0 }

  /** By how much the stored volume is off what the events replay to. */
  function Gap(s: System, l: nat): int { VolumeOf(s, l) - Replayed(s.log, l) }

  /** The step writes lot `l`. */
  predicate Writes(s: System, step: Step, l: nat) {
    step.Save? && Enabled(s, step) && s.loaded[step.tid].lot == l && 0 <= s.loaded[step.tid].seen + DeltaOf(step.change)
  }

  /** A write moves the gap by how stale the volume was that it started from. */
  lemma StepGap(s: System, step: Step, l: nat)
    ensures Gap(Try(s, step), l) ==
              Gap(s, l) + (if Writes(s, step, l) then s.loaded[step.tid].seen - VolumeOf(s, l) else 0)
    ensures |Try(s, step).volumes| == |s.volumes|
    ensures !Writes(s, step, l) ==> VolumeOf(Try(s, step), l) == VolumeOf(s, l)
  {
    if step.Save? && Enabled(s, step) && 0 <= s.loaded[step.tid].seen + DeltaOf(step.change) {
      SumPush(VolumeChange(l), s.log, EventOf(s.loaded[step.tid], step.change));
    }
  }

  predicate WritesAt(s: System, steps: seq<Step>, j: nat, l: nat)
    requires j < |steps|
  {
    Writes(Before(s, steps, j), steps[j], l)
  }

  /** The write at step `j` starts from the volume that is stored then: what a
      compare-and-swap on the volume would test. */
  predicate Fresh(s: System, steps: seq<Step>, j: nat, l: nat)
    requires j < |steps| && WritesAt(s, steps, j, l)
  {
    Before(s, steps, j).loaded[steps[j].tid].seen == VolumeOf(Before(s, steps, j), l)
  }

  lemma GapAt(s: System, steps: seq<Step>, j: nat, l: nat)
    requires j < |steps|
    ensures Gap(Before(s, steps, j + 1), l) == Gap(Before(s, steps, j), l) <==>
              (WritesAt(s, steps, j, l) ==> Fresh(s, steps, j, l))
  {
    hide Gap, VolumeOf;
    StepBefore(s, steps, j);
    StepGap(Before(s, steps, j), steps[j], l);
  }

  lemma {:induction false} GapUpTo(s: System, steps: seq<Step>, n: nat, l: nat)
    requires n <= |steps|
    ensures (forall k | 0 <= k <= n :: Gap(Before(s, steps, k), l) == Gap(Before(s, steps, 0), l)) <==>
              (forall j | 0 <= j < n && WritesAt(s, steps, j, l) :: Fresh(s, steps, j, l))
  {
    hide Gap, Before, WritesAt, Fresh;
    if 0 < n {
      GapUpTo(s, steps, n - 1, l);
      GapAt(s, steps, n - 1, l);
    }
  }

  /** Under every interleaving the events of a lot replay to its stored volume at every
      point exactly when every write starts from the volume that is stored then. */
  lemma ReplaysExactly(s: System, steps: seq<Step>, l: nat)
    requires Gap(s, l) == 0
    ensures (forall k | 0 <= k <= |steps| ::
               VolumeOf(Before(s, steps, k), l) == Replayed(Before(s, steps, k).log, l)) <==>
              (forall j | 0 <= j < |steps| && WritesAt(s, steps, j, l) :: Fresh(s, steps, j, l))
  {
    AtStart(s, steps);
    GapUpTo(s, steps, |steps|, l);
    assert forall k | 0 <= k <= |steps| ::
        Gap(Before(s, steps, k), l) == 0 <==> VolumeOf(Before(s, steps, k), l) == Replayed(Before(s, steps, k).log, l);
  }

  // ---------- When a write starts from the stored volume ----------

  /** Step `i` loads lot `l` for `tid`. */
  predicate LoadsAt(s: System, steps: seq<Step>, i: nat, tid: Tid, l: nat)
    requires i < |steps|
  {
    steps[i] == Load(tid, l) && Enabled(Before(s, steps, i), steps[i])
  }

  /** The last load of lot `l` by `tid` before step `j`, or `j`. */
  function LastLoad(s: System, steps: seq<Step>, j: nat, tid: Tid, l: nat): (i: nat)
    requires j <= |steps|
    ensures i <= j && (i < j ==> LoadsAt(s, steps, i, tid, l))
    decreases j
  {
    if j == 0 then 0
    else if LoadsAt(s, steps, j - 1, tid, l) then j - 1
    else
      var i := LastLoad(s, steps, j - 1, tid, l);
      if i == j - 1 then j else i
  }

  predicate Has(s: System, tid: Tid, l: nat) {
    tid in s.loaded && s.loaded[tid].lot == l
  }

  lemma StepHas(s: System, step: Step, tid: Tid, l: nat)
    requires Has(Try(s, step), tid, l)
    ensures (step == Load(tid, l) && Enabled(s, step) && Try(s, step).loaded[tid].seen == VolumeOf(s, l))
            || (Has(s, tid, l) && Try(s, step).loaded[tid] == s.loaded[tid])
  {
  }

  lemma AtStart(s: System, steps: seq<Step>)
    ensures Before(s, steps, 0) == s
  {
    assert steps[..0] == [];
  }

  /** What a request holds is the volume at its load. */
  lemma {:induction false} SeenAtLoad(s: System, steps: seq<Step>, j: nat, tid: Tid, l: nat)
    requires j <= |steps| && s.loaded == map[] && Has(Before(s, steps, j), tid, l)
    ensures var i := LastLoad(s, steps, j, tid, l);
            i < j && Before(s, steps, j).loaded[tid].seen == VolumeOf(Before(s, steps, i), l)
    decreases j
  {
    hide Try, VolumeOf;
    if j == 0 {
      AtStart(s, steps);
    } else {
      StepBefore(s, steps, j - 1);
      StepHas(Before(s, steps, j - 1), steps[j - 1], tid, l);
      if !LoadsAt(s, steps, j - 1, tid, l) {
        SeenAtLoad(s, steps, j - 1, tid, l);
      } else {
        OneLoad(Before(s, steps, j - 1), tid, l);
      }
    }
  }

  lemma OneLoad(s: System, tid: Tid, l: nat)
    requires Enabled(s, Load(tid, l))
    ensures Has(Try(s, Load(tid, l)), tid, l) && Try(s, Load(tid, l)).loaded[tid].seen == VolumeOf(s, l)
  {
  }

  /** So a write starts from the stored volume exactly when the lot's volume at its
      load and at its write are the same; in particular when no other write of the
      lot falls between the two. */
  lemma FreshExactly(s: System, steps: seq<Step>, j: nat, l: nat)
    requires j < |steps| && s.loaded == map[] && WritesAt(s, steps, j, l)
    ensures var i := LastLoad(s, steps, j, steps[j].tid, l);
            && i < j
            && (Fresh(s, steps, j, l) <==> VolumeOf(Before(s, steps, i), l) == VolumeOf(Before(s, steps, j), l))
            && ((forall k | i <= k < j :: !WritesAt(s, steps, k, l)) ==> Fresh(s, steps, j, l))
  {
    SeenAtLoad(s, steps, j, steps[j].tid, l);
    var i := LastLoad(s, steps, j, steps[j].tid, l);
    hide VolumeOf, Before, WritesAt;
    if forall k | i <= k < j :: !WritesAt(s, steps, k, l) {
      Unwritten(s, steps, i, j, l);
    }
  }

  lemma {:induction false} Unwritten(s: System, steps: seq<Step>, i: nat, j: nat, l: nat)
    requires i <= j <= |steps| && forall k | i <= k < j :: !WritesAt(s, steps, k, l)
    ensures VolumeOf(Before(s, steps, j), l) == VolumeOf(Before(s, steps, i), l)
    decreases j
  {
    hide VolumeOf, Try;
    if i < j {
      Unwritten(s, steps, i, j - 1, l);
      assert !WritesAt(s, steps, j - 1, l);
      StepBefore(s, steps, j - 1);
      StepGap(Before(s, steps, j - 1), steps[j - 1], l);
    }
  }

  /** When exactly one other write falls between a load and its write, the write starts
      from the stored volume exactly when that other one changed nothing. */
  lemma OneBetween(s: System, steps: seq<Step>, j: nat, l: nat, k: nat)
    requires j < |steps| && s.loaded == map[] && WritesAt(s, steps, j, l)
    requires LastLoad(s, steps, j, steps[j].tid, l) <= k < j && WritesAt(s, steps, k, l)
    requires forall k' | LastLoad(s, steps, j, steps[j].tid, l) <= k' < j && k' != k :: !WritesAt(s, steps, k', l)
    ensures Fresh(s, steps, j, l) <==> VolumeOf(Before(s, steps, k + 1), l) == VolumeOf(Before(s, steps, k), l)
  {
    FreshExactly(s, steps, j, l);
    hide VolumeOf, Before, WritesAt, Fresh;
    Unwritten(s, steps, LastLoad(s, steps, j, steps[j].tid, l), k, l);
    Unwritten(s, steps, k + 1, j, l);
  }

  /** 100 units, from which two overlapping requests take 40 and 30: 70 are stored, and
      the events replay to 30. */
  lemma UpdateLost()
    ensures var s := System([100], [LotCreated(0, 100, InProgress)], map[]);
            var u := Interleave(s, [Load(1, 0), Load(2, 0), Save(1, Adjusting(-40)), Save(2, Adjusting(-30))]);
            Gap(s, 0) == 0 && VolumeOf(u, 0) == 70 && Replayed(u.log, 0) == 30
  {
    var e := LotCreated(0, 100, InProgress);
    var s := System([100], [e], map[]);
    var steps := [Load(1, 0), Load(2, 0), Save(1, Adjusting(-40)), Save(2, Adjusting(-30))];
    var s2 := s.(loaded := map[1 := Loaded(0, 100), 2 := Loaded(0, 100)]);
    var s3 := System([60], [e, VolumeAdjusted(0, 100, 60, -40)], map[2 := Loaded(0, 100)]);
    assert Try(Try(s, steps[0]), steps[1]) == s2;
    assert Try(s2, steps[2]) == s3;
    FourSteps(s, steps[0], steps[1], steps[2], steps[3]);
    SumOfTwo(VolumeChange(0), e, VolumeAdjusted(0, 100, 60, -40));
    SumPush(VolumeChange(0), [], e);
    assert [] + [e] == [e];
    SumPush(VolumeChange(0), s3.log, VolumeAdjusted(0, 100, 70, -30));
  }

  lemma FourSteps(s: System, a: Step, b: Step, c: Step, d: Step)
    ensures Interleave(s, [a, b, c, d]) == Try(Try(Try(Try(s, a), b), c), d)
  {
    hide Try;
    var steps := [a, b, c, d];
    assert steps[..3] == [a, b, c] && [a, b, c][..2] == [a, b] && [a, b][..1] == [a] && [a][..0] == [];
    assert Interleave(s, [a]) == Try(s, a);
    assert Interleave(s, [a, b]) == Try(Try(s, a), b);
    assert Interleave(s, [a, b, c]) == Try(Try(Try(s, a), b), c);
  }

  /** The system holds the volumes and the log of the book. */
  predicate Shows(s: System, b: Book) {
    && |s.volumes| == |b.lots| && (forall i | 0 <= i < |b.lots| :: s.volumes[i] == b.lots[i].volume)
    && s.log == b.log
  }

  /** A load and a save with nothing in between do what the services do: adjustVolume,
      refused when the volume falls short, and the parent's part of a split. */
  lemma Undisturbed(s: System, b: Book, tid: Tid, l: nat, delta: int)
    requires Shows(s, b) && tid !in s.loaded && l < |b.lots|
    ensures var adjusted := Interleave(s, [Load(tid, l), Save(tid, Adjusting(delta))]);
            Shows(adjusted, LotBook.Apply(b, AdjustOp(l, delta))) && adjusted.loaded == s.loaded
    ensures var split, volume := Interleave(s, [Load(tid, l), Save(tid, Splitting(delta))]), b.lots[l].volume;
            Shows(split, if delta <= volume then ShrinkParent(b, l, volume, delta) else b) && split.loaded == s.loaded
  {
    TwoSteps(s, Load(tid, l), Save(tid, Adjusting(delta)));
    TwoSteps(s, Load(tid, l), Save(tid, Splitting(delta)));
    hide Interleave;
    assert Without(s.loaded[tid := Loaded(l, s.volumes[l])], tid) == s.loaded;
  }

  lemma TwoSteps(s: System, a: Step, b: Step)
    ensures Interleave(s, [a, b]) == Try(Try(s, a), b)
  {
    hide Try;
    assert [a, b][..1] == [a] && [a][..0] == [];
    assert Interleave(s, [a]) == Try(s, a);
  }
}
