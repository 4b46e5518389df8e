/** Overlapping syncs: the key lookup and the insert of an event are separate steps,
    and a unique index on the key stands behind them. */
module SyncRaces {
  import opened Options
  import opened EventSync

  type Tid = nat

  /** Before the lookup, after a lookup that found nothing, after the insert. */
  datatype Phase = Begun | Missed | Inserted

  datatype Run = Run(event: Event, phase: Phase)

  /** How an attempt ended; `fault` says that the database failed it. */
  datatype Ended = Ended(event: Event, result: Result, fault: bool)

  /** The committed log, the keys of uncommitted inserts, the attempts under way and
      those that have ended, in the order in which they ended. */
  datatype System = System(log: seq<Event>, keys: map<string, Tid>, running: map<Tid, Run>, ended: seq<Ended>)

  datatype Step =
    | Begin(tid: Tid, event: Event)
    | Lookup(tid: Tid)
    | Insert(tid: Tid)
    | Commit(tid: Tid)
    | Fault(tid: Tid)

  predicate In(s: System, tid: Tid, phase: Phase) {
    tid in s.running && s.running[tid].phase == phase
  }

  /** An insert waits for an uncommitted one with the same key. */
  predicate Enabled(s: System, step: Step) {
    match step
    case Begin(tid, _) => tid !in s.running
    case Lookup(tid) => In(s, tid, Begun)
    case Insert(tid) =>
      && In(s, tid, Missed)
      && var e := s.running[tid].event;
         Storable(e) && e.key.Some? ==> e.key.value !in s.keys
    case Commit(tid) => In(s, tid, Inserted)
    case Fault(tid) => tid in s.running
  }

  function Freed(keys: map<string, Tid>, tid: Tid): map<string, Tid> {
    map k | k in keys && keys[k] != tid :: keys[k]
  }

  function Without(running: map<Tid, Run>, tid: Tid): map<Tid, Run> {
    map t | t in running && t != tid :: running[t]
  }

  function Finish(s: System, tid: Tid, result: Result, fault: bool): System
    requires tid in s.running
  {
    s.(keys := Freed(s.keys, tid), running := Without(s.running, tid),
       ended := s.ended + [Ended(s.running[tid].event, result, fault)])
  }

  function Take(s: System, step: Step): System
    requires Enabled(s, step)
  {
    match step
    case Begin(tid, e) => s.(running := s.running[tid := Run(e, Begun)])
    case Lookup(tid) =>
      var e := s.running[tid].event;
      if Claimed(s.log, e.key) then Finish(s, tid, Skipped(FindKey(s.log, e.key.value)), false)
      else s.(running := s.running[tid := Run(e, Missed)])
    case Insert(tid) =>
      var e := s.running[tid].event;
      if !Storable(e) || Claimed(s.log, e.key) then Finish(s, tid, Failed, false)
      else s.(keys := if e.key.Some? then s.keys[e.key.value := tid] else s.keys,
              running := s.running[tid := Run(e, Inserted)])
    case Commit(tid) =>
      Finish(s, tid, Accepted(|s.log|), false).(log := s.log + [s.running[tid].event])
    case Fault(tid) => Finish(s, tid, Failed, true)
  }

  function Try(s: System, step: Step): System {
    if Enabled(s, step) then Take(s, step) else s
  }

  function Interleave(s: System, steps: seq<Step>): System {
    if steps == [] then s else Try(Interleave(s, steps[..|steps| - 1]), steps[|steps| - 1])
  }

  // ---------- Stored once ----------

  /** An insert under way owns its key, and the log does not have it. */
  predicate Owns(s: System, tid: Tid, r: Run) {
    r.phase == Inserted ==>
      && Storable(r.event) && !Claimed(s.log, r.event.key)
      && (r.event.key.Some? ==> r.event.key.value in s.keys && s.keys[r.event.key.value] == tid)
  }

  predicate Sound(s: System) {
    UniqueKeys(s.log) && forall tid | tid in s.running :: Owns(s, tid, s.running[tid])
  }

  lemma {:induction false} ClaimedBy(log: seq<Event>, key: string)
    ensures Claimed(log, Some(key)) <==> exists i :: 0 <= i < |log| && log[i].key == Some(key)
  {
  }

  lemma ClaimedAfter(log: seq<Event>, e: Event, key: Option<string>)
    ensures Claimed(log + [e], key) <==> Claimed(log, key) || (key.Some? && e.key == key)
  {
    if key.Some? {
      ClaimedBy(log, key.value);
      ClaimedBy(log + [e], key.value);
      hide Claimed;
      assert (log + [e])[|log|] == e;
      if i :| 0 <= i < |log| && log[i].key == key {
        assert (log + [e])[i].key == key;
      }
    }
  }

  lemma StoredOnce(log: seq<Event>, e: Event)
    requires UniqueKeys(log) && !Claimed(log, e.key)
    ensures UniqueKeys(log + [e])
  {
    if e.key.Some? {
      ClaimedBy(log, e.key.value);
    }
  }

  lemma StepSound(s: System, step: Step)
    requires Sound(s)
    ensures Sound(Try(s, step))
  {
    hide Claimed, Storable, UniqueKeys, FindKey;
    if Enabled(s, step) && step.Commit? {
      var e := s.running[step.tid].event;
      StoredOnce(s.log, e);
      forall tid | tid in s.running && tid != step.tid && s.running[tid].phase == Inserted
        ensures !Claimed(s.log + [e], s.running[tid].event.key)
      {
        ClaimedAfter(s.log, e, s.running[tid].event.key);
      }
    }
  }

  // ---------- The sequential log ----------

  /** The attempts one after the other in the order in which they ended; a faulty one
      leaves nothing. */
  function Sequential(log: seq<Event>, ended: seq<Ended>): seq<Event> {
    if ended == [] then log
    else
      var before, last := Sequential(log, ended[..|ended| - 1]), ended[|ended| - 1];
      if last.fault then before else LogEvent(before, last.event).1
  }

  /** What an attempt reports against what it would have been told alone: the same,
      but one that lost its key to another in between fails instead of being skipped. */
  predicate Reported(log: seq<Event>, d: Ended) {
    match LogEvent(log, d.event).0
    case Created(i) => d.result == Accepted(i)
    case Existing(i) => d.result == Skipped(i) || d.result == Failed
    case Refused => d.result == Failed
  }

  predicate AllReported(log: seq<Event>, ended: seq<Ended>) {
    ended == [] ||
    (var n := |ended| - 1;
     AllReported(log, ended[..n]) && (ended[n].fault || Reported(Sequential(log, ended[..n]), ended[n])))
  }

  lemma OneMoreEnded(log: seq<Event>, ended: seq<Ended>, d: Ended)
    ensures Sequential(log, ended + [d]) ==
              if d.fault then Sequential(log, ended) else LogEvent(Sequential(log, ended), d.event).1
    ensures AllReported(log, ended + [d]) <==>
              AllReported(log, ended) && (d.fault || Reported(Sequential(log, ended), d))
  {
    assert (ended + [d])[..|ended|] == ended;
  }

  /** The committed log is the sequential one, and every attempt was told the truth. */
  predicate Serial(s: System, start: seq<Event>) {
    s.log == Sequential(start, s.ended) && AllReported(start, s.ended)
  }

  lemma StepSerial(s: System, step: Step, start: seq<Event>)
    requires Sound(s) && Serial(s, start)
    ensures Serial(Try(s, step), start)
  {
    hide Claimed, Storable, UniqueKeys, FindKey, Sequential, AllReported;
    var u := Try(s, step);
    if Enabled(s, step) && |u.ended| > |s.ended| {
      OneMoreEnded(start, s.ended, u.ended[|s.ended|]);
    }
  }

  /** Under every interleaving no key is stored twice, the log is that of the attempts
      one after the other, and their reports agree. */
  lemma {:induction false} Overlapping(s: System, steps: seq<Step>)
    requires UniqueKeys(s.log) && s.running == map[] && s.ended == []
    ensures Sound(Interleave(s, steps)) && Serial(Interleave(s, steps), s.log)
  {
    hide Sound, UniqueKeys, Try;
    if steps == [] {
      NothingRunning(s);
    } else {
      var front := Interleave(s, steps[..|steps| - 1]);
      Overlapping(s, steps[..|steps| - 1]);
      StepSound(front, steps[|steps| - 1]);
      StepSerial(front, steps[|steps| - 1], s.log);
    }
  }

  lemma NothingRunning(s: System)
    requires UniqueKeys(s.log) && s.running == map[] && s.ended == []
    ensures Sound(s) && Serial(s, s.log)
  {
  }

  // ---------- Accepted once ----------

  predicate AcceptedFor(d: Ended, key: string) { d.result.Accepted? && d.event.key == Some(key) }

  function AcceptedCount(ended: seq<Ended>, key: string): nat {
    if ended == [] then 0
    else AcceptedCount(ended[..|ended| - 1], key) + (if AcceptedFor(ended[|ended| - 1], key) then 1 else 0)
  }

  lemma AcceptedMore(ended: seq<Ended>, d: Ended, key: string)
    ensures AcceptedCount(ended + [d], key) == AcceptedCount(ended, key) + (if AcceptedFor(d, key) then 1 else 0)
  {
    assert (ended + [d])[..|ended|] == ended;
  }

  /** What a step adds to the attempts that have ended, and to the log. */
  lemma StepEnds(s: System, step: Step, key: string)
    ensures var u := Try(s, step);
            if step.Commit? && Enabled(s, step) then
              var e := s.running[step.tid].event;
              u.log == s.log + [e] && u.ended == s.ended + [Ended(e, Accepted(|s.log|), false)]
            else
              && u.log == s.log
              && (u.ended == s.ended || exists d :: u.ended == s.ended + [d] && !AcceptedFor(d, key))
  {
    hide Claimed, Storable, FindKey;
    var u := Try(s, step);
    if u.ended != s.ended && !step.Commit? {
      var d := u.ended[|s.ended|];
      assert u.ended == s.ended + [d] && !AcceptedFor(d, key);
    }
  }

  lemma StepAccepted(s: System, step: Step, key: string)
    requires Sound(s) && AcceptedCount(s.ended, key) == (if Claimed(s.log, Some(key)) then 1 else 0)
    ensures var u := Try(s, step);
            AcceptedCount(u.ended, key) == if Claimed(u.log, Some(key)) then 1 else 0
  {
    hide Claimed, Storable, UniqueKeys, FindKey, AcceptedCount, Try;
    StepEnds(s, step, key);
    var u := Try(s, step);
    if step.Commit? && Enabled(s, step) {
      var e := s.running[step.tid].event;
      AcceptedMore(s.ended, Ended(e, Accepted(|s.log|), false), key);
      ClaimedAfter(s.log, e, Some(key));
    } else if u.ended != s.ended {
      var d :| u.ended == s.ended + [d] && !AcceptedFor(d, key);
      AcceptedMore(s.ended, d, key);
    }
  }

  /** However many syncs of one key overlap, at most one attempt is accepted, and one
      is exactly when the log has the key; so after an acceptance every retry is
      skipped or fails, and none is stored. */
  lemma {:induction false} AcceptedOnce(s: System, steps: seq<Step>, key: string)
    requires UniqueKeys(s.log) && s.running == map[] && s.ended == [] && !Claimed(s.log, Some(key))
    ensures var u := Interleave(s, steps);
            AcceptedCount(u.ended, key) == if Claimed(u.log, Some(key)) then 1 else 0
  {
    hide Sound, UniqueKeys, Try, Claimed;
    if steps != [] {
      var front := Interleave(s, steps[..|steps| - 1]);
      AcceptedOnce(s, steps[..|steps| - 1], key);
      Overlapping(s, steps[..|steps| - 1]);
      StepAccepted(front, steps[|steps| - 1], key);
    }
  }

  // ---------- Who loses ----------

  function Before(s: System, steps: seq<Step>, j: nat): System
    requires j <= |steps|
  {
    Interleave(s, steps[..j])
  }

  lemma StepBefore(s: System, steps: seq<Step>, j: nat)
    requires j < |steps|
    ensures Before(s, steps, j + 1) == Try(Before(s, steps, j), steps[j])
  {
    assert steps[..j + 1][..j] == steps[..j];
  }

  /** Step `k` commits an event with this key. */
  predicate CommitsKey(s: System, steps: seq<Step>, k: nat, key: Option<string>)
    requires k < |steps|
  {
    var b := Before(s, steps, k);
    key.Some? && steps[k].Commit? && Enabled(b, steps[k]) && b.running[steps[k].tid].event.key == key
  }

  lemma StepClaims(s: System, step: Step, key: Option<string>)
    ensures Claimed(Try(s, step).log, key) <==>
              || Claimed(s.log, key)
              || (key.Some? && step.Commit? && Enabled(s, step) && s.running[step.tid].event.key == key)
  {
    hide Claimed, Storable, FindKey;
    if step.Commit? && Enabled(s, step) {
      ClaimedAfter(s.log, s.running[step.tid].event, key);
    }
  }

  lemma ClaimsAt(s: System, steps: seq<Step>, j: nat, key: Option<string>)
    requires j < |steps|
    ensures Claimed(Before(s, steps, j + 1).log, key) <==>
              Claimed(Before(s, steps, j).log, key) || CommitsKey(s, steps, j, key)
  {
    StepBefore(s, steps, j);
    StepClaims(Before(s, steps, j), steps[j], key);
  }

  lemma {:induction false} ClaimedBetween(s: System, steps: seq<Step>, i: nat, j: nat, key: Option<string>)
    requires i <= j <= |steps|
    ensures Claimed(Before(s, steps, j).log, key) <==>
              Claimed(Before(s, steps, i).log, key) || exists k :: i <= k < j && CommitsKey(s, steps, k, key)
    decreases j
  {
    hide Claimed, Before, CommitsKey;
    if i < j {
      ClaimedBetween(s, steps, i, j - 1, key);
      ClaimsAt(s, steps, j - 1, key);
    }
  }

  lemma StepElsewhere(s: System, step: Step, tid: Tid)
    requires step.tid != tid
    ensures tid in Try(s, step).running <==> tid in s.running
    ensures tid in s.running ==> Try(s, step).running[tid] == s.running[tid]
  {
    hide Claimed, Storable, FindKey;
  }

  lemma {:induction false} LeftAlone(s: System, steps: seq<Step>, i: nat, j: nat, tid: Tid)
    requires i <= j <= |steps| && forall k | i <= k < j :: steps[k].tid != tid
    ensures tid in Before(s, steps, j).running <==> tid in Before(s, steps, i).running
    ensures tid in Before(s, steps, i).running ==>
              Before(s, steps, j).running[tid] == Before(s, steps, i).running[tid]
    decreases j
  {
    hide Try;
    if i < j {
      LeftAlone(s, steps, i, j - 1, tid);
      StepBefore(s, steps, j - 1);
      StepElsewhere(Before(s, steps, j - 1), steps[j - 1], tid);
    }
  }

  /** An attempt with a storable event that looked its key up at step `i` and inserts
      at step `j` fails exactly when another attempt committed the key in between. */
  lemma LosesExactly(s: System, steps: seq<Step>, i: nat, j: nat, tid: Tid)
    requires i < j < |steps| && steps[i] == Lookup(tid) && steps[j] == Insert(tid)
    requires forall k | i < k < j :: steps[k].tid != tid
    requires Enabled(Before(s, steps, i), steps[i]) && Enabled(Before(s, steps, j), steps[j])
    requires Storable(Before(s, steps, j).running[tid].event)
    ensures var key := Before(s, steps, j).running[tid].event.key;
            tid !in Before(s, steps, j + 1).running <==> exists k :: i < k < j && CommitsKey(s, steps, k, key)
  {
    hide Interleave, Claimed, Storable, FindKey, CommitsKey;
    var a, b, c := Before(s, steps, i), Before(s, steps, i + 1), Before(s, steps, j);
    var key := c.running[tid].event.key;
    StepBefore(s, steps, i);
    StepBefore(s, steps, j);
    LeftAlone(s, steps, i + 1, j, tid);
    assert tid in b.running && b.running[tid].event.key == key && !Claimed(a.log, key) && b.log == a.log;
    ClaimedBetween(s, steps, i + 1, j, key);
  }

  // ---------- Undisturbed ----------

  function Attempt(tid: Tid, e: Event): seq<Step> { [Begin(tid, e), Lookup(tid), Insert(tid), Commit(tid)] }

  function Told(w: Written): Result {
    match w
    case Existing(i) => Skipped(i)
    case Created(i) => Accepted(i)
    case Refused => Failed
  }

  predicate Idle(s: System) { s.running.Keys == {} && s.keys.Keys == {} }

  lemma FourSteps(s: System, a: Step, b: Step, c: Step, d: Step)
    ensures Interleave(s, [a, b, c, d]) == Try(Try(Try(Try(s, a), b), c), d)
  {
    hide Try;
    var steps := [a, b, c, d];
    assert steps[..3] == [a, b, c] && [a, b, c][..2] == [a, b] && [a, b][..1] == [a] && [a][..0] == [];
    assert Interleave(s, [a]) == Try(s, a);
    assert Interleave(s, [a, b]) == Try(Try(s, a), b);
    assert Interleave(s, [a, b, c]) == Try(Try(Try(s, a), b), c);
  }

  /** An attempt nobody else overlaps stores and reports what the logger would. */
  lemma Undisturbed(s: System, tid: Tid, e: Event)
    requires Idle(s)
    ensures var u, (w, after) := Interleave(s, Attempt(tid, e)), LogEvent(s.log, e);
            Idle(u) && u.log == after && u.ended == s.ended + [Ended(e, Told(w), false)]
  {
    FourSteps(s, Begin(tid, e), Lookup(tid), Insert(tid), Commit(tid));
    hide Claimed, Storable, FindKey, Interleave;
  }

  lemma {:induction false} InterleaveConcat(s: System, a: seq<Step>, b: seq<Step>)
    ensures Interleave(s, a + b) == Interleave(Interleave(s, a), b)
  {
    if b == [] {
      assert a + b == a;
    } else {
      assert (a + b)[..|a + b| - 1] == a + b[..|b| - 1];
      InterleaveConcat(s, a, b[..|b| - 1]);
    }
  }

  /** Every batch, processed one event after the other, is what some interleaving
      commits. */
  lemma {:induction false} EveryBatch(s: System, rules: seq<Rule>, user: nat, batch: seq<Submission>)
    requires Idle(s)
    ensures exists steps :: Idle(Interleave(s, steps)) && Interleave(s, steps).log == After(rules, user, s.log, batch)
  {
    hide LogEvent, Received, Complete, Attempt;
    if batch == [] {
      assert Interleave(s, []) == s;
    } else {
      var front, last := batch[..|batch| - 1], batch[|batch| - 1];
      EveryBatch(s, rules, user, front);
      var steps :| Idle(Interleave(s, steps)) && Interleave(s, steps).log == After(rules, user, s.log, front);
      var before := Interleave(s, steps);
      hide Interleave;
      if !last.fault && Complete(last.data) {
        var e := Received(rules, user, last.data);
        Undisturbed(before, 0, e);
        InterleaveConcat(s, steps, Attempt(0, e));
        RefusedNothing(before.log, e);
        assert Interleave(s, steps + Attempt(0, e)).log == After(rules, user, s.log, batch);
      }
    }
  }

  lemma RefusedNothing(log: seq<Event>, e: Event)
    ensures LogEvent(log, e).0.Refused? ==> LogEvent(log, e).1 == log
  {
  }
}
