/** Concurrent inventory transactions and count approvals: row locks held from the
    locking read or the insert to the commit, writes invisible until then, aborts at
    any point. Every interleaving ends where the committed jobs would have ended one
    after the other. */
module StockConcurrency {
  import opened Options
  import opened Sums
  import opened Inventory
  import opened PhysicalCounts

  type Tid = nat
  type Key = (Sku, Loc)

  function KeyOf(m: Movement): Key { (m.sku, m.loc) }

  /** What a transaction does: a stock operation, the start of a count session, its
      approval with the lines it read, or its cancellation. */
  datatype Job =
    | Moving(op: Op)
    | Starting(id: nat, loc: Loc, lines: seq<Line>)
    | Approving(id: nat, loc: Loc, lines: seq<Line>)
    | Cancelling(id: nat, loc: Loc, lines: seq<Line>)

  /** The movements an operation makes, in order. */
  function OpLegs(op: Op): seq<Movement> {
    match op
    case ReceiveOp(sku, loc, q) => [Movement(sku, loc, Received, q)]
    case SellOp(sku, loc, q) => [Movement(sku, loc, Sold, -q)]
    case AdjustOp(sku, loc, q) => [Movement(sku, loc, Adjusted, q)]
    case TransferOp(sku, from, to, q) => [Movement(sku, from, Transferred, -q), Movement(sku, to, Transferred, q)]
  }

  function PostLegs(loc: Loc, lines: seq<Line>): seq<Movement> {
    if lines == [] then []
    else
      var l := lines[|lines| - 1];
      PostLegs(loc, lines[..|lines| - 1])
      + (if Posts(l) then [Movement(l.sku, loc, Adjusted, l.variance.value)] else [])
  }

  function Legs(job: Job): seq<Movement> {
    match job
    case Moving(op) => OpLegs(op)
    case Approving(_, loc, lines) => PostLegs(loc, lines)
    case _ => []
  }

  function OpEvent(op: Op): Event {
    match op
    case ReceiveOp(sku, loc, q) => StockMoved(sku, loc, Received, q)
    case SellOp(sku, loc, q) => StockMoved(sku, loc, Sold, -q)
    case AdjustOp(sku, loc, q) => StockMoved(sku, loc, Adjusted, q)
    case TransferOp(sku, from, to, q) => StockTransferred(sku, from, to, q)
  }

  function PostEvents(loc: Loc, lines: seq<Line>): seq<Event> {
    if lines == [] then []
    else
      var l := lines[|lines| - 1];
      PostEvents(loc, lines[..|lines| - 1])
      + (if Posts(l) then [StockMoved(l.sku, loc, Adjusted, l.variance.value)] else [])
  }

  function EventsOf(job: Job): seq<Event> {
    match job
    case Moving(op) => [OpEvent(op)]
    case Starting(id, loc, lines) => [CountStarted(id, loc, |lines|)]
    case Approving(id, loc, lines) => PostEvents(loc, lines) + [CountApproved(id, loc, |lines|, Postings(lines))]
    case Cancelling(id, loc, lines) => [CountCancelled(id, loc, CountedLines(lines))]
  }

  /** The argument checks made before the transaction begins; the lines of a session
      have distinct SKUs (a unique index). */
  predicate Accepted(job: Job) {
    match job
    case Moving(ReceiveOp(_, _, q)) => 0 < q
    case Moving(SellOp(_, _, q)) => 0 < q
    case Moving(AdjustOp(_, _, _)) => true
    case Moving(TransferOp(_, from, to, q)) => 0 < q && from != to
    case Approving(_, _, lines) => DistinctLines(lines)
    case _ => true
  }

  /** The job run alone. */
  function ApplyJob(s: Stock, job: Job): Stock {
    match job
    case Moving(op) => Inventory.Apply(s, op)
    case Starting(id, loc, lines) => Told(s, CountStarted(id, loc, |lines|))
    case Approving(id, loc, lines) => Told(PostAll(s, loc, lines), CountApproved(id, loc, |lines|, Postings(lines)))
    case Cancelling(id, loc, lines) => Told(s, CountCancelled(id, loc, CountedLines(lines)))
  }

  function RunJobs(s: Stock, jobs: seq<Job>): Stock {
    if jobs == [] then s else ApplyJob(RunJobs(s, jobs[..|jobs| - 1]), jobs[|jobs| - 1])
  }

  /** Where a transaction is in its current leg. `Absent`: the locking read found no
      row, so there was nothing to lock. */
  datatype Phase = Locking | Absent | Holding(seen: int) | Wrote

  /** `done` legs are finished; `pending` and `moves` are its uncommitted writes. */
  datatype Txn = Txn(job: Job, done: nat, phase: Phase, pending: map<Key, int>, moves: seq<Movement>)

  /** A request on a count session that has passed its status test. */
  datatype Request = ApproveReq(id: nat) | CancelReq(id: nat) | RecountReq(id: nat, counts: seq<Count>)

  /** Committed tables, the sessions whose start is not committed yet (hidden), row
      locks (on rows and on uncommitted inserts), requests that have read their
      session's status, running transactions, and the jobs committed so far in
      commit order. */
  datatype System = System(balance: map<Key, int>, movements: seq<Movement>, log: seq<Event>,
                           sessions: seq<Session>, hidden: set<nat>, locks: map<Key, Tid>, looked: map<Tid, Request>,
                           txns: map<Tid, Txn>, history: seq<Job>)

  /** The status of a session is read on its own (Look); only then does the
      transaction begin (Enter). The transaction that starts a session takes a
      snapshot of the committed rows at its location; the session is hidden until
      that transaction commits. */
  datatype Step =
    | Begin(tid: Tid, op: Op)
    | StartCount(tid: Tid, loc: Loc, lines: seq<Line>)
    | Look(tid: Tid, request: Request)
    | Enter(tid: Tid)
    | LockAndRead(tid: Tid)
    | FindAbsent(tid: Tid)
    | InsertRow(tid: Tid)
    | WriteBalance(tid: Tid)
    | AppendMovement(tid: Tid)
    | Commit(tid: Tid)
    | Abort(tid: Tid)

  function Balance(s: System, k: Key): int { if k in s.balance then s.balance[k] else 0 }

  function Released(locks: map<Key, Tid>, tid: Tid): map<Key, Tid> {
    map k | k in locks && locks[k] != tid :: locks[k]
  }

  function Without<T>(m: map<Tid, T>, tid: Tid): map<Tid, T> {
    map t | t in m && t != tid :: m[t]
  }

  /** A transaction with a leg to go, in this phase. */
  predicate At(s: System, tid: Tid, phase: Phase) {
    tid in s.txns && s.txns[tid].phase == phase && s.txns[tid].done < |Legs(s.txns[tid].job)|
  }

  function NextKey(s: System, tid: Tid): Key
    requires tid in s.txns && s.txns[tid].done < |Legs(s.txns[tid].job)|
  {
    KeyOf(Legs(s.txns[tid].job)[s.txns[tid].done])
  }

  /** One uncounted line per committed row at the location, with its balance. */
  predicate SnapshotOf(balance: map<Key, int>, loc: Loc, lines: seq<Line>) {
    && DistinctLines(lines)
    && (forall i | 0 <= i < |lines| ::
          (lines[i].sku, loc) in balance && lines[i] == Line(lines[i].sku, balance[(lines[i].sku, loc)], None, None))
    && (forall k | k in balance && k.1 == loc :: HasLine(lines, k.0))
  }

  predicate Enabled(s: System, step: Step) {
    match step
    case Begin(tid, op) => tid !in s.txns && tid !in s.looked && Accepted(Moving(op))
    case StartCount(tid, loc, lines) => tid !in s.txns && tid !in s.looked && SnapshotOf(s.balance, loc, lines)
    case Look(tid, r) =>
      tid !in s.txns && tid !in s.looked && r.id < |s.sessions| && r.id !in s.hidden
      && s.sessions[r.id].status == InProgress
    case Enter(tid) => tid !in s.txns && tid in s.looked && s.looked[tid].id < |s.sessions|
    case LockAndRead(tid) => At(s, tid, Locking) && NextKey(s, tid) in s.balance && NextKey(s, tid) !in s.locks
    case FindAbsent(tid) => At(s, tid, Locking) && NextKey(s, tid) !in s.balance
    case InsertRow(tid) => At(s, tid, Absent) && NextKey(s, tid) !in s.locks
    case WriteBalance(tid) =>
      tid in s.txns && s.txns[tid].phase.Holding? && s.txns[tid].done < |Legs(s.txns[tid].job)|
    case AppendMovement(tid) => At(s, tid, Wrote)
    case Commit(tid) =>
      tid in s.txns && s.txns[tid].phase == Locking && s.txns[tid].done == |Legs(s.txns[tid].job)|
    case Abort(tid) => tid in s.txns || tid in s.looked
  }

  function JobOf(s: System, r: Request): Job
    requires r.id < |s.sessions| && !r.RecountReq?
  {
    var c := s.sessions[r.id];
    if r.ApproveReq? then Approving(r.id, c.loc, c.lines) else Cancelling(r.id, c.loc, c.lines)
  }

  function Aborted(s: System, tid: Tid): System {
    s.(locks := Released(s.locks, tid), txns := Without(s.txns, tid), looked := Without(s.looked, tid))
  }

  /** The session a job closes gets its final status, whatever status it has now. */
  function Closed(sessions: seq<Session>, job: Job): (after: seq<Session>)
    ensures |after| == |sessions|
  {
    if job.Moving? || job.Starting? || job.id >= |sessions| then sessions
    else sessions[job.id := sessions[job.id].(status := if job.Approving? then Completed else Cancelled)]
  }

  /** The new balance of the leg's row, as the transaction sees it. */
  function AfterWrite(t: Txn): (u: Txn)
    requires t.phase.Holding? && t.done < |Legs(t.job)|
    ensures u.job == t.job
  {
    var m := Legs(t.job)[t.done];
    t.(phase := Wrote, pending := t.pending[KeyOf(m) := t.phase.seen + m.quantity])
  }

  function Shown(hidden: set<nat>, job: Job): set<nat> {
    if job.Starting? then hidden - {job.id} else hidden
  }

  function Take(s: System, step: Step): System
    requires Enabled(s, step)
  {
    match step
    case Begin(tid, op) => s.(txns := s.txns[tid := Txn(Moving(op), 0, Locking, map[], [])])
    case StartCount(tid, loc, lines) =>
      var id := |s.sessions|;
      s.(sessions := s.sessions + [Session(loc, InProgress, lines)], hidden := s.hidden + {id},
         txns := s.txns[tid := Txn(Starting(id, loc, lines), 0, Locking, map[], [])])
    case Look(tid, r) => s.(looked := s.looked[tid := r])
    case Enter(tid) =>
      var r, looked := s.looked[tid], Without(s.looked, tid);
      if r.RecountReq? then
        var c := s.sessions[r.id];
        s.(looked := looked, sessions := s.sessions[r.id := c.(lines := CountAll(c.lines, r.counts))])
      else s.(looked := looked, txns := s.txns[tid := Txn(JobOf(s, r), 0, Locking, map[], [])])
    case LockAndRead(tid) =>
      var t, k := s.txns[tid], NextKey(s, tid);
      s.(locks := s.locks[k := tid], txns := s.txns[tid := t.(phase := Holding(s.balance[k]))])
    case FindAbsent(tid) => s.(txns := s.txns[tid := s.txns[tid].(phase := Absent)])
    case InsertRow(tid) =>
      var t, k := s.txns[tid], NextKey(s, tid);
      if k in s.balance then Aborted(s, tid)
      else s.(locks := s.locks[k := tid], txns := s.txns[tid := t.(phase := Holding(0))])
    case WriteBalance(tid) => s.(txns := s.txns[tid := AfterWrite(s.txns[tid])])
    case AppendMovement(tid) =>
      var t := s.txns[tid];
      s.(txns := s.txns[tid := t.(phase := Locking, done := t.done + 1, moves := t.moves + [Legs(t.job)[t.done]])])
    case Commit(tid) =>
      var t := s.txns[tid];
      System(s.balance + t.pending, s.movements + t.moves, s.log + EventsOf(t.job), Closed(s.sessions, t.job),
             Shown(s.hidden, t.job), Released(s.locks, tid), s.looked, Without(s.txns, tid), s.history + [t.job])
    case Abort(tid) => Aborted(s, tid)
  }

  /** A step that is not enabled waits: nothing happens. */
  function Try(s: System, step: Step): System {
    if Enabled(s, step) then Take(s, step) else s
  }

  function Interleave(s: System, steps: seq<Step>): System {
    if steps == [] then s else Try(Interleave(s, steps[..|steps| - 1]), steps[|steps| - 1])
  }

  // ---------- The invariant ----------

  /** How many rows a transaction has locked, and how many it has written. */
  function Locked(t: Txn): nat { t.done + (if t.phase == Locking || t.phase == Absent then 0 else 1) }

  function Written(t: Txn): nat { t.done + (if t.phase == Wrote then 1 else 0) }

  /** A transaction owns the rows it has reached, what it read there is still the
      committed balance, and its pending writes are those balances plus its own
      quantities. */
  predicate TxnSound(s: System, tid: Tid, t: Txn) {
    var legs := Legs(t.job);
    && Accepted(t.job) && Locked(t) <= |legs|
    && (forall i | 0 <= i < Locked(t) :: KeyOf(legs[i]) in s.locks && s.locks[KeyOf(legs[i])] == tid)
    && (t.phase.Holding? ==> t.phase.seen == Balance(s, KeyOf(legs[t.done])))
    && (forall k | k in t.pending :: exists i :: 0 <= i < Written(t) && KeyOf(legs[i]) == k)
    && (forall i | 0 <= i < Written(t) ::
          KeyOf(legs[i]) in t.pending && t.pending[KeyOf(legs[i])] == Balance(s, KeyOf(legs[i])) + legs[i].quantity)
    && t.moves == legs[..t.done]
  }

  predicate SessionsSound(s: System) {
    forall id | 0 <= id < |s.sessions| :: DistinctLines(s.sessions[id].lines)
  }

  /** The committed tables are those of the sequential services after the history. */
  ghost predicate Serial(s: System, start: Stock) {
    var seqRun := RunJobs(start, s.history);
    && s.movements == seqRun.movements && s.log == seqRun.log
    && forall k: Key :: Balance(s, k) == OnHand(seqRun.rows, k.0, k.1)
  }

  ghost predicate Inv(s: System, start: Stock) {
    (forall tid | tid in s.txns :: TxnSound(s, tid, s.txns[tid])) && SessionsSound(s) && Serial(s, start)
  }

  // ---------- Jobs run alone ----------

  lemma {:induction false} LegsFromLines(loc: Loc, lines: seq<Line>)
    ensures forall m | m in PostLegs(loc, lines) :: m.loc == loc && HasLine(lines, m.sku)
  {
    if lines != [] {
      var n := |lines| - 1;
      LegsFromLines(loc, lines[..n]);
      forall m | m in PostLegs(loc, lines) ensures HasLine(lines, m.sku) {
        if m in PostLegs(loc, lines[..n]) {
          var j :| 0 <= j < n && lines[..n][j].sku == m.sku;
          assert lines[j].sku == m.sku;
        } else {
          assert lines[n].sku == m.sku;
        }
      }
    }
  }

  lemma {:induction false} DistinctPosts(loc: Loc, lines: seq<Line>)
    requires DistinctLines(lines)
    ensures forall i, j | 0 <= i < j < |PostLegs(loc, lines)| ::
              KeyOf(PostLegs(loc, lines)[i]) != KeyOf(PostLegs(loc, lines)[j])
  {
    if lines != [] {
      var n := |lines| - 1;
      var front := PostLegs(loc, lines[..n]);
      DistinctPosts(loc, lines[..n]);
      LegsFromLines(loc, lines[..n]);
      forall i | 0 <= i < |front| ensures front[i].sku != lines[n].sku {
        assert front[i] in front;
        var j :| 0 <= j < n && lines[..n][j].sku == front[i].sku;
        assert lines[j].sku != lines[n].sku;
      }
    }
  }

  /** No job locks a row twice. */
  lemma DistinctLegs(job: Job)
    requires Accepted(job)
    ensures forall i, j | 0 <= i < j < |Legs(job)| :: KeyOf(Legs(job)[i]) != KeyOf(Legs(job)[j])
  {
    if job.Approving? {
      DistinctPosts(job.loc, job.lines);
    }
  }

  lemma {:induction false} PostAppends(s: Stock, loc: Loc, lines: seq<Line>)
    ensures PostAll(s, loc, lines).movements == s.movements + PostLegs(loc, lines)
    ensures PostAll(s, loc, lines).log == s.log + PostEvents(loc, lines)
  {
    if lines != [] {
      PostAppends(s, loc, lines[..|lines| - 1]);
    }
  }

  lemma MoveAppends(s: Stock, op: Op)
    requires Accepted(Moving(op))
    ensures Attempt(s, op).Some?
    ensures Inventory.Apply(s, op).movements == s.movements + OpLegs(op)
    ensures Inventory.Apply(s, op).log == s.log + [OpEvent(op)]
  {
    match op
    case TransferOp(sku, from, to, q) =>
      assert OpLegs(op) == [Movement(sku, from, Transferred, -q)] + [Movement(sku, to, Transferred, q)];
    case _ =>
  }

  lemma JobAppends(s: Stock, job: Job)
    requires Accepted(job)
    ensures ApplyJob(s, job).movements == s.movements + Legs(job)
    ensures ApplyJob(s, job).log == s.log + EventsOf(job)
  {
    match job
    case Moving(op) => MoveAppends(s, op);
    case Approving(_, loc, lines) => PostAppends(s, loc, lines);
    case _ =>
  }

  lemma JobInTune(s: Stock, job: Job, k: Key)
    requires Accepted(job)
    ensures InTune(s, ApplyJob(s, job), k.0, k.1)
  {
    hide InTune, PostAll, Inventory.Apply;
    match job
    case Moving(op) =>
      MoveAppends(s, op);
      MovedInTune(s, op, k.0, k.1);
    case Approving(id, loc, lines) =>
      var posted, e := PostAll(s, loc, lines), CountApproved(id, loc, |lines|, Postings(lines));
      PostedInTune(s, loc, lines, k.0, k.1);
      ToldInTune(posted, e, k.0, k.1);
      InTuneChain(s, posted, Told(posted, e), k.0, k.1);
    case Starting(id, loc, lines) => ToldInTune(s, CountStarted(id, loc, |lines|), k.0, k.1);
    case Cancelling(id, loc, lines) => ToldInTune(s, CountCancelled(id, loc, CountedLines(lines)), k.0, k.1);
  }

  /** What a job adds to a balance: its legs there. */
  function JobEffect(job: Job, k: Key): int { SumBy(MovedAt(k.0, k.1), Legs(job)) }

  lemma JobOnHand(s: Stock, job: Job, k: Key)
    requires Accepted(job)
    ensures OnHand(ApplyJob(s, job).rows, k.0, k.1) == OnHand(s.rows, k.0, k.1) + JobEffect(job, k)
  {
    hide OnHand, ApplyJob, Legs;
    JobAppends(s, job);
    JobInTune(s, job, k);
    SumConcat(MovedAt(k.0, k.1), s.movements, Legs(job));
  }

  lemma EffectOfLeg(job: Job, i: nat)
    requires Accepted(job) && i < |Legs(job)|
    ensures JobEffect(job, KeyOf(Legs(job)[i])) == Legs(job)[i].quantity
  {
    hide Legs;
    DistinctLegs(job);
    var legs := Legs(job);
    var f, rest := MovedAt(legs[i].sku, legs[i].loc), legs[..i] + legs[i + 1..];
    forall j | 0 <= j < |rest| ensures f(rest[j]) == 0 {
      assert rest[j] == if j < i then legs[j] else legs[j + 1];
      assert KeyOf(rest[j]) != KeyOf(legs[i]);
    }
    SumBounds(f, rest, 0, 0);
    SumRemove(f, legs, i);
  }

  lemma EffectElsewhere(job: Job, k: Key)
    requires forall i | 0 <= i < |Legs(job)| :: KeyOf(Legs(job)[i]) != k
    ensures JobEffect(job, k) == 0
  {
    hide Legs;
    forall i | 0 <= i < |Legs(job)| ensures MovedAt(k.0, k.1)(Legs(job)[i]) == 0 {
      assert KeyOf(Legs(job)[i]) != k;
    }
    SumBounds(MovedAt(k.0, k.1), Legs(job), 0, 0);
  }

  // ---------- Commit ----------

  /** What the committed balances become, key by key. */
  lemma CommitEffect(s: System, tid: Tid, k: Key)
    requires Enabled(s, Commit(tid)) && TxnSound(s, tid, s.txns[tid])
    ensures Balance(Take(s, Commit(tid)), k) == Balance(s, k) + JobEffect(s.txns[tid].job, k)
  {
    hide Legs, JobEffect;
    var t := s.txns[tid];
    var legs := Legs(t.job);
    if k in t.pending {
      var i :| 0 <= i < |legs| && KeyOf(legs[i]) == k;
      assert t.pending[k] == Balance(s, k) + legs[i].quantity;
      EffectOfLeg(t.job, i);
    } else {
      EffectElsewhere(t.job, k);
    }
  }

  lemma RunOneMore(start: Stock, jobs: seq<Job>, job: Job)
    ensures RunJobs(start, jobs + [job]) == ApplyJob(RunJobs(start, jobs), job)
  {
    assert (jobs + [job])[..|jobs|] == jobs;
  }

  lemma CommitMoves(s: System, tid: Tid)
    requires Enabled(s, Commit(tid)) && TxnSound(s, tid, s.txns[tid])
    ensures s.txns[tid].moves == Legs(s.txns[tid].job) && Accepted(s.txns[tid].job)
  {
  }

  lemma CommitSerial(s: System, tid: Tid, start: Stock)
    requires Serial(s, start) && Enabled(s, Commit(tid)) && TxnSound(s, tid, s.txns[tid])
    ensures Serial(Take(s, Commit(tid)), start)
  {
    hide TxnSound, OnHand, Legs, ApplyJob, RunJobs, Balance, JobEffect, Accepted, EventsOf;
    var t, u := s.txns[tid], Take(s, Commit(tid));
    CommitMoves(s, tid);
    RunOneMore(start, s.history, t.job);
    JobAppends(RunJobs(start, s.history), t.job);
    forall k: Key ensures Balance(u, k) == OnHand(RunJobs(start, u.history).rows, k.0, k.1) {
      CommitEffect(s, tid, k);
      JobOnHand(RunJobs(start, s.history), t.job, k);
    }
  }

  // ---------- Every step ----------

  lemma WrittenIsLocked(s: System, tid: Tid, k: Key)
    requires tid in s.txns && TxnSound(s, tid, s.txns[tid]) && k in s.txns[tid].pending
    ensures k in s.locks && s.locks[k] == tid
  {
    var t := s.txns[tid];
    var j :| 0 <= j < Written(t) && KeyOf(Legs(t.job)[j]) == k;
  }

  /** What a transaction needs from the rest of the system. */
  lemma SoundElsewhere(s: System, u: System, tid: Tid, t: Txn)
    requires TxnSound(s, tid, t)
    requires forall k | k in s.locks && s.locks[k] == tid ::
               k in u.locks && u.locks[k] == tid && Balance(u, k) == Balance(s, k)
    ensures TxnSound(u, tid, t)
  {
    hide Legs, Accepted, Balance;
    var legs := Legs(t.job);
    assert forall i | 0 <= i < Locked(t) :: KeyOf(legs[i]) in s.locks && s.locks[KeyOf(legs[i])] == tid;
  }

  /** Another transaction's step does not disturb a transaction: its rows are
      locked, so nobody else commits a write to them. */
  lemma OthersUndisturbed(s: System, step: Step, tid: Tid)
    requires Enabled(s, step) && tid in s.txns && tid != step.tid && TxnSound(s, tid, s.txns[tid])
    requires step.tid in s.txns ==> TxnSound(s, step.tid, s.txns[step.tid])
    ensures tid in Take(s, step).txns && Take(s, step).txns[tid] == s.txns[tid]
    ensures TxnSound(Take(s, step), tid, s.txns[tid])
  {
    hide Legs, TxnSound, Accepted;
    var u := Take(s, step);
    forall k | k in s.locks && s.locks[k] == tid
      ensures k in u.locks && u.locks[k] == tid && Balance(u, k) == Balance(s, k)
    {
      if step.Commit? && k in s.txns[step.tid].pending {
        WrittenIsLocked(s, step.tid, k);
      }
    }
    SoundElsewhere(s, u, tid, s.txns[tid]);
  }

  lemma WriteSound(s: System, tid: Tid, t: Txn)
    requires TxnSound(s, tid, t) && t.phase.Holding? && t.done < |Legs(t.job)|
    ensures TxnSound(s, tid, AfterWrite(t))
  {
    hide Legs, Accepted, KeyOf, Balance;
    var t' := AfterWrite(t);
    var legs := Legs(t.job);
    DistinctLegs(t.job);
    forall k | k in t'.pending
      ensures exists i :: 0 <= i < Written(t') && KeyOf(legs[i]) == k
    {
      if k in t.pending {
        var i :| 0 <= i < Written(t) && KeyOf(legs[i]) == k;
        assert 0 <= i < Written(t') && KeyOf(legs[i]) == k;
      } else {
        assert KeyOf(legs[t.done]) == k;
      }
    }
  }

  lemma OwnWrite(s: System, tid: Tid)
    requires Enabled(s, WriteBalance(tid)) && TxnSound(s, tid, s.txns[tid])
    ensures var u := Take(s, WriteBalance(tid));
            TxnSound(u, tid, u.txns[tid])
  {
    WriteSound(s, tid, s.txns[tid]);
    hide TxnSound, Legs, Accepted, AfterWrite;
    SoundElsewhere(s, Take(s, WriteBalance(tid)), tid, AfterWrite(s.txns[tid]));
  }

  lemma LockSound(s: System, tid: Tid, t: Txn, k: Key)
    requires TxnSound(s, tid, t) && (t.phase == Locking || t.phase == Absent) && t.done < |Legs(t.job)|
    requires k == KeyOf(Legs(t.job)[t.done]) && k !in s.locks
    ensures TxnSound(s.(locks := s.locks[k := tid]), tid, t.(phase := Holding(Balance(s, k))))
  {
    hide Legs, Accepted, KeyOf;
    var legs := Legs(t.job);
    DistinctLegs(t.job);
    assert forall i | 0 <= i < Locked(t) :: KeyOf(legs[i]) in s.locks;
    assert forall k' :: Balance(s.(locks := s.locks[k := tid]), k') == Balance(s, k');
  }

  lemma OwnLock(s: System, step: Step)
    requires step.LockAndRead? || step.InsertRow?
    requires Enabled(s, step) && TxnSound(s, step.tid, s.txns[step.tid])
    ensures var u := Take(s, step);
            step.tid in u.txns ==> TxnSound(u, step.tid, u.txns[step.tid])
  {
    var tid := step.tid;
    var t, k, u := s.txns[tid], NextKey(s, tid), Take(s, step);
    hide TxnSound, Legs, Accepted;
    if tid in u.txns {
      LockSound(s, tid, t, k);
      SoundElsewhere(s.(locks := s.locks[k := tid]), u, tid, u.txns[tid]);
    }
  }

  lemma OwnAppend(s: System, tid: Tid)
    requires Enabled(s, AppendMovement(tid)) && TxnSound(s, tid, s.txns[tid])
    ensures var u := Take(s, AppendMovement(tid));
            TxnSound(u, tid, u.txns[tid])
  {
    hide Legs, Accepted;
    var t := s.txns[tid];
    var legs := Legs(t.job);
    assert legs[..t.done + 1] == legs[..t.done] + [legs[t.done]];
  }

  /** A transaction that begins, or that found no row, has nothing to keep yet. */
  lemma OwnBegin(s: System, step: Step)
    requires step.Begin? || step.StartCount? || step.Enter? || step.FindAbsent?
    requires Enabled(s, step) && SessionsSound(s)
    requires step.tid in s.txns ==> TxnSound(s, step.tid, s.txns[step.tid])
    ensures var u := Take(s, step);
            step.tid in u.txns ==> TxnSound(u, step.tid, u.txns[step.tid])
  {
    hide Legs;
  }

  lemma OwnStep(s: System, step: Step)
    requires Enabled(s, step) && SessionsSound(s)
    requires step.tid in s.txns ==> TxnSound(s, step.tid, s.txns[step.tid])
    ensures var u := Take(s, step);
            step.tid in u.txns ==> TxnSound(u, step.tid, u.txns[step.tid])
  {
    hide Legs, TxnSound, SessionsSound, Accepted;
    match step
    case LockAndRead(_) => OwnLock(s, step);
    case InsertRow(_) => OwnLock(s, step);
    case WriteBalance(tid) => OwnWrite(s, tid);
    case AppendMovement(tid) => OwnAppend(s, tid);
    case Look(_, _) =>
    case Commit(_) =>
    case Abort(_) =>
    case _ => OwnBegin(s, step);
  }

  lemma {:induction false} CountsDistinct(lines: seq<Line>, counts: seq<Count>)
    requires DistinctLines(lines)
    ensures DistinctLines(CountAll(lines, counts))
  {
    if counts != [] {
      CountsDistinct(lines, counts[..|counts| - 1]);
    }
  }

  lemma SessionsStaySound(s: System, step: Step)
    requires Enabled(s, step) && SessionsSound(s)
    ensures SessionsSound(Take(s, step))
  {
    hide DistinctLines, CountAll, Legs;
    if step.Enter? {
      var r := s.looked[step.tid];
      if r.RecountReq? {
        CountsDistinct(s.sessions[r.id].lines, r.counts);
      }
    }
  }

  lemma TakeKeepsInv(s: System, step: Step, start: Stock)
    requires Inv(s, start) && Enabled(s, step)
    ensures Inv(Take(s, step), start)
  {
    hide TxnSound, OnHand, RunJobs, SessionsSound, Legs, Accepted;
    var u := Take(s, step);
    SessionsStaySound(s, step);
    forall tid | tid in u.txns
      ensures TxnSound(u, tid, u.txns[tid])
    {
      if tid == step.tid {
        OwnStep(s, step);
      } else {
        OthersUndisturbed(s, step, tid);
      }
    }
    if step.Commit? {
      CommitSerial(s, step.tid, start);
    }
  }

  /** Nothing running, nothing locked, the balances of `start`. */
  ghost predicate Quiet(s: System, start: Stock) {
    && s.txns == map[] && s.looked == map[] && s.locks == map[] && s.history == [] && SessionsSound(s)
    && s.movements == start.movements && s.log == start.log
    && forall k: Key :: Balance(s, k) == OnHand(start.rows, k.0, k.1)
  }

  /** Under every interleaving the committed balances, movements and events are
      those of the committed jobs run one after the other in commit order. */
  lemma {:induction false} Serializable(s: System, start: Stock, steps: seq<Step>)
    requires Quiet(s, start)
    ensures Inv(Interleave(s, steps), start)
  {
    hide TxnSound, OnHand, SessionsSound;
    if steps == [] {
      assert RunJobs(start, []) == start;
    } else {
      var front := steps[..|steps| - 1];
      Serializable(s, start, front);
      if Enabled(Interleave(s, front), steps[|steps| - 1]) {
        TakeKeepsInv(Interleave(s, front), steps[|steps| - 1], start);
      }
    }
  }

  /** Hence no update is lost: each balance, of a row that was there or not, is its
      starting value plus all the quantities committed for it since. */
  lemma NoLostUpdate(s: System, start: Stock, steps: seq<Step>, k: Key)
    requires Quiet(s, start)
    ensures var u := Interleave(s, steps);
            && |start.movements| <= |u.movements| && u.movements[..|start.movements|] == start.movements
            && Balance(u, k) == Balance(s, k) + SumBy(MovedAt(k.0, k.1), u.movements[|start.movements|..])
            && Balance(u, k) == Balance(s, k) + SumBy(EffectAt(k), u.history)
  {
    hide OnHand, Balance, SessionsSound, TxnSound, Interleave;
    var u := Interleave(s, steps);
    Serializable(s, start, steps);
    AllAccepted(s, steps);
    HistoryLaw(start, u.history, k);
    var n := |start.movements|;
    assert u.movements == start.movements + u.movements[n..];
    SumConcat(MovedAt(k.0, k.1), start.movements, u.movements[n..]);
  }

  function EffectAt(k: Key): Job -> int {
    (job: Job) => JobEffect(job, k)
  }

  predicate HistoryAccepted(jobs: seq<Job>) {
    forall i | 0 <= i < |jobs| :: Accepted(jobs[i])
  }

  predicate Running(s: System) {
    && (forall tid | tid in s.txns :: Accepted(s.txns[tid].job)) && HistoryAccepted(s.history) && SessionsSound(s)
  }

  lemma StepRunning(s: System, step: Step)
    requires Running(s)
    ensures Running(Try(s, step))
  {
    hide Legs, AfterWrite, Closed, EventsOf, CountAll, Released, SnapshotOf;
    if Enabled(s, step) {
      SessionsStaySound(s, step);
    }
  }

  lemma {:induction false} AllAccepted(s: System, steps: seq<Step>)
    requires s.txns == map[] && s.history == [] && SessionsSound(s)
    ensures Running(Interleave(s, steps))
  {
    hide Try, SessionsSound, Accepted;
    if steps != [] {
      AllAccepted(s, steps[..|steps| - 1]);
      StepRunning(Interleave(s, steps[..|steps| - 1]), steps[|steps| - 1]);
    }
  }

  lemma {:induction false} HistoryLaw(s: Stock, jobs: seq<Job>, k: Key)
    requires HistoryAccepted(jobs)
    ensures var t := RunJobs(s, jobs);
            && |s.movements| <= |t.movements| && t.movements[..|s.movements|] == s.movements
            && OnHand(t.rows, k.0, k.1) - Ledger(t, k.0, k.1) == OnHand(s.rows, k.0, k.1) - Ledger(s, k.0, k.1)
            && OnHand(t.rows, k.0, k.1) == OnHand(s.rows, k.0, k.1) + SumBy(EffectAt(k), jobs)
  {
    hide OnHand, ApplyJob, JobEffect, Ledger, Accepted, Legs;
    if jobs != [] {
      var before, last := RunJobs(s, jobs[..|jobs| - 1]), jobs[|jobs| - 1];
      HistoryLaw(s, jobs[..|jobs| - 1], k);
      JobAppends(before, last);
      JobInTune(before, last, k);
      JobOnHand(before, last, k);
    }
  }
}
