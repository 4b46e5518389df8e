/** The other direction of serializability: whatever inventory and count requests do
    one after the other is an interleaving, so an undisturbed transaction gets
    through its locks to its commit and does what the services do. */
module StockProgress {
  import opened Options
  import opened Inventory
  import opened PhysicalCounts
  import opened StockConcurrency
  import opened CountRaces

  /** A job changes stock and sessions as the service request does that it stands for,
      and is accepted when that is. */
  lemma JobsAreRequests(d: Desk, op: Op, loc: Loc, id: nat)
    ensures Accepted(Moving(op)) <==> Attempt(d.stock, op).Some?
    ensures Accepted(Moving(op)) ==> ApplyJob(d.stock, Moving(op)) == Attempt(d.stock, op).value
    ensures ApplyJob(d.stock, Starting(|d.sessions|, loc, Snapshot(d.stock.rows, loc))) == Start(d, loc).stock
    ensures Open(d, id) ==>
              var c := d.sessions[id];
              var approving, cancelling := Approving(id, c.loc, c.lines), Cancelling(id, c.loc, c.lines);
              && Approve(d, id) == Some(Desk(ApplyJob(d.stock, approving), Closed(d.sessions, approving)))
              && Cancel(d, id) == Some(Desk(ApplyJob(d.stock, cancelling), Closed(d.sessions, cancelling)))
  {
    hide PostAll, Postings, CountedLines, Snapshot, Recorded, Move;
  }

  // ---------- One leg ----------

  function LegKeys(legs: seq<Movement>): set<Key> {
    set i | 0 <= i < |legs| :: KeyOf(legs[i])
  }

  function Acquire(s: System, tid: Tid): seq<Step>
    requires At(s, tid, Locking)
  {
    if NextKey(s, tid) in s.balance then [LockAndRead(tid)] else [FindAbsent(tid), InsertRow(tid)]
  }

  /** `tid` alone is running, between two legs, and only its earlier rows are locked. */
  predicate Ready(s: System, tid: Tid) {
    && s.txns.Keys == {tid} && s.txns[tid].phase == Locking
    && Accepted(s.txns[tid].job) && s.txns[tid].done <= |Legs(s.txns[tid].job)|
    && s.txns[tid].pending.Keys == LegKeys(Legs(s.txns[tid].job)[..s.txns[tid].done])
    && s.locks.Keys == s.txns[tid].pending.Keys && forall k | k in s.locks :: s.locks[k] == tid
  }

  lemma NextUnlocked(s: System, tid: Tid)
    requires Ready(s, tid) && At(s, tid, Locking)
    ensures NextKey(s, tid) !in s.locks
  {
    DistinctLegs(s.txns[tid].job);
  }

  lemma FindsRow(s: System, tid: Tid)
    requires At(s, tid, Locking) && NextKey(s, tid) !in s.locks && NextKey(s, tid) in s.balance
    ensures var k, t := NextKey(s, tid), s.txns[tid];
            Try(s, LockAndRead(tid)) ==
              s.(locks := s.locks[k := tid], txns := s.txns[tid := t.(phase := Holding(s.balance[k]))])
  {
    hide Legs, Closed, EventsOf, CountAll, SnapshotOf, Released, AfterWrite, Accepted;
  }

  lemma MakesRow(s: System, tid: Tid)
    requires At(s, tid, Locking) && NextKey(s, tid) !in s.locks && NextKey(s, tid) !in s.balance
    ensures var k, t := NextKey(s, tid), s.txns[tid];
            Try(Try(s, FindAbsent(tid)), InsertRow(tid)) ==
              s.(locks := s.locks[k := tid], txns := s.txns[tid := t.(phase := Holding(0))])
  {
    hide Legs, Closed, EventsOf, CountAll, SnapshotOf, Released, AfterWrite, Accepted;
    var t, u := s.txns[tid], Try(s, FindAbsent(tid));
    assert u == s.(txns := s.txns[tid := t.(phase := Absent)]);
    assert u.txns[tid := t.(phase := Holding(0))] == s.txns[tid := t.(phase := Holding(0))];
  }

  lemma Acquires(s: System, tid: Tid)
    requires At(s, tid, Locking) && NextKey(s, tid) !in s.locks
    ensures var k, t := NextKey(s, tid), s.txns[tid];
            Interleave(s, Acquire(s, tid)) ==
              s.(locks := s.locks[k := tid], txns := s.txns[tid := t.(phase := Holding(Balance(s, k)))])
  {
    hide Legs, Try, Interleave;
    if NextKey(s, tid) in s.balance {
      FindsRow(s, tid);
      OneStep(s, LockAndRead(tid));
    } else {
      MakesRow(s, tid);
      TwoSteps(s, FindAbsent(tid), InsertRow(tid));
    }
  }

  lemma WritesRow(s: System, tid: Tid)
    requires tid in s.txns && s.txns[tid].phase.Holding? && s.txns[tid].done < |Legs(s.txns[tid].job)|
    ensures var t, m := s.txns[tid], Legs(s.txns[tid].job)[s.txns[tid].done];
            var u := Txn(t.job, t.done + 1, Locking, t.pending[KeyOf(m) := t.phase.seen + m.quantity], t.moves + [m]);
            Try(Try(s, WriteBalance(tid)), AppendMovement(tid)) == s.(txns := s.txns[tid := u])
  {
    hide Legs, Closed, EventsOf, CountAll, SnapshotOf, Released, Accepted;
    var u := Try(s, WriteBalance(tid));
    assert u == s.(txns := s.txns[tid := AfterWrite(s.txns[tid])]);
    assert u.txns[tid] == AfterWrite(s.txns[tid]);
  }

  lemma OneStep(s: System, a: Step)
    ensures Interleave(s, [a]) == Try(s, a)
  {
    hide Try;
    assert [a][..0] == [];
  }

  lemma LegRuns(s: System, tid: Tid)
    requires Ready(s, tid) && At(s, tid, Locking)
    ensures var u, t := Interleave(s, Acquire(s, tid) + [WriteBalance(tid), AppendMovement(tid)]), s.txns[tid];
            && Ready(u, tid)
            && u.txns[tid].job == t.job && u.txns[tid].done == t.done + 1
            && u == s.(locks := u.locks, txns := u.txns)
  {
    hide Legs, Accepted, Try, Interleave, Acquire, LegKeys;
    var t, k, legs := s.txns[tid], NextKey(s, tid), Legs(s.txns[tid].job);
    NextUnlocked(s, tid);
    Acquires(s, tid);
    InterleaveConcat(s, Acquire(s, tid), [WriteBalance(tid), AppendMovement(tid)]);
    var held := Interleave(s, Acquire(s, tid));
    TwoSteps(held, WriteBalance(tid), AppendMovement(tid));
    WritesRow(held, tid);
    assert legs[..t.done + 1] == legs[..t.done] + [legs[t.done]];
    KeysPush(legs[..t.done], legs[t.done]);
  }

  lemma KeysPush(legs: seq<Movement>, m: Movement)
    ensures LegKeys(legs + [m]) == LegKeys(legs) + {KeyOf(m)}
  {
    forall i | 0 <= i < |legs| ensures KeyOf(legs[i]) in LegKeys(legs + [m]) {
      assert (legs + [m])[i] == legs[i];
    }
    assert (legs + [m])[|legs|] == m;
  }

  // ---------- One transaction ----------

  /** `job` has been committed, and nothing else has changed. */
  predicate Committed(s: System, u: System, job: Job) {
    && u.history == s.history + [job] && u.txns.Keys == {} && u.locks.Keys == {} && u.looked.Keys == s.looked.Keys
    && u.sessions == Closed(s.sessions, job) && u.hidden == Shown(s.hidden, job)
    && u.balance.Keys == s.balance.Keys + LegKeys(Legs(job))
  }

  lemma CommitRuns(s: System, tid: Tid)
    requires Ready(s, tid) && s.txns[tid].done == |Legs(s.txns[tid].job)|
    ensures Committed(s, Try(s, Commit(tid)), s.txns[tid].job)
  {
    hide Legs, Closed, EventsOf, LegKeys, Accepted;
    assert Legs(s.txns[tid].job)[..s.txns[tid].done] == Legs(s.txns[tid].job);
  }

  lemma {:induction false} Commits(s: System, tid: Tid)
    requires Ready(s, tid)
    ensures exists steps :: Committed(s, Interleave(s, steps), s.txns[tid].job)
    decreases |Legs(s.txns[tid].job)| - s.txns[tid].done
  {
    hide Legs, LegKeys, Closed, Accepted, Try, Interleave;
    if s.txns[tid].done == |Legs(s.txns[tid].job)| {
      CommitRuns(s, tid);
      OneStep(s, Commit(tid));
    } else {
      var leg := Acquire(s, tid) + [WriteBalance(tid), AppendMovement(tid)];
      var mid := Interleave(s, leg);
      LegRuns(s, tid);
      Commits(mid, tid);
      var rest :| Committed(mid, Interleave(mid, rest), s.txns[tid].job);
      InterleaveConcat(s, leg, rest);
      assert Committed(s, Interleave(s, leg + rest), s.txns[tid].job);
    }
  }

  predicate Idle(s: System) {
    s.txns.Keys == {} && s.locks.Keys == {} && s.looked.Keys == {} && s.hidden == {}
  }

  /** With nobody else at work, a transaction that begins is committed. */
  lemma BeginCommits(s: System, first: seq<Step>, tid: Tid, job: Job)
    requires Accepted(job)
    requires var u := Interleave(s, first);
             u.txns.Keys == {tid} && u.txns[tid] == Txn(job, 0, Locking, map[], []) && u.locks.Keys == {}
    ensures var u := Interleave(s, first);
            exists steps :: Committed(u, Interleave(s, steps), job)
  {
    hide Interleave, Legs, Accepted, Closed;
    var u := Interleave(s, first);
    assert LegKeys(Legs(job)[..0]) == {};
    Commits(u, tid);
    var rest :| Committed(u, Interleave(u, rest), job);
    InterleaveConcat(s, first, rest);
    assert Committed(u, Interleave(s, first + rest), job);
  }

  lemma OpCommits(s: System, tid: Tid, op: Op)
    requires Idle(s) && Accepted(Moving(op))
    ensures exists steps :: Committed(s, Interleave(s, steps), Moving(op))
  {
    hide Legs, Accepted;
    OneStep(s, Begin(tid, op));
    hide Interleave;
    BeginCommits(s, [Begin(tid, op)], tid, Moving(op));
    var steps :| Committed(Try(s, Begin(tid, op)), Interleave(s, steps), Moving(op));
    assert Committed(s, Interleave(s, steps), Moving(op));
  }

  /** The session of a start is open for requests from the commit on, not before. */
  lemma StartCommits(s: System, tid: Tid, loc: Loc, lines: seq<Line>)
    requires Idle(s) && SnapshotOf(s.balance, loc, lines)
    ensures var id, begun := |s.sessions|, Try(s, StartCount(tid, loc, lines));
            && begun.sessions == s.sessions + [Session(loc, InProgress, lines)]
            && (forall other, r: Request | r.id == id :: !Enabled(begun, Look(other, r)))
            && exists steps ::
                 var u := Interleave(s, steps);
                 && Committed(begun, u, Starting(id, loc, lines)) && u.sessions == begun.sessions && u.hidden == {}
  {
    hide SnapshotOf, Legs;
    var id, begun := |s.sessions|, Try(s, StartCount(tid, loc, lines));
    OneStep(s, StartCount(tid, loc, lines));
    hide Interleave;
    BeginCommits(s, [StartCount(tid, loc, lines)], tid, Starting(id, loc, lines));
    var steps :| Committed(begun, Interleave(s, steps), Starting(id, loc, lines));
    assert Interleave(s, steps).sessions == begun.sessions && Interleave(s, steps).hidden == {};
  }

  lemma RecountRuns(s: System, tid: Tid, id: nat, counts: seq<Count>)
    requires Idle(s) && id < |s.sessions| && s.sessions[id].status == InProgress
    ensures var c := s.sessions[id];
            var u := Interleave(s, [Look(tid, RecountReq(id, counts)), Enter(tid)]);
            && Idle(u)
            && u == s.(sessions := s.sessions[id := c.(lines := CountAll(c.lines, counts))], looked := u.looked)
  {
    hide CountAll;
    TwoSteps(s, Look(tid, RecountReq(id, counts)), Enter(tid));
  }

  lemma ClosingCommits(s: System, tid: Tid, r: Request)
    requires Idle(s) && !r.RecountReq? && r.id < |s.sessions| && s.sessions[r.id].status == InProgress
    requires SessionsSound(s)
    ensures exists steps :: Committed(s, Interleave(s, steps), JobOf(s, r))
  {
    hide Legs;
    var first, job := [Look(tid, r), Enter(tid)], JobOf(s, r);
    TwoSteps(s, Look(tid, r), Enter(tid));
    var u := Interleave(s, first);
    hide Interleave;
    BeginCommits(s, first, tid, job);
    var steps :| Committed(u, Interleave(s, steps), job);
    assert Committed(s, Interleave(s, steps), job);
  }

  /** An abort at any point leaves the tables as they were and frees what was locked. */
  lemma AbortReleases(s: System, tid: Tid)
    requires Enabled(s, Abort(tid))
    ensures var u := Try(s, Abort(tid));
            && u == s.(locks := u.locks, txns := u.txns, looked := u.looked)
            && u.txns.Keys == s.txns.Keys - {tid} && u.looked.Keys == s.looked.Keys - {tid}
            && (forall t | t in u.txns :: u.txns[t] == s.txns[t])
            && (forall t | t in u.looked :: u.looked[t] == s.looked[t])
            && (forall k :: k in u.locks <==> k in s.locks && s.locks[k] != tid)
            && (forall k | k in u.locks :: u.locks[k] == s.locks[k])
  {
  }

  // ---------- The rows a job touches ----------

  function RowKeys(rows: seq<StockRow>): set<Key> {
    set i | 0 <= i < |rows| :: (rows[i].sku, rows[i].loc)
  }

  lemma MoveKeys(s: Stock, sku: Sku, loc: Loc, kind: Kind, q: int)
    ensures RowKeys(Move(s, sku, loc, kind, q).rows) == RowKeys(s.rows) + {(sku, loc)}
  {
    var rows, i := Move(s, sku, loc, kind, q).rows, FindRow(s.rows, sku, loc);
    assert rows[i].sku == sku && rows[i].loc == loc;
    forall j | 0 <= j < |s.rows|
      ensures (s.rows[j].sku, s.rows[j].loc) in RowKeys(rows)
    {
      assert rows[j].sku == s.rows[j].sku && rows[j].loc == s.rows[j].loc;
    }
    forall j | 0 <= j < |rows| && j != i
      ensures (rows[j].sku, rows[j].loc) in RowKeys(s.rows)
    {
      assert rows[j] == s.rows[j];
    }
  }

  lemma {:induction false} PostKeys(s: Stock, loc: Loc, lines: seq<Line>)
    ensures RowKeys(PostAll(s, loc, lines).rows) == RowKeys(s.rows) + LegKeys(PostLegs(loc, lines))
  {
    hide Move, RowKeys, LegKeys;
    if lines == [] {
      NoKeys();
    } else {
      var n, l := |lines| - 1, lines[|lines| - 1];
      PostKeys(s, loc, lines[..n]);
      if Posts(l) {
        MoveKeys(PostAll(s, loc, lines[..n]), l.sku, loc, Adjusted, l.variance.value);
        KeysPush(PostLegs(loc, lines[..n]), Movement(l.sku, loc, Adjusted, l.variance.value));
      } else {
        assert PostLegs(loc, lines) == PostLegs(loc, lines[..n]);
      }
    }
  }

  lemma NoKeys()
    ensures LegKeys([]) == {}
  {
  }

  lemma OneKey(m: Movement)
    ensures LegKeys([m]) == {KeyOf(m)}
  {
    assert [] + [m] == [m];
    KeysPush([], m);
  }

  lemma OpKeys(s: Stock, op: Op)
    requires Accepted(Moving(op))
    ensures RowKeys(Inventory.Apply(s, op).rows) == RowKeys(s.rows) + LegKeys(OpLegs(op))
  {
    hide Move, RowKeys, LegKeys;
    match op
    case ReceiveOp(sku, loc, q) =>
      MoveKeys(s, sku, loc, Received, q);
      OneKey(Movement(sku, loc, Received, q));
    case SellOp(sku, loc, q) =>
      MoveKeys(s, sku, loc, Sold, -q);
      OneKey(Movement(sku, loc, Sold, -q));
    case AdjustOp(sku, loc, q) =>
      MoveKeys(s, sku, loc, Adjusted, q);
      OneKey(Movement(sku, loc, Adjusted, q));
    case TransferOp(sku, from, to, q) =>
      var a, b := Movement(sku, from, Transferred, -q), Movement(sku, to, Transferred, q);
      MoveKeys(s, sku, from, Transferred, -q);
      MoveKeys(Move(s, sku, from, Transferred, -q), sku, to, Transferred, q);
      OneKey(a);
      KeysPush([a], b);
      assert [a] + [b] == [a, b];
  }

  lemma JobKeys(s: Stock, job: Job)
    requires Accepted(job) && UniqueRows(s.rows)
    ensures RowKeys(ApplyJob(s, job).rows) == RowKeys(s.rows) + LegKeys(Legs(job))
    ensures UniqueRows(ApplyJob(s, job).rows)
  {
    hide RowKeys, LegKeys, UniqueRows, PostAll, Inventory.Apply, OpLegs, PostLegs;
    match job
    case Moving(op) =>
      OpKeys(s, op);
      MoveAppends(s, op);
      Inventory.StepLaw(s, op);
    case Approving(_, loc, lines) =>
      PostKeys(s, loc, lines);
      PostAllLaw(s, loc, lines);
    case _ => NoKeys();
  }

  // ---------- Every sequential run ----------

  /** Nobody is at work, and the committed tables are those of the desk. */
  ghost predicate Shows(s: System, d: Desk) {
    && Idle(s) && s.sessions == d.sessions && s.movements == d.stock.movements && s.log == d.stock.log
    && s.balance.Keys == RowKeys(d.stock.rows)
    && forall k: Key :: Balance(s, k) == OnHand(d.stock.rows, k.0, k.1)
  }

  ghost predicate Follows(s: System, d: Desk, start: Stock) {
    Shows(s, d) && Inv(s, start) && RunJobs(start, s.history) == d.stock && UniqueRows(d.stock.rows)
  }

  lemma {:induction false} InvThroughout(s: System, start: Stock, steps: seq<Step>)
    requires Inv(s, start)
    ensures Inv(Interleave(s, steps), start)
  {
    hide Inv;
    if steps != [] {
      var before := Interleave(s, steps[..|steps| - 1]);
      InvThroughout(s, start, steps[..|steps| - 1]);
      if Enabled(before, steps[|steps| - 1]) {
        TakeKeepsInv(before, steps[|steps| - 1], start);
      }
    }
  }

  /** A committed job leads from desk to desk. */
  lemma JobFollows(s: System, mid: System, d: Desk, start: Stock, steps: seq<Step>, job: Job)
    requires Follows(s, d, start) && Accepted(job)
    requires Committed(mid, Interleave(s, steps), job)
    requires mid == s.(sessions := mid.sessions, hidden := mid.hidden, txns := mid.txns) && Shown(mid.hidden, job) == {}
    ensures Follows(Interleave(s, steps), Desk(ApplyJob(d.stock, job), Closed(mid.sessions, job)), start)
  {
    hide Interleave, ApplyJob, Legs, Accepted, Closed, RowKeys, LegKeys, UniqueRows, OnHand, TxnSound, RunJobs,
         SessionsSound, Balance;
    InvThroughout(s, start, steps);
    RunOneMore(start, s.history, job);
    JobKeys(d.stock, job);
  }

  /** What a count session starts with is a snapshot of the committed balances. */
  lemma SnapshotMatches(s: System, d: Desk, start: Stock, loc: Loc)
    requires Follows(s, d, start)
    ensures SnapshotOf(s.balance, loc, Snapshot(d.stock.rows, loc))
  {
    var rows, lines := d.stock.rows, Snapshot(d.stock.rows, loc);
    assert UniqueRows(rows) && s.balance.Keys == RowKeys(rows);
    assert forall k: Key :: Balance(s, k) == OnHand(rows, k.0, k.1);
    SnapshotLines(rows, loc);
    SnapshotCovers(rows, loc);
    hide Inv, Snapshot, OnHand;
    forall i | 0 <= i < |lines|
      ensures (lines[i].sku, loc) in s.balance
      ensures lines[i] == Line(lines[i].sku, s.balance[(lines[i].sku, loc)], None, None)
    {
      var j :| 0 <= j < |rows| && rows[j] == StockRow(lines[i].sku, loc, lines[i].system);
      assert (rows[j].sku, rows[j].loc) in RowKeys(rows);
      RowIsBalance(rows, j);
      assert Balance(s, (lines[i].sku, loc)) == lines[i].system;
    }
    forall k | k in s.balance && k.1 == loc ensures HasLine(lines, k.0) {
      var j :| 0 <= j < |rows| && (rows[j].sku, rows[j].loc) == k;
      assert HasLine(lines, rows[j].sku);
    }
  }

  lemma StartFollows(s: System, d: Desk, start: Stock, loc: Loc, tid: Tid)
    requires Follows(s, d, start)
    ensures exists steps :: Follows(Interleave(s, steps), Start(d, loc), start)
  {
    var lines := Snapshot(d.stock.rows, loc);
    SnapshotMatches(s, d, start, loc);
    StartCommits(s, tid, loc, lines);
    var mid, job := Try(s, StartCount(tid, loc, lines)), Starting(|s.sessions|, loc, lines);
    JobsAreRequests(d, AdjustOp(0, 0, 0), loc, 0);
    hide Interleave, Inv, Snapshot, SnapshotOf, RunJobs, RowKeys, OnHand, Legs;
    var steps :| Committed(mid, Interleave(s, steps), job) && Interleave(s, steps).hidden == {};
    JobFollows(s, mid, d, start, steps, job);
    assert Follows(Interleave(s, steps), Start(d, loc), start);
  }

  lemma ClosingFollows(s: System, d: Desk, start: Stock, r: Request, tid: Tid)
    requires Follows(s, d, start) && !r.RecountReq? && Open(d, r.id)
    ensures exists steps ::
              Follows(Interleave(s, steps), Act(d, if r.ApproveReq? then ApproveOp(r.id) else CancelOp(r.id)), start)
  {
    hide Interleave, Inv, RunJobs, RowKeys, OnHand, Legs, ApplyJob, Closed, Committed, DistinctLines;
    InvSessions(s, start);
    ClosingCommits(s, tid, r);
    var job := JobOf(s, r);
    var steps :| Committed(s, Interleave(s, steps), job);
    JobFollows(s, s, d, start, steps, job);
    ClosingIsRequest(s, d, r);
    hide Follows, Act, JobOf, Idle;
    assert Follows(Interleave(s, steps), Act(d, if r.ApproveReq? then ApproveOp(r.id) else CancelOp(r.id)), start);
  }

  lemma ClosingIsRequest(s: System, d: Desk, r: Request)
    requires s.sessions == d.sessions && !r.RecountReq? && Open(d, r.id)
    ensures var job := JobOf(s, r);
            Act(d, if r.ApproveReq? then ApproveOp(r.id) else CancelOp(r.id)) ==
              Desk(ApplyJob(d.stock, job), Closed(d.sessions, job))
  {
    hide ApplyJob, Closed, Approve, Cancel;
    JobsAreRequests(d, AdjustOp(0, 0, 0), 0, r.id);
  }

  lemma InvSessions(s: System, start: Stock)
    requires Inv(s, start)
    ensures SessionsSound(s)
  {
  }

  lemma RecountFollows(s: System, d: Desk, start: Stock, id: nat, counts: seq<Count>, tid: Tid)
    requires Follows(s, d, start) && Open(d, id)
    ensures exists steps :: Follows(Interleave(s, steps), Act(d, RecordOp(id, counts)), start)
  {
    var steps := [Look(tid, RecountReq(id, counts)), Enter(tid)];
    RecountRuns(s, tid, id, counts);
    InvThroughout(s, start, steps);
    hide Interleave, Inv, RunJobs, RowKeys, OnHand, CountAll;
    assert Follows(Interleave(s, steps), Act(d, RecordOp(id, counts)), start);
  }

  lemma OpFollows(s: System, d: Desk, start: Stock, op: Op, tid: Tid)
    requires Follows(s, d, start) && Attempt(d.stock, op).Some?
    ensures exists steps :: Follows(Interleave(s, steps), Act(d, StockOp(op)), start)
  {
    JobsAreRequests(d, op, 0, 0);
    OpCommits(s, tid, op);
    hide Interleave, Inv, RunJobs, RowKeys, OnHand, Legs, ApplyJob, Attempt, Accepted;
    var steps :| Committed(s, Interleave(s, steps), Moving(op));
    JobFollows(s, s, d, start, steps, Moving(op));
    assert Follows(Interleave(s, steps), Act(d, StockOp(op)), start);
  }

  lemma OneFollows(s: System, d: Desk, start: Stock, op: DeskOp)
    requires Follows(s, d, start)
    ensures exists steps :: Follows(Interleave(s, steps), Act(d, op), start)
  {
    hide Interleave, Follows, Attempt;
    if Do(d, op).None? {
      NoSteps(s);
      assert Follows(Interleave(s, []), Act(d, op), start);
    } else {
      match op
      case StockOp(o) => OpFollows(s, d, start, o, 0);
      case StartOp(loc) => StartFollows(s, d, start, loc, 0);
      case RecordOp(id, counts) => RecountFollows(s, d, start, id, counts, 0);
      case ApproveOp(id) => ClosingFollows(s, d, start, ApproveReq(id), 0);
      case CancelOp(id) => ClosingFollows(s, d, start, CancelReq(id), 0);
    }
  }

  lemma NoSteps(s: System)
    ensures Interleave(s, []) == s
  {
  }

  lemma {:induction false} EveryFollows(s: System, start: Stock, ops: seq<DeskOp>)
    requires Quiet(s, start) && Shows(s, Desk(start, s.sessions)) && UniqueRows(start.rows)
    ensures exists steps :: Follows(Interleave(s, steps), ActAll(Desk(start, s.sessions), ops), start)
  {
    if ops == [] {
      NoSteps(s);
      assert RunJobs(start, []) == start;
      assert Follows(Interleave(s, []), Desk(start, s.sessions), start);
    } else {
      hide Interleave, Follows, Act, Quiet, Shows, UniqueRows;
      var d := ActAll(Desk(start, s.sessions), ops[..|ops| - 1]);
      EveryFollows(s, start, ops[..|ops| - 1]);
      var first :| Follows(Interleave(s, first), d, start);
      OneFollows(Interleave(s, first), d, start, ops[|ops| - 1]);
      var next :| Follows(Interleave(Interleave(s, first), next), Act(d, ops[|ops| - 1]), start);
      InterleaveConcat(s, first, next);
      assert Follows(Interleave(s, first + next), ActAll(Desk(start, s.sessions), ops), start);
    }
  }

  /** Every run of stock operations and count requests, one after the other, is what
      some interleaving commits: balances, movements, events and sessions. */
  lemma EveryRun(s: System, start: Stock, ops: seq<DeskOp>)
    requires Quiet(s, start) && Shows(s, Desk(start, s.sessions)) && UniqueRows(start.rows)
    ensures exists steps :: Shows(Interleave(s, steps), ActAll(Desk(start, s.sessions), ops))
  {
    hide Interleave, Quiet, Shows, UniqueRows;
    EveryFollows(s, start, ops);
    var steps :| Follows(Interleave(s, steps), ActAll(Desk(start, s.sessions), ops), start);
    assert Shows(Interleave(s, steps), ActAll(Desk(start, s.sessions), ops));
  }
}
