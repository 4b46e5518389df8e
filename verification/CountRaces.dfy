/** Approvals and cancellations of a count session that overlap. The status test of
    a request and the transaction that closes the session are separate steps, and the
    transaction does not test again. */
module CountRaces {
  import opened Options
  import opened Sums
  import opened Inventory
  import opened PhysicalCounts
  import opened StockConcurrency

  predicate Closes(job: Job, id: nat) {
    (job.Approving? || job.Cancelling?) && job.id == id
  }

  function ClosesOne(id: nat): Job -> int {
    (job: Job) => if Closes(job, id) then 1 else 0
  }

  /** How often session `id` has been approved or cancelled. */
  function Closings(history: seq<Job>, id: nat): int { SumBy(ClosesOne(id), history) }

  predicate StillOpen(s: System, id: nat) {
    id < |s.sessions| && s.sessions[id].status == InProgress
  }

  /** The state before step `j` of a run. */
  function Before(s: System, steps: seq<Step>, j: nat): System
    requires j <= |steps|
  {
    Interleave(s, steps[..j])
  }

  /** Step `j` commits an approval or cancellation of session `id`. */
  predicate ClosesAt(s: System, steps: seq<Step>, j: nat, id: nat)
    requires j < |steps|
  {
    var b := Before(s, steps, j);
    steps[j].Commit? && Enabled(b, steps[j]) && Closes(b.txns[steps[j].tid].job, id)
  }

  /** Step `i` reads the status of session `id` for transaction `tid`. */
  predicate LooksAt(s: System, steps: seq<Step>, i: nat, tid: Tid, id: nat)
    requires i < |steps|
  {
    steps[i].Look? && steps[i].tid == tid && steps[i].request.id == id && Enabled(Before(s, steps, i), steps[i])
  }

  /** The last status read of `tid` on `id` before step `j`, or `j`. */
  function LastLook(s: System, steps: seq<Step>, j: nat, tid: Tid, id: nat): (i: nat)
    requires j <= |steps|
    ensures i <= j
    ensures i < j ==> LooksAt(s, steps, i, tid, id)
    decreases j
  {
    if j == 0 then 0
    else if LooksAt(s, steps, j - 1, tid, id) then j - 1
    else
      var i := LastLook(s, steps, j - 1, tid, id);
      if i == j - 1 then j else i
  }

  // ---------- One step ----------

  lemma StepBefore(s: System, steps: seq<Step>, j: nat)
    requires j < |steps|
    ensures Before(s, steps, j + 1) == Try(Before(s, steps, j), steps[j])
  {
    assert steps[..j + 1][..j] == steps[..j];
  }

  /** A session that is closed stays closed, and only a committed approval or
      cancellation of it closes it. */
  lemma StepStatus(s: System, step: Step, id: nat)
    requires id < |s.sessions|
    ensures var u, closing := Try(s, step), step.Commit? && Enabled(s, step) && Closes(s.txns[step.tid].job, id);
            && |s.sessions| <= |u.sessions|
            && (StillOpen(u, id) <==> StillOpen(s, id) && !closing)
            && Closings(u.history, id) == Closings(s.history, id) + (if closing then 1 else 0)
  {
    hide Legs, CountAll;
    if step.Commit? && Enabled(s, step) {
      SumPush(ClosesOne(id), s.history, s.txns[step.tid].job);
    }
  }

  /** The same at a step of a run. */
  lemma StatusBefore(s: System, steps: seq<Step>, j: nat, id: nat)
    requires j < |steps| && id < |Before(s, steps, j).sessions|
    ensures var b, u := Before(s, steps, j), Before(s, steps, j + 1);
            && |b.sessions| <= |u.sessions|
            && (StillOpen(u, id) <==> StillOpen(b, id) && !ClosesAt(s, steps, j, id))
            && Closings(u.history, id) == Closings(b.history, id) + (if ClosesAt(s, steps, j, id) then 1 else 0)
  {
    StepBefore(s, steps, j);
    StepStatus(Before(s, steps, j), steps[j], id);
  }

  /** Between two points of a run a session stays open exactly if no approval or
      cancellation of it commits there. */
  lemma {:induction false} OpenBetween(s: System, steps: seq<Step>, i: nat, j: nat, id: nat)
    requires i <= j <= |steps| && id < |Before(s, steps, i).sessions|
    ensures |Before(s, steps, i).sessions| <= |Before(s, steps, j).sessions|
    ensures StillOpen(Before(s, steps, j), id) <==>
              StillOpen(Before(s, steps, i), id) && forall k | i <= k < j :: !ClosesAt(s, steps, k, id)
    decreases j
  {
    hide Before, ClosesAt, StillOpen;
    if i < j {
      OpenBetween(s, steps, i, j - 1, id);
      StatusBefore(s, steps, j - 1, id);
    }
  }

  lemma AtStart(s: System, steps: seq<Step>)
    ensures Before(s, steps, 0) == s
  {
    assert steps[..0] == [];
  }

  /** Counting the closings of a run. */
  lemma {:induction false} ClosingsCount(s: System, steps: seq<Step>, j: nat, id: nat)
    requires j <= |steps| && id < |s.sessions| && Closings(s.history, id) == 0
    ensures 0 <= Closings(Before(s, steps, j).history, id)
    ensures Closings(Before(s, steps, j).history, id) == 0 <==> forall k | 0 <= k < j :: !ClosesAt(s, steps, k, id)
    ensures Closings(Before(s, steps, j).history, id) <= 1 <==>
              forall m | 0 <= m < j && ClosesAt(s, steps, m, id) :: forall k | 0 <= k < m :: !ClosesAt(s, steps, k, id)
    decreases j
  {
    hide Before, ClosesAt, StillOpen;
    AtStart(s, steps);
    if 0 < j {
      ClosingsCount(s, steps, j - 1, id);
      OpenBetween(s, steps, 0, j - 1, id);
      StatusBefore(s, steps, j - 1, id);
    }
  }

  // ---------- Where a closing comes from ----------

  /** The session a request or a closing transaction of `tid` is about. */
  predicate Handles(s: System, tid: Tid, id: nat) {
    || (tid in s.looked && s.looked[tid].id == id)
    || (tid in s.txns && Closes(s.txns[tid].job, id))
  }

  lemma StepHandles(s: System, step: Step, tid: Tid, id: nat)
    ensures Handles(Try(s, step), tid, id) ==>
              Handles(s, tid, id) || (step.Look? && step.tid == tid && step.request.id == id && Enabled(s, step))
  {
    hide Legs, CountAll;
  }

  /** Whoever handles a session has read its status before, while it was open. */
  lemma {:induction false} LookedFirst(s: System, steps: seq<Step>, j: nat, tid: Tid, id: nat)
    requires j <= |steps| && !Handles(s, tid, id) && Handles(Before(s, steps, j), tid, id)
    ensures var i := LastLook(s, steps, j, tid, id);
            i < j && StillOpen(Before(s, steps, i), id)
    decreases j
  {
    hide Try, Handles;
    if j == 0 {
      AtStart(s, steps);
    } else {
      StepBefore(s, steps, j - 1);
      StepHandles(Before(s, steps, j - 1), steps[j - 1], tid, id);
      if !LooksAt(s, steps, j - 1, tid, id) {
        LookedFirst(s, steps, j - 1, tid, id);
      }
    }
  }

  /** Nobody has a request on the session, and nobody ever closed it. */
  ghost predicate Fresh(s: System, id: nat) {
    && id < |s.sessions| && (forall tid: Tid :: !Handles(s, tid, id)) && Closings(s.history, id) == 0
  }

  /** The closing at step `j` has had the session for itself since it read the
      status: no other approval or cancellation of it commits in between. */
  predicate Alone(s: System, steps: seq<Step>, j: nat, id: nat)
    requires j < |steps|
  {
    forall k | LastLook(s, steps, j, steps[j].tid, id) <= k < j :: !ClosesAt(s, steps, k, id)
  }

  /** From its start on, a session is closed at most once, so approved at most once and never
      after a cancellation, exactly when every approval and cancellation of it has
      the session for itself from its status read to its commit. */
  lemma ClosedOnce(s: System, steps: seq<Step>, id: nat)
    requires Fresh(s, id)
    ensures Closings(Interleave(s, steps).history, id) <= 1 <==>
              forall j | 0 <= j < |steps| && ClosesAt(s, steps, j, id) :: Alone(s, steps, j, id)
  {
    hide ClosesAt, Closings;
    assert steps[..|steps|] == steps;
    ClosingsCount(s, steps, |steps|, id);
    forall j | 0 <= j < |steps| && ClosesAt(s, steps, j, id)
      ensures Alone(s, steps, j, id) <==> forall k | 0 <= k < j :: !ClosesAt(s, steps, k, id)
    {
      AloneIsFirst(s, steps, j, id);
    }
  }

  lemma AloneIsFirst(s: System, steps: seq<Step>, j: nat, id: nat)
    requires j < |steps| && Fresh(s, id) && ClosesAt(s, steps, j, id)
    ensures Alone(s, steps, j, id) <==> forall k | 0 <= k < j :: !ClosesAt(s, steps, k, id)
  {
    var i := LastLook(s, steps, j, steps[j].tid, id);
    assert i < j && StillOpen(Before(s, steps, i), id) by { LookedFirst(s, steps, j, steps[j].tid, id); }
    AtStart(s, steps);
    hide ClosesAt, Before, StillOpen;
    OpenBetween(s, steps, 0, i, id);
    OpenBetween(s, steps, i, j, id);
    OpenBetween(s, steps, 0, j, id);
  }

  // ---------- What a commit posts ----------

  lemma {:induction false} PostEffect(loc: Loc, lines: seq<Line>, sku: Sku, at: Loc)
    ensures SumBy(MovedAt(sku, at), PostLegs(loc, lines)) == if at == loc then SumBy(VarianceOf(sku), lines) else 0
  {
    if lines != [] {
      var front, l := lines[..|lines| - 1], lines[|lines| - 1];
      PostEffect(loc, front, sku, at);
      if Posts(l) {
        SumPush(MovedAt(sku, at), PostLegs(loc, front), Movement(l.sku, loc, Adjusted, l.variance.value));
      } else {
        assert PostLegs(loc, lines) == PostLegs(loc, front);
      }
    }
  }

  /** Session `id` and every approval of it that is under way have lines that
      remember the stock `base`. */
  ghost predicate Remembering(s: System, id: nat, base: seq<StockRow>, loc: Loc) {
    && id < |s.sessions| && s.sessions[id].loc == loc && Remembers(s.sessions[id].lines, base, loc)
    && forall tid | tid in s.txns && s.txns[tid].job.Approving? && s.txns[tid].job.id == id ::
         s.txns[tid].job.loc == loc && Remembers(s.txns[tid].job.lines, base, loc)
  }

  lemma StepRemembers(s: System, step: Step, id: nat, base: seq<StockRow>, loc: Loc)
    requires Remembering(s, id, base, loc)
    ensures Remembering(Try(s, step), id, base, loc)
  {
    hide Remembers, CountAll, Legs;
    if step.Enter? && Enabled(s, step) && s.looked[step.tid].RecountReq? && s.looked[step.tid].id == id {
      CountsRemember(s.sessions[id].lines, s.looked[step.tid].counts, base, loc);
    }
  }

  lemma {:induction false} RunRemembers(s: System, steps: seq<Step>, id: nat, base: seq<StockRow>, loc: Loc)
    requires Remembering(s, id, base, loc)
    ensures Remembering(Interleave(s, steps), id, base, loc)
  {
    hide Try, Remembering;
    if steps != [] {
      RunRemembers(s, steps[..|steps| - 1], id, base, loc);
      StepRemembers(Interleave(s, steps[..|steps| - 1]), steps[|steps| - 1], id, base, loc);
    }
  }

  /** Requests and closed sessions are ones that exist. */
  predicate IdsKnown(s: System) {
    && (forall tid | tid in s.looked :: s.looked[tid].id < |s.sessions|)
    && (forall tid | tid in s.txns && !s.txns[tid].job.Moving? :: s.txns[tid].job.id < |s.sessions|)
    && (forall i | 0 <= i < |s.history| && !s.history[i].Moving? :: s.history[i].id < |s.sessions|)
  }

  lemma StepIds(s: System, step: Step)
    requires IdsKnown(s)
    ensures IdsKnown(Try(s, step))
  {
    hide Legs, CountAll, AfterWrite, Closed, EventsOf, Released, SnapshotOf, Shown;
  }

  lemma {:induction false} RunIds(s: System, steps: seq<Step>)
    requires IdsKnown(s)
    ensures IdsKnown(Interleave(s, steps))
  {
    hide Try, IdsKnown;
    if steps != [] {
      RunIds(s, steps[..|steps| - 1]);
      StepIds(Interleave(s, steps[..|steps| - 1]), steps[|steps| - 1]);
    }
  }

  /** The rows a snapshot was taken of. */
  function RowsOf(loc: Loc, lines: seq<Line>): seq<StockRow> {
    seq(|lines|, i requires 0 <= i < |lines| => StockRow(lines[i].sku, loc, lines[i].system))
  }

  lemma SnapshotIsBalance(s: System, loc: Loc, lines: seq<Line>, sku: Sku)
    requires SnapshotOf(s.balance, loc, lines)
    ensures OnHand(RowsOf(loc, lines), sku, loc) == Balance(s, (sku, loc))
  {
    var rows, i := RowsOf(loc, lines), FindLine(lines, sku);
    if i < |lines| {
      assert UniqueRows(rows);
      RowIsBalance(rows, i);
    } else {
      NoRowNoBalance(rows, sku, loc);
    }
  }

  /** A new session is fresh and remembers the balances at its start. */
  lemma StartRemembers(s: System, step: Step)
    requires IdsKnown(s) && step.StartCount? && Enabled(s, step)
    ensures var id := |s.sessions|;
            Fresh(Try(s, step), id) && Remembering(Try(s, step), id, RowsOf(step.loc, step.lines), step.loc)
  {
    hide OnHand;
    var id, u, rows := |s.sessions|, Try(s, step), RowsOf(step.loc, step.lines);
    forall i | 0 <= i < |step.lines| ensures step.lines[i].system == OnHand(rows, step.lines[i].sku, step.loc) {
      SnapshotIsBalance(s, step.loc, step.lines, step.lines[i].sku);
    }
    forall i | 0 <= i < |rows| ensures HasLine(step.lines, rows[i].sku) {
      assert step.lines[i].sku == rows[i].sku;
    }
    forall i | 0 <= i < |u.history| ensures ClosesOne(id)(u.history[i]) == 0 {
    }
    SumBounds(ClosesOne(id), u.history, 0, 0);
  }

  lemma RebasesFromLines(s: System, start: Stock, steps: seq<Step>, i: nat, j: nat, sku: Sku, at: Loc)
    requires Quiet(s, start) && i < j < |steps| && steps[i].StartCount? && Enabled(Before(s, steps, i), steps[i])
    requires ClosesAt(s, steps, j, |Before(s, steps, i).sessions|)
    requires Before(s, steps, j).txns[steps[j].tid].job.Approving?
    ensures var a, b, u, k := Before(s, steps, i), Before(s, steps, j), Before(s, steps, j + 1), (sku, at);
            var counted := CountedFor(b.txns[steps[j].tid].job.lines, sku);
            Balance(u, k) ==
              if at == steps[i].loc && counted.Some? then counted.value + (Balance(b, k) - Balance(a, k))
              else Balance(b, k)
  {
    hide Remembers, OnHand, Balance, Interleave, SessionsSound, TxnSound, SnapshotOf, IdsKnown;
    var a, b, tid, loc := Before(s, steps, i), Before(s, steps, j), steps[j].tid, steps[i].loc;
    var id, rows := |a.sessions|, RowsOf(steps[i].loc, steps[i].lines);
    Serializable(s, start, steps[..j]);
    NothingKnown(s);
    RunIds(s, steps[..i]);
    StartRemembers(a, steps[i]);
    StepBefore(s, steps, i);
    RunRemembers(Before(s, steps, i + 1), steps[i + 1..j], id, rows, loc);
    assert steps[..j] == steps[..i + 1] + steps[i + 1..j];
    InterleaveConcat(s, steps[..i + 1], steps[i + 1..j]);
    StepBefore(s, steps, j);
    CommitEffect(b, tid, (sku, at));
    var lines := b.txns[tid].job.lines;
    PostEffect(loc, lines, sku, at);
    CountedVariance(lines, rows, loc, sku);
    SnapshotIsBalance(a, loc, steps[i].lines, sku);
  }

  lemma NothingKnown(s: System)
    requires s.txns == map[] && s.looked == map[] && s.history == []
    ensures IdsKnown(s)
  {
  }

  /** Step `n` lets a recount of session `id` into the tables. */
  predicate Recounts(b: System, step: Step, id: nat) {
    step.Enter? && Enabled(b, step) && b.looked[step.tid].RecountReq? && b.looked[step.tid].id == id
  }

  /** The quantity submitted last for a SKU to session `id` between two points of a
      run. */
  function SubmittedIn(s: System, steps: seq<Step>, i: nat, n: nat, id: nat, sku: Sku): Option<int>
    requires n <= |steps|
    decreases n
  {
    if n <= i then None
    else
      var b, step, earlier := Before(s, steps, n - 1), steps[n - 1], SubmittedIn(s, steps, i, n - 1, id, sku);
      if Recounts(b, step, id) then Newer(LastCount(b.looked[step.tid].counts, sku), earlier) else earlier
  }

  lemma StepCounted(s: System, step: Step, id: nat, sku: Sku)
    requires id < |s.sessions|
    ensures id < |Try(s, step).sessions|
    ensures CountedFor(Try(s, step).sessions[id].lines, sku) ==
              if Recounts(s, step, id)
              then Newer(LastCount(s.looked[step.tid].counts, sku), CountedFor(s.sessions[id].lines, sku))
              else CountedFor(s.sessions[id].lines, sku)
  {
    hide Legs, CountAll, CountedFor, LastCount, AfterWrite, EventsOf, SnapshotOf;
    if Recounts(s, step, id) {
      CountedAfter(s.sessions[id].lines, s.looked[step.tid].counts, sku);
    }
  }

  lemma {:induction false} CountedIn(s: System, steps: seq<Step>, i: nat, n: nat, id: nat, sku: Sku)
    requires i <= n <= |steps| && id < |Before(s, steps, i).sessions|
    ensures id < |Before(s, steps, n).sessions|
    ensures CountedFor(Before(s, steps, n).sessions[id].lines, sku) ==
              Newer(SubmittedIn(s, steps, i, n, id, sku), CountedFor(Before(s, steps, i).sessions[id].lines, sku))
    decreases n
  {
    hide Before, Try, Recounts, CountedFor, LastCount;
    if i < n {
      CountedIn(s, steps, i, n - 1, id, sku);
      StepBefore(s, steps, n - 1);
      StepCounted(Before(s, steps, n - 1), steps[n - 1], id, sku);
    }
  }

  predicate EntersNow(s: System, step: Step, tid: Tid, id: nat) {
    step == Enter(tid) && Enabled(s, step) && s.looked[tid] == ApproveReq(id)
  }

  /** Step `e` begins the approval transaction `tid` of session `id`. */
  predicate EntersAt(s: System, steps: seq<Step>, e: nat, tid: Tid, id: nat)
    requires e < |steps|
  {
    EntersNow(Before(s, steps, e), steps[e], tid, id)
  }

  /** The last beginning of such a transaction before step `j`, or `j`. */
  function LastEnter(s: System, steps: seq<Step>, j: nat, tid: Tid, id: nat): (e: nat)
    requires j <= |steps|
    ensures e <= j && (e < j ==> EntersAt(s, steps, e, tid, id))
    decreases j
  {
    if j == 0 then 0
    else if EntersAt(s, steps, j - 1, tid, id) then j - 1
    else
      var e := LastEnter(s, steps, j - 1, tid, id);
      if e == j - 1 then j else e
  }

  predicate Approves(s: System, tid: Tid, id: nat) {
    tid in s.txns && s.txns[tid].job.Approving? && s.txns[tid].job.id == id
  }

  lemma StepApproves(s: System, step: Step, tid: Tid, id: nat)
    requires Approves(Try(s, step), tid, id)
    ensures (step == Enter(tid) && Enabled(s, step) && s.looked[tid] == ApproveReq(id) && id < |s.sessions|
             && Try(s, step).txns[tid].job.lines == s.sessions[id].lines)
            || (Approves(s, tid, id) && Try(s, step).txns[tid].job == s.txns[tid].job && !EntersNow(s, step, tid, id))
  {
    hide Legs, CountAll, AfterWrite, EventsOf, SnapshotOf, Released;
  }

  /** An approval carries the lines its session had when it began. */
  lemma {:induction false} LinesAtEnter(s: System, steps: seq<Step>, j: nat, tid: Tid, id: nat)
    requires j <= |steps| && s.txns == map[] && Approves(Before(s, steps, j), tid, id)
    ensures var e := LastEnter(s, steps, j, tid, id);
            && e < j && id < |Before(s, steps, e).sessions|
            && Before(s, steps, j).txns[tid].job.lines == Before(s, steps, e).sessions[id].lines
    decreases j
  {
    hide Try, Enabled;
    if j == 0 {
      AtStart(s, steps);
    } else {
      StepBefore(s, steps, j - 1);
      StepApproves(Before(s, steps, j - 1), steps[j - 1], tid, id);
      if !EntersAt(s, steps, j - 1, tid, id) {
        LinesAtEnter(s, steps, j - 1, tid, id);
      }
    }
  }

  lemma {:induction false} SessionsGrowTo(s: System, steps: seq<Step>, i: nat, j: nat)
    requires i <= j <= |steps|
    ensures |Before(s, steps, i).sessions| <= |Before(s, steps, j).sessions|
    decreases j
  {
    hide Before, Try;
    if i < j {
      SessionsGrowTo(s, steps, i, j - 1);
      StepBefore(s, steps, j - 1);
      MoreSessions(Before(s, steps, j - 1), steps[j - 1]);
    }
  }

  lemma MoreSessions(s: System, step: Step)
    ensures |s.sessions| <= |Try(s, step).sessions|
  {
    hide Legs, CountAll, AfterWrite, EventsOf, SnapshotOf;
  }

  /** What an approval that commits at step `j` has for a SKU: the quantity submitted
      last between the session's start at step `i` and the approval's beginning. */
  function ApprovedCount(s: System, steps: seq<Step>, i: nat, j: nat, sku: Sku): Option<int>
    requires i < j < |steps|
  {
    var id := |Before(s, steps, i).sessions|;
    SubmittedIn(s, steps, i + 1, LastEnter(s, steps, j, steps[j].tid, id), id, sku)
  }

  lemma ApprovedIsSubmitted(s: System, steps: seq<Step>, i: nat, j: nat, sku: Sku)
    requires s.txns == map[] && i < j < |steps| && steps[i].StartCount? && Enabled(Before(s, steps, i), steps[i])
    requires Approves(Before(s, steps, j), steps[j].tid, |Before(s, steps, i).sessions|)
    ensures CountedFor(Before(s, steps, j).txns[steps[j].tid].job.lines, sku) == ApprovedCount(s, steps, i, j, sku)
  {
    hide Interleave, CountedFor, LastCount;
    var id, tid := |Before(s, steps, i).sessions|, steps[j].tid;
    LinesAtEnter(s, steps, j, tid, id);
    var e := LastEnter(s, steps, j, tid, id);
    if e <= i {
      SessionsGrowTo(s, steps, e, i);
    }
    StepBefore(s, steps, i);
    NewUncounted(Before(s, steps, i), steps[i], sku);
    CountedIn(s, steps, i + 1, e, id, sku);
  }

  lemma NewUncounted(s: System, step: Step, sku: Sku)
    requires step.StartCount? && Enabled(s, step)
    ensures |Try(s, step).sessions| == |s.sessions| + 1
    ensures CountedFor(Try(s, step).sessions[|s.sessions|].lines, sku) == None
  {
  }

  /** Whatever overlaps, the commit of an approval leaves a SKU for which a quantity
      was submitted at that quantity plus all that was committed since the count
      began, and every other balance as it was just before. For a second approval,
      what the first one posted is part of that movement. */
  lemma RebasesAtCommit(s: System, start: Stock, steps: seq<Step>, i: nat, j: nat, sku: Sku, at: Loc)
    requires Quiet(s, start) && i < j < |steps| && steps[i].StartCount? && Enabled(Before(s, steps, i), steps[i])
    requires ClosesAt(s, steps, j, |Before(s, steps, i).sessions|)
    requires Before(s, steps, j).txns[steps[j].tid].job.Approving?
    ensures var a, b, u, k := Before(s, steps, i), Before(s, steps, j), Before(s, steps, j + 1), (sku, at);
            var counted := ApprovedCount(s, steps, i, j, sku);
            Balance(u, k) ==
              if at == steps[i].loc && counted.Some? then counted.value + (Balance(b, k) - Balance(a, k))
              else Balance(b, k)
  {
    ApprovedIsSubmitted(s, steps, i, j, sku);
    hide ApprovedCount, CountedFor, Before, Quiet, ClosesAt, Enabled, Balance;
    RebasesFromLines(s, start, steps, i, j, sku, at);
  }

  /** Two approvals of one session, both committed and with the same quantity
      submitted for a SKU: the SKU ends at that quantity, plus what the others moved
      before, between and after, plus its variance a second time. */
  lemma TwiceApproved(s: System, start: Stock, steps: seq<Step>, i: nat, j: nat, k: nat, sku: Sku)
    requires Quiet(s, start) && i < j < k < |steps| && steps[i].StartCount? && Enabled(Before(s, steps, i), steps[i])
    requires ClosesAt(s, steps, j, |Before(s, steps, i).sessions|)
    requires ClosesAt(s, steps, k, |Before(s, steps, i).sessions|)
    requires Before(s, steps, j).txns[steps[j].tid].job.Approving?
    requires Before(s, steps, k).txns[steps[k].tid].job.Approving?
    requires ApprovedCount(s, steps, i, j, sku).Some?
    requires ApprovedCount(s, steps, i, k, sku) == ApprovedCount(s, steps, i, j, sku)
    ensures var key := (sku, steps[i].loc);
            var counted := ApprovedCount(s, steps, i, j, sku).value;
            var system := Balance(Before(s, steps, i), key);
            var moved := Balance(Before(s, steps, j), key) - system
                         + Balance(Before(s, steps, k), key) - Balance(Before(s, steps, j + 1), key);
            Balance(Before(s, steps, k + 1), key) == counted + moved + (counted - system)
  {
    hide Balance, Before, ClosesAt, ApprovedCount, Quiet, Enabled;
    RebasesAtCommit(s, start, steps, i, j, sku, steps[i].loc);
    RebasesAtCommit(s, start, steps, i, k, sku, steps[i].loc);
  }

  lemma CountedVariance(lines: seq<Line>, base: seq<StockRow>, loc: Loc, sku: Sku)
    requires Remembers(lines, base, loc)
    ensures SumBy(VarianceOf(sku), lines) ==
              if CountedFor(lines, sku).Some? then CountedFor(lines, sku).value - OnHand(base, sku, loc) else 0
  {
    var i := FindLine(lines, sku);
    if i < |lines| {
      OneLine(lines, i);
    } else {
      SumBounds(VarianceOf(sku), lines, 0, 0);
    }
  }

  // ---------- Two approvals at once ----------

  lemma {:induction false} InterleaveConcat(s: System, a: seq<Step>, b: seq<Step>)
    ensures Interleave(s, a + b) == Interleave(Interleave(s, a), b)
  {
    if b == [] {
      assert a + b == a;
    } else {
      assert (a + b)[..|a + b| - 1] == a + b[..|b| - 1];
      InterleaveConcat(s, a, b[..|b| - 1]);
    }
  }

  function ApprovalSteps(tid: Tid): seq<Step> {
    [Enter(tid), LockAndRead(tid), WriteBalance(tid), AppendMovement(tid), Commit(tid)]
  }

  lemma TwoSteps(s: System, a: Step, b: Step)
    ensures Interleave(s, [a, b]) == Try(Try(s, a), b)
  {
    hide Try;
    assert [a, b][..1] == [a] && [a][..0] == [];
    assert Interleave(s, [a]) == Try(s, a);
  }

  lemma FiveSteps(s: System, a: Step, b: Step, c: Step, d: Step, e: Step)
    ensures Interleave(s, [a, b, c, d, e]) == Try(Try(Try(Try(Try(s, a), b), c), d), e)
  {
    hide Try;
    TwoSteps(s, a, b);
    var steps := [a, b, c, d, e];
    assert steps[..4] == [a, b, c, d] && steps[..4][..3] == [a, b, c] && steps[..4][..3][..2] == [a, b];
    assert Interleave(s, [a, b, c]) == Try(Try(Try(s, a), b), c);
    assert Interleave(s, [a, b, c, d]) == Try(Try(Try(Try(s, a), b), c), d);
  }

  lemma ApprovalRun(s: System, tid: Tid)
    ensures Interleave(s, ApprovalSteps(tid)) ==
              Try(Try(Try(Try(Try(s, Enter(tid)), LockAndRead(tid)), WriteBalance(tid)), AppendMovement(tid)),
                  Commit(tid))
  {
    hide Try, Interleave;
    FiveSteps(s, Enter(tid), LockAndRead(tid), WriteBalance(tid), AppendMovement(tid), Commit(tid));
  }

  /** `tid` is the only running transaction and holds these locks. */
  function Solo(s: System, tid: Tid, t: Txn, locks: map<Key, Tid>): System {
    s.(txns := map[tid := t], locks := locks)
  }

  lemma SoloEnter(s: System, tid: Tid, job: Job)
    requires tid in s.looked && s.looked[tid].id < |s.sessions| && !s.looked[tid].RecountReq?
    requires s.txns == map[] && s.locks == map[] && job == JobOf(s, s.looked[tid])
    ensures Try(s, Enter(tid)) ==
              Solo(s.(looked := Without(s.looked, tid)), tid, Txn(job, 0, Locking, map[], []), map[])
  {
    hide Legs;
  }

  lemma SoloSteps(s: System, tid: Tid, job: Job, m: Movement)
    requires Legs(job) == [m] && KeyOf(m) in s.balance
    ensures var k, seen := KeyOf(m), s.balance[KeyOf(m)];
            && Try(Solo(s, tid, Txn(job, 0, Locking, map[], []), map[]), LockAndRead(tid)) ==
                 Solo(s, tid, Txn(job, 0, Holding(seen), map[], []), map[k := tid])
            && Try(Solo(s, tid, Txn(job, 0, Holding(seen), map[], []), map[k := tid]), WriteBalance(tid)) ==
                 Solo(s, tid, Txn(job, 0, Wrote, map[k := seen + m.quantity], []), map[k := tid])
  {
    hide Legs;
  }

  lemma SoloAppend(s: System, tid: Tid, job: Job, m: Movement, written: int)
    requires Legs(job) == [m]
    ensures var k := KeyOf(m);
            Try(Solo(s, tid, Txn(job, 0, Wrote, map[k := written], []), map[k := tid]), AppendMovement(tid)) ==
              Solo(s, tid, Txn(job, 1, Locking, map[k := written], [m]), map[k := tid])
  {
    hide Legs;
    assert [] + [m] == [m];
  }

  lemma LastOneGone<T>(k: Key, tid: Tid, x: T)
    ensures Released(map[k := tid], tid) == map[] && Without(map[tid := x], tid) == map[]
  {
  }

  lemma SoloCommit(s: System, tid: Tid, job: Job, m: Movement, written: int)
    requires Legs(job) == [m]
    ensures var k := KeyOf(m);
            var u := Try(Solo(s, tid, Txn(job, 1, Locking, map[k := written], [m]), map[k := tid]), Commit(tid));
            && u.balance == s.balance[k := written] && u.sessions == Closed(s.sessions, job)
            && u.txns == map[] && u.locks == map[] && u.looked == s.looked
  {
    hide Legs, EventsOf, Closed, Released, Without, Shown, KeyOf;
    var t := Txn(job, 1, Locking, map[KeyOf(m) := written], [m]);
    LastOneGone(KeyOf(m), tid, t);
    assert Enabled(Solo(s, tid, t, map[KeyOf(m) := tid]), Commit(tid));
    assert s.balance + map[KeyOf(m) := written] == s.balance[KeyOf(m) := written];
  }

  lemma SoloRun(s: System, tid: Tid, job: Job, m: Movement)
    requires Legs(job) == [m] && KeyOf(m) in s.balance
    ensures var begun := Solo(s, tid, Txn(job, 0, Locking, map[], []), map[]);
            var u := Try(Try(Try(Try(begun, LockAndRead(tid)), WriteBalance(tid)), AppendMovement(tid)), Commit(tid));
            && u.balance == s.balance[KeyOf(m) := s.balance[KeyOf(m)] + m.quantity]
            && u.sessions == Closed(s.sessions, job)
            && u.txns == map[] && u.locks == map[] && u.looked == s.looked
  {
    hide *;
    SoloSteps(s, tid, job, m);
    SoloAppend(s, tid, job, m, s.balance[KeyOf(m)] + m.quantity);
    SoloCommit(s, tid, job, m, s.balance[KeyOf(m)] + m.quantity);
  }

  /** A request that has passed its status test, with one leg to post and nobody else
      holding the row, posts it and closes the session, whatever status the session
      has by now. */
  lemma ApprovalPosts(s: System, tid: Tid, job: Job, m: Movement)
    requires tid in s.looked && s.looked[tid].id < |s.sessions| && !s.looked[tid].RecountReq?
    requires s.txns == map[] && s.locks == map[] && job == JobOf(s, s.looked[tid])
    requires Legs(job) == [m] && KeyOf(m) in s.balance
    ensures var u := Interleave(s, ApprovalSteps(tid));
            && u.balance == s.balance[KeyOf(m) := s.balance[KeyOf(m)] + m.quantity]
            && u.sessions == Closed(s.sessions, job)
            && u.txns == map[] && u.locks == map[] && u.looked == Without(s.looked, tid)
  {
    hide *;
    ApprovalRun(s, tid);
    SoloEnter(s, tid, job);
    SoloRun(s.(looked := Without(s.looked, tid)), tid, job, m);
  }

  lemma OneLeg(job: Job, line: Line)
    requires job.Approving? && job.lines == [line] && Posts(line)
    ensures Legs(job) == [Movement(line.sku, job.loc, Adjusted, line.variance.value)]
  {
    assert job.lines[..0] == [];
    assert PostLegs(job.loc, []) == [];
  }

  lemma LookTwice(s: System, a: Tid, b: Tid, r: Request)
    requires s.txns == map[] && s.looked == map[] && a != b
    requires r.id < |s.sessions| && r.id !in s.hidden && s.sessions[r.id].status == InProgress
    ensures Interleave(s, [Look(a, r), Look(b, r)]) == s.(looked := map[a := r, b := r])
  {
    TwoSteps(s, Look(a, r), Look(b, r));
    assert Try(s, Look(a, r)) == s.(looked := map[a := r]);
    assert Try(s.(looked := map[a := r]), Look(b, r)) == s.(looked := map[a := r, b := r]);
  }

  lemma OneLeft(a: Tid, b: Tid, r: Request)
    requires a != b
    ensures Without(map[a := r, b := r], a) == map[b := r] && map[b := r][b] == r
  {
  }

  lemma AddTwice(balance: map<Key, int>, k: Key, q: int)
    requires k in balance
    ensures var once := balance[k := balance[k] + q];
            k in once && once[k := once[k] + q] == balance[k := balance[k] + 2 * q]
  {
  }

  lemma StaysClosed(s: System, u: System, r: Request, job: Job)
    requires r.ApproveReq? && r.id < |s.sessions| && job == JobOf(s, r) && u.sessions == Closed(s.sessions, job)
    ensures r.id < |u.sessions| && JobOf(u, r) == job && Closed(u.sessions, job) == u.sessions
  {
  }

  /** Two approvals of a session with one counted line, both past the status test,
      post its variance twice. */
  lemma BothPost(s: System, a: Tid, b: Tid, r: Request, job: Job, m: Movement)
    requires a != b && s.looked == map[a := r, b := r] && s.txns == map[] && s.locks == map[]
    requires r.ApproveReq? && r.id < |s.sessions| && job == JobOf(s, r) && Legs(job) == [m] && KeyOf(m) in s.balance
    ensures var u := Interleave(Interleave(s, ApprovalSteps(a)), ApprovalSteps(b));
            && u.balance == s.balance[KeyOf(m) := s.balance[KeyOf(m)] + 2 * m.quantity]
            && u.sessions == Closed(s.sessions, job)
  {
    hide *;
    var once := Interleave(s, ApprovalSteps(a));
    ApprovalPosts(s, a, job, m);
    OneLeft(a, b, r);
    StaysClosed(s, once, r, job);
    AddTwice(s.balance, KeyOf(m), m.quantity);
    ApprovalPosts(once, b, job, m);
  }

  /** 10 on hand and 15 counted: two approvals that both read the status before
      either commits leave 20. */
  lemma DoubleApproval()
    ensures var line := Line(7, 10, Some(15), Some(5));
            var s := System(map[(7, 0) := 10], [], [], [Session(0, InProgress, [line])], {}, map[], map[], map[], []);
            var looks := [Look(1, ApproveReq(0)), Look(2, ApproveReq(0))];
            var u := Interleave(s, looks + ApprovalSteps(1) + ApprovalSteps(2));
            u.balance == map[(7, 0) := 20] && |u.sessions| == 1 && u.sessions[0].status == Completed
  {
    var line, r := Line(7, 10, Some(15), Some(5)), ApproveReq(0);
    var s := System(map[(7, 0) := 10], [], [], [Session(0, InProgress, [line])], {}, map[], map[], map[], []);
    var looks, job := [Look(1, r), Look(2, r)], Approving(0, 0, [line]);
    LookTwice(s, 1, 2, r);
    OneLeg(job, line);
    assert JobOf(s, r) == job && |Closed(s.sessions, job)| == 1 && Closed(s.sessions, job)[0].status == Completed;
    hide Interleave, ApprovalSteps, Legs, Try, JobOf, Closed;
    InterleaveConcat(s, looks + ApprovalSteps(1), ApprovalSteps(2));
    InterleaveConcat(s, looks, ApprovalSteps(1));
    BothPost(s.(looked := map[1 := r, 2 := r]), 1, 2, r, job, Movement(7, 0, Adjusted, 5));
  }
}
