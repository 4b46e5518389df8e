/** PhysicalCountService: a count session snapshots a location, collects counted
    quantities while stock keeps moving, and posts the variances when approved. */
module PhysicalCounts {
  import opened Sums
  import opened Options
  import opened Inventory

  datatype CountStatus = InProgress | Completed | Cancelled

  datatype Line = Line(sku: Sku, system: int, counted: Option<int>, variance: Option<int>)

  datatype Session = Session(loc: Loc, status: CountStatus, lines: seq<Line>)

  datatype Count = Count(sku: Sku, quantity: int)

  datatype Desk = Desk(stock: Stock, sessions: seq<Session>)

  /** One line per stock row at the location. */
  function Snapshot(rows: seq<StockRow>, loc: Loc): seq<Line> {
    if rows == [] then []
    else
      var r := rows[|rows| - 1];
      Snapshot(rows[..|rows| - 1], loc) + (if r.loc == loc then [Line(r.sku, r.onHand, None, None)] else [])
  }

  function FindLine(lines: seq<Line>, sku: Sku): (i: nat)
    ensures i <= |lines|
    ensures i < |lines| ==> lines[i].sku == sku
    ensures forall j | 0 <= j < i :: lines[j].sku != sku
  {
    if lines == [] || lines[0].sku == sku then 0 else 1 + FindLine(lines[1..], sku)
  }

  /** An unknown SKU gets a line with system quantity zero; then the count and its
      variance are written. */
  function Count1(lines: seq<Line>, c: Count): seq<Line> {
    var i := FindLine(lines, c.sku);
    var all := if i < |lines| then lines else lines + [Line(c.sku, 0, None, None)];
    all[i := all[i].(counted := Some(c.quantity), variance := Some(c.quantity - all[i].system))]
  }

  function CountAll(lines: seq<Line>, counts: seq<Count>): seq<Line> {
    if counts == [] then lines else Count1(CountAll(lines, counts[..|counts| - 1]), counts[|counts| - 1])
  }

  predicate Posts(l: Line) {
    l.counted.Some? && l.variance.Some? && l.variance.value != 0
  }

  function PostAll(s: Stock, loc: Loc, lines: seq<Line>): Stock {
    if lines == [] then s
    else
      var before, l := PostAll(s, loc, lines[..|lines| - 1]), lines[|lines| - 1];
      if Posts(l) then Adjust(before, l.sku, loc, l.variance.value) else before
  }

  function Posting(l: Line): int { if Posts(l) then 1 else 0 }

  function Postings(lines: seq<Line>): (n: nat) {
    if lines == [] then 0 else Postings(lines[..|lines| - 1]) + Posting(lines[|lines| - 1])
  }

  function CountedLines(lines: seq<Line>): nat {
    if lines == [] then 0
    else CountedLines(lines[..|lines| - 1]) + (if lines[|lines| - 1].counted.Some? then 1 else 0)
  }

  function Told(s: Stock, e: Event): Stock { s.(log := s.log + [e]) }

  function Start(d: Desk, loc: Loc): Desk {
    var lines := Snapshot(d.stock.rows, loc);
    Desk(Told(d.stock, CountStarted(|d.sessions|, loc, |lines|)), d.sessions + [Session(loc, InProgress, lines)])
  }

  predicate Open(d: Desk, id: nat) {
    id < |d.sessions| && d.sessions[id].status == InProgress
  }

  function Record(d: Desk, id: nat, counts: seq<Count>): Option<Desk> {
    if !Open(d, id) then None
    else
      var s := d.sessions[id];
      Some(d.(sessions := d.sessions[id := s.(lines := CountAll(s.lines, counts))]))
  }

  function Approve(d: Desk, id: nat): Option<Desk> {
    if !Open(d, id) then None
    else
      var s := d.sessions[id];
      Some(Desk(Told(PostAll(d.stock, s.loc, s.lines), CountApproved(id, s.loc, |s.lines|, Postings(s.lines))),
                d.sessions[id := s.(status := Completed)]))
  }

  function Cancel(d: Desk, id: nat): Option<Desk> {
    if !Open(d, id) then None
    else
      var s := d.sessions[id];
      Some(Desk(Told(d.stock, CountCancelled(id, s.loc, CountedLines(s.lines))),
                d.sessions[id := s.(status := Cancelled)]))
  }

  datatype DeskOp =
    | StockOp(op: Op)
    | StartOp(loc: Loc)
    | RecordOp(id: nat, counts: seq<Count>)
    | ApproveOp(id: nat)
    | CancelOp(id: nat)

  function Do(d: Desk, op: DeskOp): Option<Desk> {
    match op
    case StockOp(o) => if Attempt(d.stock, o).Some? then Some(d.(stock := Inventory.Apply(d.stock, o))) else None
    case StartOp(loc) => Some(Start(d, loc))
    case RecordOp(id, counts) => Record(d, id, counts)
    case ApproveOp(id) => Approve(d, id)
    case CancelOp(id) => Cancel(d, id)
  }

  function Act(d: Desk, op: DeskOp): Desk {
    var r := Do(d, op);
    if r.Some? then r.value else d
  }

  function ActAll(d: Desk, ops: seq<DeskOp>): Desk {
    if ops == [] then d else Act(ActAll(d, ops[..|ops| - 1]), ops[|ops| - 1])
  }

  // ---------- What a session remembers ----------

  predicate DistinctLines(lines: seq<Line>) {
    forall i, j | 0 <= i < j < |lines| :: lines[i].sku != lines[j].sku
  }

  predicate HasLine(lines: seq<Line>, sku: Sku) {
    exists i :: 0 <= i < |lines| && lines[i].sku == sku
  }

  /** The session's lines against the stock `base` it was started on: one line per
      SKU, each with the balance of that moment, no stocked SKU without a line, and
      the variance always counted less system. */
  ghost predicate Remembers(lines: seq<Line>, base: seq<StockRow>, loc: Loc) {
    && DistinctLines(lines)
    && (forall i | 0 <= i < |lines| ::
          && lines[i].system == OnHand(base, lines[i].sku, loc)
          && lines[i].variance ==
               if lines[i].counted.Some? then Some(lines[i].counted.value - lines[i].system) else None)
    && (forall i | 0 <= i < |base| && base[i].loc == loc :: HasLine(lines, base[i].sku))
  }

  lemma RowIsBalance(rows: seq<StockRow>, i: nat)
    requires UniqueRows(rows) && i < |rows|
    ensures OnHand(rows, rows[i].sku, rows[i].loc) == rows[i].onHand
  {
    var f, rest := RowAt(rows[i].sku, rows[i].loc), rows[..i] + rows[i + 1..];
    forall j | 0 <= j < |rest| ensures f(rest[j]) == 0 {
      assert rest[j] == if j < i then rows[j] else rows[j + 1];
    }
    SumBounds(f, rest, 0, 0);
    SumRemove(f, rows, i);
  }

  lemma NoRowNoBalance(rows: seq<StockRow>, sku: Sku, loc: Loc)
    requires forall i | 0 <= i < |rows| :: rows[i].sku != sku || rows[i].loc != loc
    ensures OnHand(rows, sku, loc) == 0
  {
    SumBounds(RowAt(sku, loc), rows, 0, 0);
  }

  lemma {:induction false} SnapshotCovers(rows: seq<StockRow>, loc: Loc)
    ensures forall j | 0 <= j < |rows| && rows[j].loc == loc :: HasLine(Snapshot(rows, loc), rows[j].sku)
  {
    if rows != [] {
      var n := |rows| - 1;
      var front, lines := Snapshot(rows[..n], loc), Snapshot(rows, loc);
      SnapshotCovers(rows[..n], loc);
      forall j | 0 <= j < |rows| && rows[j].loc == loc
        ensures HasLine(lines, rows[j].sku)
      {
        if j < n {
          assert rows[..n][j] == rows[j];
          var i :| 0 <= i < |front| && front[i].sku == rows[j].sku;
          assert lines[i].sku == rows[j].sku;
        } else {
          assert lines[|front|].sku == rows[n].sku;
        }
      }
    }
  }

  /** A line that is the uncounted copy of a stock row at the location. */
  predicate CopyOf(line: Line, rows: seq<StockRow>, loc: Loc) {
    exists j :: 0 <= j < |rows| && rows[j] == StockRow(line.sku, loc, line.system)
  }

  predicate Snapped(lines: seq<Line>, rows: seq<StockRow>, loc: Loc) {
    && DistinctLines(lines)
    && forall i | 0 <= i < |lines| ::
         lines[i].counted == None && lines[i].variance == None && CopyOf(lines[i], rows, loc)
  }

  lemma CopyStays(line: Line, front: seq<StockRow>, row: StockRow, loc: Loc)
    requires CopyOf(line, front, loc)
    ensures CopyOf(line, front + [row], loc)
  {
    var j :| 0 <= j < |front| && front[j] == StockRow(line.sku, loc, line.system);
    assert (front + [row])[j] == front[j];
  }

  /** One more stock row: a line more if it is at the location. */
  lemma SnappedStep(lines: seq<Line>, front: seq<StockRow>, row: StockRow, loc: Loc)
    requires UniqueRows(front + [row]) && Snapped(lines, front, loc)
    ensures Snapped(lines + (if row.loc == loc then [Line(row.sku, row.onHand, None, None)] else []),
                    front + [row], loc)
  {
    var rows := front + [row];
    assert rows[|front|] == row;
    forall i | 0 <= i < |lines|
      ensures CopyOf(lines[i], rows, loc) && (row.loc == loc ==> lines[i].sku != row.sku)
    {
      CopyStays(lines[i], front, row, loc);
      var j :| 0 <= j < |front| && front[j] == StockRow(lines[i].sku, loc, lines[i].system);
      assert rows[j] == front[j];
    }
    if row.loc == loc {
      assert CopyOf(Line(row.sku, row.onHand, None, None), rows, loc);
    }
  }

  lemma {:induction false} SnapshotLines(rows: seq<StockRow>, loc: Loc)
    requires UniqueRows(rows)
    ensures Snapped(Snapshot(rows, loc), rows, loc)
  {
    hide CopyOf;
    if rows != [] {
      var n := |rows| - 1;
      SnapshotLines(rows[..n], loc);
      assert rows == rows[..n] + [rows[n]];
      SnappedStep(Snapshot(rows[..n], loc), rows[..n], rows[n], loc);
    }
  }

  lemma SnapshotRemembers(rows: seq<StockRow>, loc: Loc)
    requires UniqueRows(rows)
    ensures Remembers(Snapshot(rows, loc), rows, loc)
  {
    var lines := Snapshot(rows, loc);
    SnapshotLines(rows, loc);
    SnapshotCovers(rows, loc);
    forall i | 0 <= i < |lines|
      ensures lines[i].system == OnHand(rows, lines[i].sku, loc)
    {
      var j :| 0 <= j < |rows| && rows[j] == StockRow(lines[i].sku, loc, lines[i].system);
      RowIsBalance(rows, j);
    }
  }

  lemma CountRemembers(lines: seq<Line>, c: Count, base: seq<StockRow>, loc: Loc)
    requires Remembers(lines, base, loc)
    ensures Remembers(Count1(lines, c), base, loc)
  {
    var i, after := FindLine(lines, c.sku), Count1(lines, c);
    assert forall j | 0 <= j < |lines| :: after[j].sku == lines[j].sku && after[j].system == lines[j].system;
    assert forall j | 0 <= j < |after| && j != i :: after[j] == lines[j];
    if i == |lines| {
      forall j | 0 <= j < |base| ensures base[j].sku != c.sku || base[j].loc != loc {
        if base[j].loc == loc {
          assert HasLine(lines, base[j].sku);
        }
      }
      NoRowNoBalance(base, c.sku, loc);
    }
    forall j | 0 <= j < |base| && base[j].loc == loc
      ensures HasLine(after, base[j].sku)
    {
      var m :| 0 <= m < |lines| && lines[m].sku == base[j].sku;
      assert after[m].sku == base[j].sku;
    }
  }

  lemma {:induction false} CountsRemember(lines: seq<Line>, counts: seq<Count>, base: seq<StockRow>, loc: Loc)
    requires Remembers(lines, base, loc)
    ensures Remembers(CountAll(lines, counts), base, loc)
  {
    if counts != [] {
      CountsRemember(lines, counts[..|counts| - 1], base, loc);
      CountRemembers(CountAll(lines, counts[..|counts| - 1]), counts[|counts| - 1], base, loc);
    }
  }

  // ---------- What an approval posts ----------

  function VarianceOf(sku: Sku): Line -> int {
    (l: Line) => if l.sku == sku && Posts(l) then l.variance.value else 0
  }

  lemma {:induction false} PostAllLaw(s: Stock, loc: Loc, lines: seq<Line>)
    ensures var t := PostAll(s, loc, lines);
            && (forall k, l ::
                  OnHand(t.rows, k, l) == OnHand(s.rows, k, l) + (if l == loc then SumBy(VarianceOf(k), lines) else 0))
            && (forall k, l ::
                  Ledger(t, k, l) == Ledger(s, k, l) + (if l == loc then SumBy(VarianceOf(k), lines) else 0))
            && (forall k, l ::
                  Replayed(t, k, l) == Replayed(s, k, l) + (if l == loc then SumBy(VarianceOf(k), lines) else 0))
            && (UniqueRows(s.rows) ==> UniqueRows(t.rows))
            && |t.movements| == |s.movements| + Postings(lines)
  {
    hide OnHand, Ledger, Replayed, UniqueRows;
    if lines != [] {
      var front, l := lines[..|lines| - 1], lines[|lines| - 1];
      PostAllLaw(s, loc, front);
      if Posts(l) {
        RecordedLaw(PostAll(s, loc, front), l.sku, loc, Adjusted, l.variance.value);
      }
    }
  }

  lemma OneLine(lines: seq<Line>, i: nat)
    requires DistinctLines(lines) && i < |lines|
    ensures SumBy(VarianceOf(lines[i].sku), lines) == if Posts(lines[i]) then lines[i].variance.value else 0
  {
    var f, rest := VarianceOf(lines[i].sku), lines[..i] + lines[i + 1..];
    forall j | 0 <= j < |rest| ensures f(rest[j]) == 0 {
      assert rest[j] == if j < i then lines[j] else lines[j + 1];
    }
    SumBounds(f, rest, 0, 0);
    SumRemove(f, lines, i);
  }

  // ---------- Runs ----------

  /** The session `id` is at `loc` and remembers the stock `base`. */
  ghost predicate Kept(d: Desk, id: nat, base: seq<StockRow>, loc: Loc) {
    && id < |d.sessions| && d.sessions[id].loc == loc
    && Remembers(d.sessions[id].lines, base, loc) && UniqueRows(d.stock.rows)
  }

  lemma ActKeeps(d: Desk, op: DeskOp, id: nat, base: seq<StockRow>, loc: Loc)
    requires Kept(d, id, base, loc)
    ensures Kept(Act(d, op), id, base, loc)
    ensures !Open(d, id) ==> !Open(Act(d, op), id)
  {
    hide Remembers, UniqueRows, Snapshot, CountAll, PostAll, Inventory.Apply;
    match op
    case StockOp(o) =>
      if Attempt(d.stock, o).Some? {
        Inventory.StepLaw(d.stock, o);
      }
    case StartOp(_) =>
    case RecordOp(m, counts) =>
      if Open(d, m) && m == id {
        CountsRemember(d.sessions[id].lines, counts, base, loc);
      }
    case ApproveOp(m) =>
      if Open(d, m) {
        PostAllLaw(d.stock, d.sessions[m].loc, d.sessions[m].lines);
      }
    case CancelOp(_) =>
  }

  lemma {:induction false} ActAllKeeps(d: Desk, ops: seq<DeskOp>, id: nat, base: seq<StockRow>, loc: Loc)
    requires Kept(d, id, base, loc)
    ensures Kept(ActAll(d, ops), id, base, loc)
    ensures !Open(d, id) ==> !Open(ActAll(d, ops), id)
  {
    if ops != [] {
      ActAllKeeps(d, ops[..|ops| - 1], id, base, loc);
      ActKeeps(ActAll(d, ops[..|ops| - 1]), ops[|ops| - 1], id, base, loc);
    }
  }

  /** The quantity last counted for a SKU in a session, if any. */
  function CountedFor(lines: seq<Line>, sku: Sku): Option<int> {
    var i := FindLine(lines, sku);
    if i < |lines| then lines[i].counted else None
  }

  /** The quantity submitted last for a SKU in one list of counts, if any. */
  function LastCount(counts: seq<Count>, sku: Sku): Option<int> {
    if counts == [] then None
    else if counts[|counts| - 1].sku == sku then Some(counts[|counts| - 1].quantity)
    else LastCount(counts[..|counts| - 1], sku)
  }

  function Newer(latest: Option<int>, earlier: Option<int>): Option<int> {
    if latest.Some? then latest else earlier
  }

  lemma CountedOne(lines: seq<Line>, c: Count, sku: Sku)
    ensures CountedFor(Count1(lines, c), sku) == if c.sku == sku then Some(c.quantity) else CountedFor(lines, sku)
  {
    var i, after := FindLine(lines, c.sku), Count1(lines, c);
    var j, k := FindLine(lines, sku), FindLine(after, sku);
    assert forall m | 0 <= m < |lines| :: after[m].sku == lines[m].sku && (m != i ==> after[m] == lines[m]);
    assert after[i].sku == c.sku && after[i].counted == Some(c.quantity);
    hide FindLine;
    if j < |lines| {
      assert after[j].sku == sku;
    } else if c.sku == sku {
      assert i == |lines|;
    }
  }

  /** What a session holds for a SKU after a list of counts is what was submitted for
      it last, and what it held before if nothing was. */
  lemma {:induction false} CountedAfter(lines: seq<Line>, counts: seq<Count>, sku: Sku)
    ensures CountedFor(CountAll(lines, counts), sku) == Newer(LastCount(counts, sku), CountedFor(lines, sku))
  {
    if counts != [] {
      var n := |counts| - 1;
      CountedAfter(lines, counts[..n], sku);
      CountedOne(CountAll(lines, counts[..n]), counts[n], sku);
    }
  }

  /** The quantity submitted last for a SKU to session `id` over a run. */
  function Submitted(ops: seq<DeskOp>, id: nat, sku: Sku): Option<int> {
    if ops == [] then None
    else
      var op, earlier := ops[|ops| - 1], Submitted(ops[..|ops| - 1], id, sku);
      if op.RecordOp? && op.id == id then Newer(LastCount(op.counts, sku), earlier) else earlier
  }

  lemma ActCounted(d: Desk, op: DeskOp, id: nat, sku: Sku)
    requires id < |d.sessions| && Open(Act(d, op), id)
    ensures Open(d, id) && id < |Act(d, op).sessions|
    ensures var earlier := CountedFor(d.sessions[id].lines, sku);
            CountedFor(Act(d, op).sessions[id].lines, sku) ==
              if op.RecordOp? && op.id == id then Newer(LastCount(op.counts, sku), earlier) else earlier
  {
    hide CountedFor, CountAll, PostAll, Snapshot, LastCount, Inventory.Apply;
    if op.RecordOp? && op.id == id && Open(d, id) {
      CountedAfter(d.sessions[id].lines, op.counts, sku);
    }
  }

  lemma {:induction false} RunCounted(d: Desk, ops: seq<DeskOp>, id: nat, sku: Sku)
    requires id < |d.sessions| && Open(ActAll(d, ops), id)
    ensures Open(d, id) && id < |ActAll(d, ops).sessions|
    ensures CountedFor(ActAll(d, ops).sessions[id].lines, sku) ==
              Newer(Submitted(ops, id, sku), CountedFor(d.sessions[id].lines, sku))
  {
    hide CountedFor, Act, Open;
    if ops != [] {
      var front := ActAll(d, ops[..|ops| - 1]);
      SessionsGrow(d, ops[..|ops| - 1]);
      ActCounted(front, ops[|ops| - 1], id, sku);
      RunCounted(d, ops[..|ops| - 1], id, sku);
    }
  }

  lemma {:induction false} SessionsGrow(d: Desk, ops: seq<DeskOp>)
    ensures |d.sessions| <= |ActAll(d, ops).sessions|
  {
    hide CountAll, PostAll, Snapshot, Inventory.Apply;
    if ops != [] {
      SessionsGrow(d, ops[..|ops| - 1]);
    }
  }

  lemma NothingCounted(rows: seq<StockRow>, loc: Loc, sku: Sku)
    requires UniqueRows(rows)
    ensures CountedFor(Snapshot(rows, loc), sku) == None
  {
    SnapshotLines(rows, loc);
  }

  /** Whatever sales, transfers, adjustments and other counts happen between the
      start and the approval of a session: a SKU for which a quantity was submitted
      ends at the quantity submitted last plus what moved since the start, also when
      it was first found during the count; every other balance is untouched. */
  lemma ApprovalRebases(d: Desk, loc: Loc, ops: seq<DeskOp>, sku: Sku, at: Loc)
    requires UniqueRows(d.stock.rows)
    ensures var id, before := |d.sessions|, ActAll(Start(d, loc), ops);
            Approve(before, id).Some? ==>
              var after, counted := Approve(before, id).value, Submitted(ops, id, sku);
              OnHand(after.stock.rows, sku, at) ==
                if at == loc && counted.Some?
                then counted.value + (OnHand(before.stock.rows, sku, at) - OnHand(d.stock.rows, sku, at))
                else OnHand(before.stock.rows, sku, at)
  {
    var id, before := |d.sessions|, ActAll(Start(d, loc), ops);
    SnapshotRemembers(d.stock.rows, loc);
    ActAllKeeps(Start(d, loc), ops, id, d.stock.rows, loc);
    var lines := before.sessions[id].lines;
    if Approve(before, id).Some? {
      RunCounted(Start(d, loc), ops, id, sku);
      NothingCounted(d.stock.rows, loc, sku);
    }
    PostAllLaw(before.stock, loc, lines);
    var i := FindLine(lines, sku);
    if i < |lines| {
      OneLine(lines, i);
    } else {
      SumBounds(VarianceOf(sku), lines, 0, 0);
    }
  }

  /** A session is approved at most once, and a closed one never reopens. */
  lemma ApprovedOnce(d: Desk, loc: Loc, ops: seq<DeskOp>, later: seq<DeskOp>)
    requires UniqueRows(d.stock.rows)
    ensures var id, before := |d.sessions|, ActAll(Start(d, loc), ops);
            && (Approve(before, id).Some? ==> Approve(ActAll(Approve(before, id).value, later), id).None?)
            && (Cancel(before, id).Some? ==> Approve(ActAll(Cancel(before, id).value, later), id).None?)
  {
    var id, before := |d.sessions|, ActAll(Start(d, loc), ops);
    SnapshotRemembers(d.stock.rows, loc);
    ActAllKeeps(Start(d, loc), ops, id, d.stock.rows, loc);
    if Approve(before, id).Some? {
      ActKeeps(before, ApproveOp(id), id, d.stock.rows, loc);
      ActAllKeeps(Approve(before, id).value, later, id, d.stock.rows, loc);
    }
    if Cancel(before, id).Some? {
      ActKeeps(before, CancelOp(id), id, d.stock.rows, loc);
      ActAllKeeps(Cancel(before, id).value, later, id, d.stock.rows, loc);
    }
  }

  function AtLocation(rows: seq<StockRow>, loc: Loc): set<nat> {
    set i | 0 <= i < |rows| && rows[i].loc == loc
  }

  function WithCount(lines: seq<Line>): set<nat> {
    set i | 0 <= i < |lines| && lines[i].counted.Some?
  }

  lemma {:induction false} SnapshotSize(rows: seq<StockRow>, loc: Loc)
    ensures |Snapshot(rows, loc)| == |AtLocation(rows, loc)|
  {
    if rows != [] {
      var n := |rows| - 1;
      SnapshotSize(rows[..n], loc);
      assert AtLocation(rows, loc) == AtLocation(rows[..n], loc) + if rows[n].loc == loc then {n} else {};
    }
  }

  lemma {:induction false} CountedSize(lines: seq<Line>)
    ensures CountedLines(lines) == |WithCount(lines)|
  {
    if lines != [] {
      var n := |lines| - 1;
      CountedSize(lines[..n]);
      assert WithCount(lines) == WithCount(lines[..n]) + if lines[n].counted.Some? then {n} else {};
    }
  }

  /** What opening, counting and closing a session leave alone, when the last three
      are refused, and what the events report: the stock rows at the location, the
      movements an approval made, and the lines that had a count. */
  lemma SessionExactly(d: Desk, loc: Loc, id: nat, counts: seq<Count>)
    ensures var begun := Start(d, loc);
            && begun.stock == Told(d.stock, CountStarted(|d.sessions|, loc, |AtLocation(d.stock.rows, loc)|))
            && |begun.sessions| == |d.sessions| + 1 && begun.sessions[..|d.sessions|] == d.sessions
            && begun.sessions[|d.sessions|].loc == loc && begun.sessions[|d.sessions|].status == InProgress
    ensures var open := id < |d.sessions| && d.sessions[id].status == InProgress;
            && (Record(d, id, counts).Some? <==> open)
            && (Approve(d, id).Some? <==> open)
            && (Cancel(d, id).Some? <==> open)
            && (open ==>
                  var s, written := d.sessions[id], Record(d, id, counts).value;
                  var approved, cancelled := Approve(d, id).value, Cancel(d, id).value;
                  && written.stock == d.stock && |written.sessions| == |d.sessions|
                  && written.sessions == d.sessions[id := Session(s.loc, InProgress, written.sessions[id].lines)]
                  && approved.sessions == d.sessions[id := Session(s.loc, Completed, s.lines)]
                  && approved.stock.log != []
                  && var e := approved.stock.log[|approved.stock.log| - 1];
                  && e.CountApproved? && e == CountApproved(id, s.loc, |s.lines|, e.adjustments)
                  && |approved.stock.movements| == |d.stock.movements| + e.adjustments
                  && cancelled.sessions == d.sessions[id := Session(s.loc, Cancelled, s.lines)]
                  && cancelled.stock == Told(d.stock, CountCancelled(id, s.loc, |WithCount(s.lines)|)))
  {
    SnapshotSize(d.stock.rows, loc);
    hide Snapshot, CountAll, PostAll, CountedLines;
    if Open(d, id) {
      var s := d.sessions[id];
      PostAllLaw(d.stock, s.loc, s.lines);
      CountedSize(s.lines);
    }
  }

  /** Balance, movement ledger and replayed events moved by the same amount. */
  ghost predicate InTune(s: Stock, t: Stock, sku: Sku, loc: Loc) {
    && OnHand(t.rows, sku, loc) - Ledger(t, sku, loc) == OnHand(s.rows, sku, loc) - Ledger(s, sku, loc)
    && OnHand(t.rows, sku, loc) - Replayed(t, sku, loc) == OnHand(s.rows, sku, loc) - Replayed(s, sku, loc)
  }

  lemma ToldInTune(s: Stock, e: Event, sku: Sku, loc: Loc)
    requires e.CountStarted? || e.CountApproved? || e.CountCancelled?
    ensures InTune(s, Told(s, e), sku, loc)
  {
    hide OnHand, SumBy;
    assert Ledger(Told(s, e), sku, loc) == Ledger(s, sku, loc);
    assert EventAt(sku, loc)(e) == 0;
    SumPush(EventAt(sku, loc), s.log, e);
  }

  lemma PostedInTune(s: Stock, at: Loc, lines: seq<Line>, sku: Sku, loc: Loc)
    ensures InTune(s, PostAll(s, at, lines), sku, loc)
  {
    PostAllLaw(s, at, lines);
  }

  lemma MovedInTune(s: Stock, o: Op, sku: Sku, loc: Loc)
    requires Attempt(s, o).Some?
    ensures InTune(s, Inventory.Apply(s, o), sku, loc)
  {
    hide OnHand, Ledger, Replayed, Inventory.Apply;
    Inventory.StepLaw(s, o);
  }

  lemma InTuneChain(s: Stock, t: Stock, u: Stock, sku: Sku, loc: Loc)
    requires InTune(s, t, sku, loc) && InTune(t, u, sku, loc)
    ensures InTune(s, u, sku, loc)
  {
  }

  lemma ActInTune(d: Desk, op: DeskOp, sku: Sku, loc: Loc)
    ensures InTune(d.stock, Act(d, op).stock, sku, loc)
  {
    hide Snapshot, CountAll, PostAll, Inventory.Apply, Attempt;
    match op
    case StockOp(o) =>
      if Attempt(d.stock, o).Some? {
        MovedInTune(d.stock, o, sku, loc);
      }
    case StartOp(at) =>
      ToldInTune(d.stock, CountStarted(|d.sessions|, at, |Snapshot(d.stock.rows, at)|), sku, loc);
    case RecordOp(_, _) =>
    case ApproveOp(id) =>
      if Open(d, id) {
        var s := d.sessions[id];
        var posted, e := PostAll(d.stock, s.loc, s.lines), CountApproved(id, s.loc, |s.lines|, Postings(s.lines));
        PostedInTune(d.stock, s.loc, s.lines, sku, loc);
        ToldInTune(posted, e, sku, loc);
        InTuneChain(d.stock, posted, Told(posted, e), sku, loc);
      }
    case CancelOp(id) =>
      if Open(d, id) {
        ToldInTune(d.stock, CountCancelled(id, d.sessions[id].loc, CountedLines(d.sessions[id].lines)), sku, loc);
      }
  }

  /** Counting included, balance, movement ledger and replayed events stay equal
      over every run that starts with them equal. */
  lemma {:induction false} DeskBalanced(d: Desk, ops: seq<DeskOp>, sku: Sku, loc: Loc)
    ensures InTune(d.stock, ActAll(d, ops).stock, sku, loc)
  {
    if ops != [] {
      var before := ActAll(d, ops[..|ops| - 1]);
      DeskBalanced(d, ops[..|ops| - 1], sku, loc);
      ActInTune(before, ops[|ops| - 1], sku, loc);
      InTuneChain(d.stock, before.stock, ActAll(d, ops).stock, sku, loc);
    }
  }

  // ---------- The service ----------

  class CountService {
    const inventory: InventoryService
    var sessions: seq<Session>

    constructor (inventory: InventoryService)
      ensures this.inventory == inventory && sessions == []
    {
      this.inventory, sessions := inventory, [];
    }

    function Now(): Desk
      reads this, inventory
    {
      Desk(inventory.Now(), sessions)
    }

    method StartCount(loc: Loc) returns (id: nat)
      modifies this, inventory`log
      ensures Now() == Start(old(Now()), loc) && id == |old(sessions)|
    {
      id := |sessions|;
      var lines := [];
      var i := 0;
      while i < |inventory.rows|
        modifies {}
        invariant 0 <= i <= |inventory.rows| && lines == Snapshot(inventory.rows[..i], loc)
      {
        assert inventory.rows[..i + 1][..i] == inventory.rows[..i];
        var row := inventory.rows[i];
        if row.loc == loc {
          lines := lines + [Line(row.sku, row.onHand, None, None)];
        }
        i := i + 1;
      }
      assert inventory.rows[..i] == inventory.rows;
      sessions := sessions + [Session(loc, InProgress, lines)];
      inventory.log := inventory.log + [CountStarted(id, loc, |lines|)];
    }

    method RecordCounts(id: nat, counts: seq<Count>) returns (ok: bool)
      modifies this
      ensures ok == Open(old(Now()), id) && Now() == Act(old(Now()), RecordOp(id, counts))
    {
      if id >= |sessions| || sessions[id].status != InProgress {
        return false;
      }
      var lines := sessions[id].lines;
      var i := 0;
      while i < |counts|
        modifies {}
        invariant 0 <= i <= |counts| && lines == CountAll(old(sessions)[id].lines, counts[..i])
      {
        assert counts[..i + 1][..i] == counts[..i];
        var c := counts[i];
        var k := FindLine(lines, c.sku);
        if k == |lines| {
          lines := lines + [Line(c.sku, 0, None, None)];
        }
        lines := lines[k := lines[k].(counted := Some(c.quantity), variance := Some(c.quantity - lines[k].system))];
        i := i + 1;
      }
      assert counts[..i] == counts;
      sessions := sessions[id := sessions[id].(lines := lines)];
      return true;
    }

    method ApproveCount(id: nat) returns (ok: bool)
      modifies this, inventory
      ensures ok == Open(old(Now()), id) && Now() == Act(old(Now()), ApproveOp(id))
    {
      if id >= |sessions| || sessions[id].status != InProgress {
        return false;
      }
      var s := sessions[id];
      var adjustments := 0;
      var i := 0;
      while i < |s.lines|
        modifies inventory
        invariant 0 <= i <= |s.lines| && adjustments == Postings(s.lines[..i])
        invariant inventory.Now() == PostAll(old(inventory.Now()), s.loc, s.lines[..i])
      {
        assert s.lines[..i + 1][..i] == s.lines[..i];
        var line := s.lines[i];
        if line.counted.Some? && line.variance.Some? && line.variance.value != 0 {
          inventory.AdjustStock(line.sku, s.loc, line.variance.value);
          adjustments := adjustments + 1;
        }
        i := i + 1;
      }
      assert s.lines[..i] == s.lines;
      sessions := sessions[id := s.(status := Completed)];
      inventory.log := inventory.log + [CountApproved(id, s.loc, |s.lines|, adjustments)];
      return true;
    }

    method CancelCount(id: nat) returns (ok: bool)
      modifies this, inventory`log
      ensures ok == Open(old(Now()), id) && Now() == Act(old(Now()), CancelOp(id))
    {
      if id >= |sessions| || sessions[id].status != InProgress {
        return false;
      }
      var s := sessions[id];
      sessions := sessions[id := s.(status := Cancelled)];
      inventory.log := inventory.log + [CountCancelled(id, s.loc, CountedLines(s.lines))];
      return true;
    }
  }
}
