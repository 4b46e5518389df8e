/** EventLogger and EventProcessor: the append-only event log with idempotency
    keys, and the batches that offline devices send, resend and lose half-way. */
module EventSync {
  import opened Options

  /** A field as the device sent it. */
  datatype Id = Uuid(n: nat) | Malformed(text: string)
  datatype Moment = Instant(n: nat) | Unreadable(text: string)
  datatype KeyField = Missing | Null | Key(text: string)

  datatype EventData = EventData(
    entityType: Option<string>, entityId: Option<Id>, operationType: Option<string>, payload: Option<string>,
    performedAt: Option<Moment>, deviceId: Option<string>, key: KeyField)

  /** An event on its way; `fault` says that the database fails this attempt. */
  datatype Submission = Submission(data: EventData, fault: bool)

  datatype Event = Event(
    entityType: string, entityId: Id, operationType: string, source: string, payload: string,
    performedBy: Option<nat>, performedAt: Moment, synced: bool, deviceId: Option<string>, key: Option<string>)

  // ---------- The source of an event ----------

  /** One prefix of the event-source map, with the source it stands for. */
  datatype Rule = Rule(source: string, prefix: string)

  function Resolve(rules: seq<Rule>, operation: string): string {
    if rules == [] then "production"
    else if rules[0].prefix <= operation then rules[0].source
    else Resolve(rules[1..], operation)
  }

  /** No operation type can match prefixes of two different sources. */
  predicate Exclusive(rules: seq<Rule>) {
    forall i, j | 0 <= i < |rules| && 0 <= j < |rules| && rules[i].source != rules[j].source ::
      !(rules[i].prefix <= rules[j].prefix)
  }

  /** With exclusive prefixes the search order is irrelevant: whichever rule
      matches names the source. */
  lemma {:induction false} ResolveExact(rules: seq<Rule>, operation: string, i: nat)
    requires Exclusive(rules) && i < |rules| && rules[i].prefix <= operation
    ensures Resolve(rules, operation) == rules[i].source
  {
    if rules[0].prefix <= operation {
      var p, q := rules[0].prefix, rules[i].prefix;
      if |p| <= |q| {
        assert p == operation[..|p|] && q == operation[..|q|] && p == q[..|p|];
      } else {
        assert p == operation[..|p|] && q == operation[..|q|] && q == p[..|q|];
      }
    } else {
      ResolveExact(rules[1..], operation, i - 1);
    }
  }

  /** The map as shipped, read top to bottom. */
  const SOURCES := [
    Rule("lab", "lab_"), Rule("lab", "fermentation_"), Rule("lab", "sensory_"),
    Rule("inventory", "stock_"), Rule("inventory", "purchase_"), Rule("inventory", "equipment_"),
    Rule("inventory", "dry_goods_"), Rule("inventory", "raw_material_"),
    Rule("accounting", "cost_"), Rule("accounting", "cogs_"),
    Rule("compliance", "ttb_"), Rule("compliance", "license_"), Rule("compliance", "compliance_")]

  /** Three leading characters tell the sources of the shipped prefixes apart. */
  function HeadSource(a: char, b: char, c: char): string {
    if a == 'f' || (a == 'l' && b == 'a') || (a == 's' && b == 'e') then "lab"
    else if a == 'l' || a == 't' || (a == 'c' && c == 'm') then "compliance"
    else if a == 'c' then "accounting"
    else "inventory"
  }

  predicate HeadTells(r: Rule) {
    |r.prefix| >= 3 && r.source == HeadSource(r.prefix[0], r.prefix[1], r.prefix[2])
  }

  lemma LabHeads(i: nat)
    requires i < 5
    ensures HeadTells(SOURCES[i])
  {
  }

  lemma StoreHeads(i: nat)
    requires 5 <= i < 9
    ensures HeadTells(SOURCES[i])
  {
  }

  lemma OfficeHeads(i: nat)
    requires 9 <= i < |SOURCES|
    ensures HeadTells(SOURCES[i])
  {
  }

  lemma HeadsTell(i: nat)
    requires i < |SOURCES|
    ensures HeadTells(SOURCES[i])
  {
    hide HeadTells;
    if i < 5 {
      LabHeads(i);
    } else if i < 9 {
      StoreHeads(i);
    } else {
      OfficeHeads(i);
    }
  }

  lemma ShippedExclusive()
    ensures Exclusive(SOURCES)
  {
    forall i, j | 0 <= i < |SOURCES| && 0 <= j < |SOURCES| && SOURCES[i].source != SOURCES[j].source
      ensures !(SOURCES[i].prefix <= SOURCES[j].prefix)
    {
      hide SOURCES, HeadSource;
      HeadsTell(i);
      HeadsTell(j);
    }
  }

  // ---------- Writing one event ----------

  /** Position of the event that holds the key, or the log's length. */
  function FindKey(log: seq<Event>, key: string): (i: nat)
    ensures i <= |log|
    ensures i < |log| ==> log[i].key == Some(key)
    ensures forall j | 0 <= j < i :: log[j].key != Some(key)
  {
    if log == [] || log[0].key == Some(key) then 0 else 1 + FindKey(log[1..], key)
  }

  predicate Claimed(log: seq<Event>, key: Option<string>) {
    key.Some? && FindKey(log, key.value) < |log|
  }

  /** The column constraints of the events table. */
  predicate Storable(e: Event) {
    && |e.entityType| <= 50 && |e.operationType| <= 50 && e.entityId.Uuid? && e.performedAt.Instant?
    && (e.deviceId.Some? ==> |e.deviceId.value| <= 100)
    && (e.key.Some? ==> |e.key.value| <= 100)
  }

  datatype Written = Existing(position: nat) | Created(position: nat) | Refused

  /** An existing key wins before any other look at the event. */
  function LogEvent(log: seq<Event>, e: Event): (Written, seq<Event>) {
    if Claimed(log, e.key) then (Existing(FindKey(log, e.key.value)), log)
    else if !Storable(e) then (Refused, log)
    else (Created(|log|), log + [e])
  }

  // ---------- One event of a batch ----------

  /** The fields the processor reads without a default. */
  predicate Complete(d: EventData) {
    d.entityType.Some? && d.entityId.Some? && d.operationType.Some? && d.payload.Some?
    && d.performedAt.Some? && d.key != Missing
  }

  function Received(rules: seq<Rule>, user: nat, d: EventData): Event
    requires Complete(d)
  {
    Event(d.entityType.value, d.entityId.value, d.operationType.value, Resolve(rules, d.operationType.value),
          d.payload.value, Some(user), d.performedAt.value, true, d.deviceId,
          if d.key.Key? then Some(d.key.text) else None)
  }

  datatype Result = Accepted(position: nat) | Skipped(position: nat) | Failed

  function Process(rules: seq<Rule>, user: nat, log: seq<Event>, s: Submission): (Result, seq<Event>) {
    if s.fault || !Complete(s.data) then (Failed, log)
    else
      var (w, after) := LogEvent(log, Received(rules, user, s.data));
      match w
      case Existing(i) => (Skipped(i), after)
      case Created(i) => (Accepted(i), after)
      case Refused => (Failed, log)
  }

  function After(rules: seq<Rule>, user: nat, log: seq<Event>, batch: seq<Submission>): seq<Event> {
    if batch == [] then log
    else Process(rules, user, After(rules, user, log, batch[..|batch| - 1]), batch[|batch| - 1]).1
  }

  function Results(rules: seq<Rule>, user: nat, log: seq<Event>, batch: seq<Submission>): (rs: seq<Result>)
    ensures |rs| == |batch|
  {
    if batch == [] then []
    else
      var front := batch[..|batch| - 1];
      Results(rules, user, log, front) + [Process(rules, user, After(rules, user, log, front), batch[|batch| - 1]).0]
  }

  function CountAccepted(rs: seq<Result>): nat {
    if rs == [] then 0 else CountAccepted(rs[..|rs| - 1]) + (if rs[|rs| - 1].Accepted? then 1 else 0)
  }

  function CountSkipped(rs: seq<Result>): nat {
    if rs == [] then 0 else CountSkipped(rs[..|rs| - 1]) + (if rs[|rs| - 1].Skipped? then 1 else 0)
  }

  function CountFailed(rs: seq<Result>): nat {
    if rs == [] then 0 else CountFailed(rs[..|rs| - 1]) + (if rs[|rs| - 1].Failed? then 1 else 0)
  }

  lemma ProcessOneMore(rules: seq<Rule>, user: nat, log: seq<Event>, batch: seq<Submission>, i: nat)
    requires i < |batch|
    ensures var (r, after) := Process(rules, user, After(rules, user, log, batch[..i]), batch[i]);
            && After(rules, user, log, batch[..i + 1]) == after
            && Results(rules, user, log, batch[..i + 1]) == Results(rules, user, log, batch[..i]) + [r]
  {
    assert batch[..i + 1][..i] == batch[..i];
  }

  predicate Counted(rs: seq<Result>, accepted: nat, skipped: nat, failed: nat) {
    accepted == CountAccepted(rs) && skipped == CountSkipped(rs) && failed == CountFailed(rs)
  }

  lemma CountOneMore(rs: seq<Result>, r: Result, accepted: nat, skipped: nat, failed: nat)
    requires Counted(rs, accepted, skipped, failed)
    ensures Counted(rs + [r], accepted + (if r.Accepted? then 1 else 0), skipped + (if r.Skipped? then 1 else 0),
                    failed + (if r.Failed? then 1 else 0))
  {
    assert (rs + [r])[..|rs|] == rs;
  }

  // ---------- The services ----------

  class EventStore {
    var log: seq<Event>
    const rules: seq<Rule>

    constructor (rules: seq<Rule>)
      ensures this.rules == rules && log == []
    {
      this.rules, log := rules, [];
    }

    method ResolveSource(operation: string) returns (source: string)
      ensures source == Resolve(rules, operation)
    {
      var i := 0;
      while i < |rules|
        invariant 0 <= i <= |rules| && Resolve(rules, operation) == Resolve(rules[i..], operation)
      {
        if rules[i].prefix <= operation {
          return rules[i].source;
        }
        i := i + 1;
      }
      return "production";
    }

    method Log(e: Event) returns (w: Written)
      modifies this`log
      ensures (w, log) == LogEvent(old(log), e)
    {
      if e.key.Some? {
        var i := FindKey(log, e.key.value);
        if i < |log| {
          return Existing(i);
        }
      }
      if !Storable(e) {
        return Refused;
      }
      log := log + [e];
      return Created(|log| - 1);
    }

    method ProcessBatch(user: nat, batch: seq<Submission>)
      returns (results: seq<Result>, accepted: nat, skipped: nat, failed: nat)
      modifies this`log
      ensures log == After(rules, user, old(log), batch) && results == Results(rules, user, old(log), batch)
      ensures accepted == CountAccepted(results) && skipped == CountSkipped(results) && failed == CountFailed(results)
    {
      results, accepted, skipped, failed := [], 0, 0, 0;
      var i := 0;
      while i < |batch|
        invariant 0 <= i <= |batch|
        invariant log == After(rules, user, old(log), batch[..i])
        invariant results == Results(rules, user, old(log), batch[..i])
        invariant Counted(results, accepted, skipped, failed)
      {
        hide *;
        ProcessOneMore(rules, user, old(log), batch, i);
        var result := ProcessEvent(user, batch[i]);
        CountOneMore(results, result, accepted, skipped, failed);
        match result {
          case Accepted(_) => accepted := accepted + 1;
          case Skipped(_) => skipped := skipped + 1;
          case Failed => failed := failed + 1;
        }
        results := results + [result];
        i := i + 1;
      }
      assert batch[..i] == batch;
    }

    /** One event in its own transaction; whatever goes wrong is rolled back. */
    method ProcessEvent(user: nat, s: Submission) returns (result: Result)
      modifies this`log
      ensures (result, log) == Process(rules, user, old(log), s)
    {
      if !Complete(s.data) {
        return Failed;
      }
      var saved := log;
      var source := ResolveSource(s.data.operationType.value);
      var w := Log(Event(s.data.entityType.value, s.data.entityId.value, s.data.operationType.value, source,
                         s.data.payload.value, Some(user), s.data.performedAt.value, true, s.data.deviceId,
                         if s.data.key.Key? then Some(s.data.key.text) else None));
      if s.fault || w.Refused? {
        log := saved;
        return Failed;
      }
      return if w.Existing? then Skipped(w.position) else Accepted(w.position);
    }
  }

  // ---------- Exactly once ----------

  predicate UniqueKeys(log: seq<Event>) {
    forall i, j | 0 <= i < j < |log| && log[i].key.Some? :: log[i].key != log[j].key
  }

  lemma LogKeepsUnique(log: seq<Event>, e: Event)
    requires UniqueKeys(log)
    ensures UniqueKeys(LogEvent(log, e).1) && log <= LogEvent(log, e).1
  {
  }

  lemma ProcessLaw(rules: seq<Rule>, user: nat, log: seq<Event>, s: Submission)
    ensures var (r, after) := Process(rules, user, log, s);
            && log <= after && |after| == |log| + (if r.Accepted? then 1 else 0)
            && (UniqueKeys(log) ==> UniqueKeys(after))
  {
    if UniqueKeys(log) && !s.fault && Complete(s.data) {
      LogKeepsUnique(log, Received(rules, user, s.data));
    }
  }

  /** The log only grows, keys stay unique, and the counters add up. */
  lemma {:induction false} BatchLaw(rules: seq<Rule>, user: nat, log: seq<Event>, batch: seq<Submission>)
    ensures var after, rs := After(rules, user, log, batch), Results(rules, user, log, batch);
            && log <= after
            && (UniqueKeys(log) ==> UniqueKeys(after))
            && CountAccepted(rs) + CountSkipped(rs) + CountFailed(rs) == |batch|
            && |after| == |log| + CountAccepted(rs)
  {
    hide Process, UniqueKeys;
    if batch != [] {
      var front, last := batch[..|batch| - 1], batch[|batch| - 1];
      BatchLaw(rules, user, log, front);
      ProcessLaw(rules, user, After(rules, user, log, front), last);
      var rs := Results(rules, user, log, batch);
      assert rs[..|rs| - 1] == Results(rules, user, log, front);
    }
  }

  /** A batch may be cut anywhere: the parts leave the same log and results. */
  lemma {:induction false} BatchSplits(rules: seq<Rule>, user: nat, log: seq<Event>, a: seq<Submission>,
                                       b: seq<Submission>)
    ensures After(rules, user, log, a + b) == After(rules, user, After(rules, user, log, a), b)
    ensures Results(rules, user, log, a + b) ==
              Results(rules, user, log, a) + Results(rules, user, After(rules, user, log, a), b)
  {
    if b == [] {
      assert a + b == a;
    } else {
      var front := b[..|b| - 1];
      assert (a + b)[..|a + b| - 1] == a + front;
      BatchSplits(rules, user, log, a, front);
    }
  }

  // ---------- What is stored is what was sent ----------

  /** The data an event was made from, rebuilt. */
  function SentBack(e: Event): EventData {
    EventData(Some(e.entityType), Some(e.entityId), Some(e.operationType), Some(e.payload), Some(e.performedAt),
              e.deviceId, if e.key.Some? then Key(e.key.value) else Null)
  }

  /** The source that the first matching prefix names, or else `production`. */
  predicate SourcedFrom(rules: seq<Rule>, operation: string, source: string) {
    || (exists i :: 0 <= i < |rules| && rules[i].prefix <= operation && rules[i].source == source
                    && forall j | 0 <= j < i :: !(rules[j].prefix <= operation))
    || (source == "production" && forall j | 0 <= j < |rules| :: !(rules[j].prefix <= operation))
  }

  lemma {:induction false} ResolveFinds(rules: seq<Rule>, operation: string)
    ensures SourcedFrom(rules, operation, Resolve(rules, operation))
  {
    if rules != [] && !(rules[0].prefix <= operation) {
      ResolveFinds(rules[1..], operation);
      var source := Resolve(rules, operation);
      if i :| 0 <= i < |rules| - 1 && rules[1..][i].prefix <= operation && rules[1..][i].source == source
              && forall j | 0 <= j < i :: !(rules[1..][j].prefix <= operation) {
        assert rules[i + 1].prefix <= operation && rules[i + 1].source == source;
        forall j | 0 <= j < i + 1 ensures !(rules[j].prefix <= operation) {
          if 0 < j {
            assert rules[j] == rules[1..][j - 1];
          }
        }
      } else {
        forall j | 0 <= j < |rules| ensures !(rules[j].prefix <= operation) {
          if 0 < j {
            assert rules[j] == rules[1..][j - 1];
          }
        }
      }
    }
  }

  /** The event says what the submission said, who sent it and that it was synced. */
  predicate Files(rules: seq<Rule>, user: nat, d: EventData, e: Event) {
    && SentBack(e) == d && e.performedBy == Some(user) && e.synced
    && SourcedFrom(rules, e.operationType, e.source)
  }

  /** The columns can hold the data. */
  predicate Fits(d: EventData) {
    && Complete(d)
    && |d.entityType.value| <= 50 && |d.operationType.value| <= 50
    && d.entityId.value.Uuid? && d.performedAt.value.Instant?
    && (d.deviceId.Some? ==> |d.deviceId.value| <= 100)
    && (d.key.Key? ==> |d.key.text| <= 100)
  }

  lemma ReceivedFiles(rules: seq<Rule>, user: nat, d: EventData)
    requires Complete(d)
    ensures Files(rules, user, d, Received(rules, user, d))
    ensures Storable(Received(rules, user, d)) <==> Fits(d)
    ensures Received(rules, user, d).key == if d.key.Key? then Some(d.key.text) else None
  {
    ResolveFinds(rules, d.operationType.value);
  }

  /** Some event has the key that was sent. */
  predicate Taken(log: seq<Event>, d: EventData) {
    d.key.Key? && Claimed(log, Some(d.key.text))
  }

  /** What one submission does, in terms of the data sent. It is accepted exactly when it
      meets no fault, is complete and fits the columns, and its key is free; then the log
      gains one event that says what it said. It is skipped exactly when an event has its
      key, and the position of that event is reported. */
  lemma ProcessExactly(rules: seq<Rule>, user: nat, log: seq<Event>, s: Submission)
    ensures var (r, after) := Process(rules, user, log, s);
            var taken := s.data.key.Key? && exists i :: 0 <= i < |log| && log[i].key == Some(s.data.key.text);
            && (r.Accepted? <==> !s.fault && Fits(s.data) && !taken)
            && (r.Skipped? <==> !s.fault && Complete(s.data) && taken)
            && (r.Accepted? ==>
                  && r.position == |log| && |after| == |log| + 1 && after[..|log|] == log
                  && Files(rules, user, s.data, after[|log|]))
            && (r.Skipped? ==>
                  after == log && r.position < |log| && log[r.position].key == Some(s.data.key.text))
            && (r.Failed? ==> after == log)
  {
    if !s.fault && Complete(s.data) {
      ReceivedFiles(rules, user, s.data);
      if s.data.key.Key? {
        KeyFound(log, s.data.key.text);
      }
    }
    hide FindKey, Files, Storable;
  }

  /** A failed event leaves the log as it was, so its key stays free. */
  lemma FailedChangesNothing(rules: seq<Rule>, user: nat, log: seq<Event>, s: Submission)
    ensures Process(rules, user, log, s).0.Failed? ==> Process(rules, user, log, s).1 == log
    ensures Process(rules, user, log, s).0.Skipped? ==> Process(rules, user, log, s).1 == log
    ensures Process(rules, user, log, s).0.Failed? <==>
              s.fault || !Complete(s.data) || (!Taken(log, s.data) && !Fits(s.data))
  {
    if Complete(s.data) {
      ReceivedFiles(rules, user, s.data);
    }
  }

  lemma KeyFound(log: seq<Event>, key: string)
    ensures FindKey(log, key) < |log| <==> exists i :: 0 <= i < |log| && log[i].key == Some(key)
  {
  }

  lemma ClaimStays(log: seq<Event>, more: seq<Event>, key: string)
    requires log <= more && FindKey(log, key) < |log|
    ensures FindKey(more, key) < |more|
  {
    assert more[FindKey(log, key)].key == Some(key);
  }

  /** Every event a batch adds says what one of its own submissions said. */
  lemma {:induction false} AddedFromBatch(rules: seq<Rule>, user: nat, log: seq<Event>, batch: seq<Submission>, p: nat)
    requires |log| <= p < |After(rules, user, log, batch)|
    ensures exists i :: 0 <= i < |batch| && !batch[i].fault && Complete(batch[i].data)
                        && Files(rules, user, batch[i].data, After(rules, user, log, batch)[p])
  {
    hide Files;
    var n := |batch| - 1;
    var before, after := After(rules, user, log, batch[..n]), After(rules, user, log, batch);
    if p < |before| {
      AddedFromBatch(rules, user, log, batch[..n], p);
      var i :| 0 <= i < n && !batch[..n][i].fault && Complete(batch[..n][i].data)
               && Files(rules, user, batch[..n][i].data, before[p]);
      assert batch[i] == batch[..n][i];
    } else {
      assert after[p] == Received(rules, user, batch[n].data);
      ReceivedFiles(rules, user, batch[n].data);
    }
  }

  /** The first attempt that succeeds under a free key decides what is stored under
      it; later events with the same key, however different, change nothing. */
  lemma FirstWins(rules: seq<Rule>, user: nat, log: seq<Event>, first: Submission, later: seq<Submission>, key: string)
    requires !Claimed(log, Some(key)) && !first.fault && Good(first.data, key)
    ensures var after := After(rules, user, log, [first] + later);
            FindKey(after, key) == |log| < |after| && Files(rules, user, first.data, after[|log|])
  {
    ReceivedFiles(rules, user, first.data);
    var e := Received(rules, user, first.data);
    BatchSplits(rules, user, log, [first], later);
    assert [first][..0] == [];
    assert After(rules, user, log, [first]) == log + [e];
    BatchLaw(rules, user, log + [e], later);
    var after := After(rules, user, log, [first] + later);
    assert after[|log|] == e;
    assert forall j | 0 <= j < |log| :: after[j] == log[j];
    KeyFound(log, key);
  }

  /** The event is done with: its key is taken, or it can never be stored. */
  predicate Settled(log: seq<Event>, d: EventData) {
    !Fits(d) || Taken(log, d)
  }

  lemma SettledStays(log: seq<Event>, more: seq<Event>, d: EventData)
    requires log <= more && Settled(log, d)
    ensures Settled(more, d)
  {
    if Taken(log, d) {
      ClaimStays(log, more, d.key.text);
    }
  }

  /** An attempt the database did not fail settles a keyed event. */
  lemma {:induction false} BatchSettles(rules: seq<Rule>, user: nat, log: seq<Event>, batch: seq<Submission>, i: nat)
    requires i < |batch| && !batch[i].fault && batch[i].data.key != Null
    ensures Settled(After(rules, user, log, batch), batch[i].data)
  {
    var front, last := batch[..|batch| - 1], batch[|batch| - 1];
    var before := After(rules, user, log, front);
    if i < |front| {
      BatchSettles(rules, user, log, front, i);
      BatchLaw(rules, user, before, [last]);
      assert [last][..0] == [];
      assert After(rules, user, before, [last]) == After(rules, user, log, batch);
      SettledStays(before, After(rules, user, log, batch), batch[i].data);
    } else if Fits(last.data) {
      ReceivedFiles(rules, user, last.data);
      var e := Received(rules, user, last.data);
      if !Claimed(before, e.key) && Storable(e) {
        KeyFound(before + [e], last.data.key.text);
        assert (before + [e])[|before|].key == Some(last.data.key.text);
      }
    }
  }

  /** Events that are settled are never written again, in whatever batch, order
      and number they come back, and whatever faults those attempts meet. */
  lemma {:induction false} ResendAppendsNothing(rules: seq<Rule>, user: nat, log: seq<Event>, again: seq<Submission>)
    requires forall i | 0 <= i < |again| :: Settled(log, again[i].data)
    ensures After(rules, user, log, again) == log
  {
    if again != [] {
      if Complete(again[|again| - 1].data) {
        ReceivedFiles(rules, user, again[|again| - 1].data);
      }
      ResendAppendsNothing(rules, user, log, again[..|again| - 1]);
    }
  }

  /** Resending anything out of a keyed batch that was processed without a
      database fault leaves the log as it is. */
  lemma ResendProcessed(rules: seq<Rule>, user: nat, log: seq<Event>, batch: seq<Submission>, again: seq<Submission>)
    requires forall i | 0 <= i < |batch| :: !batch[i].fault && batch[i].data.key != Null
    requires forall j | 0 <= j < |again| :: exists i :: 0 <= i < |batch| && batch[i].data == again[j].data
    ensures var after := After(rules, user, log, batch);
            After(rules, user, after, again) == after
  {
    var after := After(rules, user, log, batch);
    forall j | 0 <= j < |again| ensures Settled(after, again[j].data) {
      var i :| 0 <= i < |batch| && batch[i].data == again[j].data;
      BatchSettles(rules, user, log, batch, i);
    }
    ResendAppendsNothing(rules, user, after, again);
  }

  /** The event can be stored under its key. */
  predicate Good(d: EventData, key: string) {
    Fits(d) && d.key == Key(key)
  }

  lemma {:induction false} KeysComeFrom(rules: seq<Rule>, user: nat, log: seq<Event>, batch: seq<Submission>,
                                        key: string)
    requires Claimed(After(rules, user, log, batch), Some(key))
    ensures Claimed(log, Some(key)) || exists i :: 0 <= i < |batch| && Good(batch[i].data, key)
  {
    if batch != [] {
      var n := |batch| - 1;
      var before, after := After(rules, user, log, batch[..n]), After(rules, user, log, batch);
      if Claimed(before, Some(key)) {
        KeysComeFrom(rules, user, log, batch[..n], key);
        if i :| 0 <= i < n && Good(batch[..n][i].data, key) {
          assert batch[i] == batch[..n][i];
        }
      } else {
        KeyFound(before, key);
        KeyFound(after, key);
        ReceivedFiles(rules, user, batch[n].data);
        assert Good(batch[n].data, key);
      }
    }
  }

  /** Retries converge: however many attempts at a batch fail part-way, once one
      attempt meets no fault, the keys in the log are exactly those it had before
      and those of the batch's storable events, each held by exactly one event. */
  lemma RetriesConverge(rules: seq<Rule>, user: nat, log: seq<Event>, tries: seq<Submission>, last: seq<Submission>,
                        key: string)
    requires UniqueKeys(log)
    requires forall i | 0 <= i < |last| :: !last[i].fault && last[i].data.key != Null
    requires forall j | 0 <= j < |tries| :: exists i :: 0 <= i < |last| && last[i].data == tries[j].data
    ensures var after := After(rules, user, After(rules, user, log, tries), last);
            && UniqueKeys(after)
            && (Claimed(after, Some(key)) <==>
                  Claimed(log, Some(key)) || exists i :: 0 <= i < |last| && Good(last[i].data, key))
  {
    var mid := After(rules, user, log, tries);
    var after := After(rules, user, mid, last);
    BatchLaw(rules, user, log, tries);
    BatchLaw(rules, user, mid, last);
    if Claimed(after, Some(key)) {
      KeysComeFrom(rules, user, mid, last, key);
      if Claimed(mid, Some(key)) {
        KeysComeFrom(rules, user, log, tries, key);
        if j :| 0 <= j < |tries| && Good(tries[j].data, key) {
          var i :| 0 <= i < |last| && last[i].data == tries[j].data;
          assert Good(last[i].data, key);
        }
      }
    }
    if Claimed(log, Some(key)) {
      ClaimStays(log, after, key);
    }
    if i :| 0 <= i < |last| && Good(last[i].data, key) {
      BatchSettles(rules, user, mid, last, i);
    }
  }
}
