/** TransferService and BarrelOperationService as they run: rows overwritten one
    after the other, vessel objects that remember the status they were loaded
    with, and a rollback when an entry fails. */
module Cellar {
  import opened Sums
  import opened VesselFills
  import opened FillLaws
  import opened FillEvents

  type BarrelId = nat

  datatype BarrelEntry = BarrelEntry(barrel: BarrelId, volume: int)

  /** A vessel as loaded from its table. Its status is not read again. */
  class LoadedVessel {
    const id: VesselId
    var status: Status

    constructor (id: VesselId, status: Status)
      ensures this.id == id && this.status == status
    {
      this.id, this.status := id, status;
    }
  }

  predicate AllKnown(barrels: map<BarrelId, VesselId>, entries: seq<BarrelEntry>) {
    forall i | 0 <= i < |entries| :: entries[i].barrel in barrels
  }

  function PoursOf(barrels: map<BarrelId, VesselId>, entries: seq<BarrelEntry>): (pours: seq<Pour>)
    requires AllKnown(barrels, entries)
  {
    seq(|entries|, i requires 0 <= i < |entries| => Pour(barrels[entries[i].barrel], entries[i].volume))
  }

  class BarrelRoom {
    var rows: seq<Row>
    var status: map<VesselId, Status>
    var barrels: map<BarrelId, VesselId>
    var log: seq<Event>

    /** Every barrel refers to an existing vessel (a foreign key). */
    ghost predicate Valid()
      reads this
    {
      forall b | b in barrels :: barrels[b] in status
    }

    function Now(): Table
      reads this
    {
      Table(rows, status)
    }

    method DecreaseVesselVolume(vessel: LoadedVessel, l: LotId, amount: int)
      requires vessel.id in status && vessel.status == status[vessel.id]
      modifies this`rows, this`status, vessel
      ensures Now() == Decrease(old(Now()), vessel.id, l, amount)
      ensures status.Keys == old(status.Keys) && vessel.status == status[vessel.id]
    {
      var i := FindOpen(rows, vessel.id, l);
      if i == |rows| {
        return;
      }
      var left := Max0(rows[i].volume - amount);
      SettleRow(vessel, i, left, left <= 0);
    }

    /** The shared end of a decrease: close the row or store what is left. */
    method SettleRow(vessel: LoadedVessel, i: nat, left: int, closing: bool)
      requires i < |rows| && rows[i].open && rows[i].vessel == vessel.id
      requires vessel.id in status && vessel.status == status[vessel.id]
      modifies this`rows, this`status, vessel
      ensures Now() == Settle(old(Now()), i, left, closing)
      ensures status.Keys == old(status.Keys) && vessel.status == status[vessel.id]
    {
      if closing {
        var activeElsewhere := OtherOpen(rows, vessel.id, i);
        rows := rows[i := rows[i].(volume := 0, open := false)];
        if !activeElsewhere {
          UpdateStatus(vessel, Empty);
        }
      } else {
        rows := rows[i := rows[i].(volume := left)];
      }
    }

    /** An update writes only what differs from the loaded object. */
    method UpdateStatus(vessel: LoadedVessel, s: Status)
      requires vessel.id in status
      modifies this`status, vessel
      ensures status == if old(vessel.status) != s then old(status)[vessel.id := s] else old(status)
      ensures vessel.status == s
    {
      if vessel.status != s {
        status := status[vessel.id := s];
        vessel.status := s;
      }
    }

    method IncreaseVesselVolume(vessel: LoadedVessel, l: LotId, amount: int)
      requires vessel.id in status
      modifies this`rows, this`status, vessel
      ensures Now() == Increase(old(Now()), vessel.id, old(vessel.status), l, amount)
      ensures status.Keys == old(status.Keys)
    {
      var i := FindOpen(rows, vessel.id, l);
      if i < |rows| {
        rows := rows[i := rows[i].(volume := rows[i].volume + amount)];
      } else {
        rows := rows + [Row(l, vessel.id, amount, true)];
      }
      if vessel.status != InUse {
        UpdateStatus(vessel, InUse);
      }
    }

    method ExecuteTransfer(from: VesselId, to: VesselId, l: LotId, requested: int, variance: int) returns (ok: bool)
      modifies this`rows, this`status, this`log
      ensures var op := TransferOp(from, to, l, requested, variance);
              && ok == Attempt(old(Now()), op).Done?
              && Now() == Apply(old(Now()), op)
              && log == old(log) + Logged(old(Now()), op)
    {
      if from !in status || to !in status {
        return false;
      }
      var fromVessel := new LoadedVessel(from, status[from]);
      var toVessel := new LoadedVessel(to, status[to]);
      if requested > CurrentVolume(rows, from) {
        return false;
      }
      DecreaseVesselVolume(fromVessel, l, requested);
      IncreaseVesselVolume(toVessel, l, requested - variance);
      log := log + [TransferExecuted(l, from, to, requested, variance)];
      return true;
    }

    method FillBarrels(l: LotId, entries: seq<BarrelEntry>) returns (ok: bool, results: seq<Pour>)
      requires Valid()
      modifies this`rows, this`status, this`log
      ensures Valid() && ok == AllKnown(barrels, entries)
      ensures ok ==> var op := FillOp(l, PoursOf(barrels, entries));
                     && results == op.pours
                     && Attempt(old(Now()), op).Done?
                     && Now() == Apply(old(Now()), op)
                     && log == old(log) + EventsOf(op)
      ensures !ok ==> Now() == old(Now()) && log == old(log) && results == []
    {
      var savedRows, savedStatus, savedLog := rows, status, log;
      ok, results := RaiseFilled(l, entries);
      if !ok {
        rows, status, log := savedRows, savedStatus, savedLog;
        results := [];
      }
    }

    method RaiseFilled(l: LotId, entries: seq<BarrelEntry>) returns (ok: bool, results: seq<Pour>)
      requires Valid()
      modifies this`rows, this`status, this`log
      ensures status.Keys == old(status.Keys) && ok == AllKnown(barrels, entries)
      ensures ok ==> && results == PoursOf(barrels, entries)
                     && Known(old(Now()), results)
                     && Now() == FillAll(old(Now()), l, results)
                     && log == old(log) + FilledEvents(l, results)
    {
      results := [];
      var i := 0;
      while i < |entries|
        invariant 0 <= i <= |entries| && Valid() && status.Keys == old(status.Keys)
        invariant AllKnown(barrels, entries[..i]) && results == PoursOf(barrels, entries[..i])
        invariant Now() == FillAll(old(Now()), l, results)
        invariant log == old(log) + FilledEvents(l, results)
      {
        hide AllKnown, PoursOf, FillAll, Increase, FilledEvents, ToppedEvents, Attempt, Apply, EventsOf, Known;
        var entry := entries[i];
        if entry.barrel !in barrels {
          return false, results;
        }
        var vessel := new LoadedVessel(barrels[entry.barrel], status[barrels[entry.barrel]]);
        IncreaseVesselVolume(vessel, l, entry.volume);
        log := log + [BarrelFilled(l, vessel.id, entry.volume)];
        var pour := Pour(vessel.id, entry.volume);
        PoursStep(barrels, entries, i);
        FilledStep(l, results, pour);
        FillStep(old(Now()), l, results, pour);
        results := results + [pour];
        i := i + 1;
      }
      assert entries[..i] == entries;
      return true, results;
    }

    method TotalVolume(entries: seq<BarrelEntry>) returns (total: int)
      ensures total == SumBy(Amount, entries)
    {
      total := 0;
      for k := 0 to |entries|
        invariant total == SumBy(Amount, entries[..k])
      {
        SumStep(Amount, entries, k);
        total := total + entries[k].volume;
      }
      assert entries[..|entries|] == entries;
    }

    method TopBarrels(source: VesselId, l: LotId, entries: seq<BarrelEntry>) returns (ok: bool, results: seq<Pour>)
      requires Valid()
      modifies this`rows, this`status, this`log
      ensures Valid()
      ensures ok ==> AllKnown(barrels, entries) &&
                     var op := TopOp(source, l, PoursOf(barrels, entries));
                     && results == op.pours
                     && Attempt(old(Now()), op).Done?
                     && Now() == Apply(old(Now()), op)
                     && log == old(log) + EventsOf(op)
      ensures !ok ==> && Now() == old(Now()) && log == old(log) && results == []
                      && (AllKnown(barrels, entries) ==>
                            Attempt(old(Now()), TopOp(source, l, PoursOf(barrels, entries))).Rejected?)
    {
      hide Decrease, Increase, CurrentVolume, SumBy;
      ok, results := false, [];
      if source !in status {
        return;
      }
      var sourceVessel := new LoadedVessel(source, status[source]);
      var total := TotalVolume(entries);
      if AllKnown(barrels, entries) {
        AmountsPoured(barrels, entries);
      }
      if total > CurrentVolume(rows, source) {
        return;
      }
      var savedRows, savedStatus, savedLog := rows, status, log;
      DecreaseVesselVolume(sourceVessel, l, total);
      ok, results := RaiseTopped(source, l, entries);
      if !ok {
        rows, status, log := savedRows, savedStatus, savedLog;
        results := [];
      }
    }

    /** The second loop of a topping; it stops at the first unknown barrel. */
    method RaiseTopped(source: VesselId, l: LotId, entries: seq<BarrelEntry>) returns (ok: bool, results: seq<Pour>)
      requires Valid()
      modifies this`rows, this`status, this`log
      ensures status.Keys == old(status.Keys) && ok == AllKnown(barrels, entries)
      ensures ok ==> && results == PoursOf(barrels, entries)
                     && Known(old(Now()), results)
                     && Now() == FillAll(old(Now()), l, results)
                     && log == old(log) + ToppedEvents(source, l, results)
    {
      results := [];
      var i := 0;
      while i < |entries|
        invariant 0 <= i <= |entries| && status.Keys == old(status.Keys)
        invariant AllKnown(barrels, entries[..i]) && results == PoursOf(barrels, entries[..i])
        invariant Now() == FillAll(old(Now()), l, results)
        invariant log == old(log) + ToppedEvents(source, l, results)
      {
        hide AllKnown, PoursOf, FillAll, Increase, FilledEvents, ToppedEvents;
        var entry := entries[i];
        if entry.barrel !in barrels {
          return false, results;
        }
        var vessel := new LoadedVessel(barrels[entry.barrel], status[barrels[entry.barrel]]);
        IncreaseVesselVolume(vessel, l, entry.volume);
        log := log + [BarrelTopped(l, vessel.id, source, entry.volume)];
        var pour := Pour(vessel.id, entry.volume);
        PoursStep(barrels, entries, i);
        ToppedStep(source, l, results, pour);
        FillStep(old(Now()), l, results, pour);
        results := results + [pour];
        i := i + 1;
      }
      assert entries[..i] == entries;
      return true, results;
    }

    method RackBarrels(target: VesselId, l: LotId, entries: seq<BarrelEntry>) returns (ok: bool, results: seq<Pour>)
      requires Valid()
      modifies this`rows, this`status, this`log
      ensures Valid() && ok == (target in old(status) && AllKnown(barrels, entries))
      ensures ok ==> var op := RackOp(target, l, PoursOf(barrels, entries));
                     && results == op.pours
                     && Attempt(old(Now()), op).Done?
                     && Now() == Apply(old(Now()), op)
                     && log == old(log) + EventsOf(op)
      ensures !ok ==> Now() == old(Now()) && log == old(log) && results == []
    {
      ok, results := false, [];
      if target !in status {
        return;
      }
      var targetVessel := new LoadedVessel(target, status[target]);
      var savedRows, savedStatus, savedLog := rows, status, log;
      var total;
      ok, results, total := DrainRacked(target, l, entries);
      if ok {
        IncreaseVesselVolume(targetVessel, l, total);
      } else {
        rows, status, log := savedRows, savedStatus, savedLog;
        results := [];
      }
    }

    /** The loop of a rack; it stops at the first unknown barrel. */
    method DrainRacked(target: VesselId, l: LotId, entries: seq<BarrelEntry>)
      returns (ok: bool, results: seq<Pour>, total: int)
      requires Valid()
      modifies this`rows, this`status, this`log
      ensures status.Keys == old(status.Keys) && ok == AllKnown(barrels, entries)
      ensures ok ==> && results == PoursOf(barrels, entries)
                     && Now() == DrainAll(old(Now()), l, results) && total == Total(results)
                     && log == old(log) + RackedEvents(target, l, results)
    {
      results, total := [], 0;
      var i := 0;
      while i < |entries|
        invariant 0 <= i <= |entries| && status.Keys == old(status.Keys)
        invariant AllKnown(barrels, entries[..i]) && results == PoursOf(barrels, entries[..i])
        invariant Now() == DrainAll(old(Now()), l, results) && total == Total(results)
        invariant log == old(log) + RackedEvents(target, l, results)
      {
        var entry := entries[i];
        if entry.barrel !in barrels {
          return false, results, total;
        }
        var vessel := new LoadedVessel(barrels[entry.barrel], status[barrels[entry.barrel]]);
        DecreaseVesselVolume(vessel, l, entry.volume);
        total := total + entry.volume;
        log := log + [BarrelRacked(l, vessel.id, target, entry.volume)];
        var pour := Pour(vessel.id, entry.volume);
        PoursStep(barrels, entries, i);
        RackedStep(target, l, results, pour);
        results := results + [pour];
        i := i + 1;
      }
      assert entries[..i] == entries;
      return true, results, total;
    }

    method RecordSample(barrel: BarrelId, l: LotId, ml: real) returns (ok: bool)
      requires Valid()
      modifies this`rows, this`status, this`log
      ensures Valid() && ok == (barrel in barrels)
      ensures ok ==> var op := SampleOp(barrels[barrel], l, ml);
                     && Attempt(old(Now()), op).Done?
                     && Now() == Apply(old(Now()), op)
                     && log == old(log) + EventsOf(op)
      ensures !ok ==> Now() == old(Now()) && log == old(log)
    {
      if barrel !in barrels {
        return false;
      }
      var vessel := new LoadedVessel(barrels[barrel], status[barrels[barrel]]);
      var i := FindOpen(rows, vessel.id, l);
      if i < |rows| {
        var left := AfterSample(rows[i].volume, ml);
        SettleRow(vessel, i, Stored(left), left <= 0.0);
      }
      log := log + [BarrelSampled(l, vessel.id, ml)];
      return true;
    }
  }

  function Amount(e: BarrelEntry): int { e.volume }

  lemma FillStep(t: Table, l: LotId, pours: seq<Pour>, p: Pour)
    requires Known(t, pours) && p.vessel in t.status
    ensures Known(t, pours + [p])
    ensures var before := FillAll(t, l, pours);
            FillAll(t, l, pours + [p]) == Increase(before, p.vessel, before.status[p.vessel], l, p.volume)
  {
    assert (pours + [p])[..|pours|] == pours;
  }

  lemma PoursStep(barrels: map<BarrelId, VesselId>, entries: seq<BarrelEntry>, i: nat)
    requires i < |entries| && AllKnown(barrels, entries[..i]) && entries[i].barrel in barrels
    ensures AllKnown(barrels, entries[..i + 1])
    ensures PoursOf(barrels, entries[..i + 1]) ==
              PoursOf(barrels, entries[..i]) + [Pour(barrels[entries[i].barrel], entries[i].volume)]
  {
  }

  lemma {:induction false} AmountsPoured(barrels: map<BarrelId, VesselId>, entries: seq<BarrelEntry>)
    requires AllKnown(barrels, entries)
    ensures SumBy(Amount, entries) == Total(PoursOf(barrels, entries))
  {
    if entries != [] {
      var front := entries[..|entries| - 1];
      AmountsPoured(barrels, front);
      assert PoursOf(barrels, entries)[..|front|] == PoursOf(barrels, front);
    }
  }
}
