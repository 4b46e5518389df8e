/** What every fill, top, rack, sample and transfer keeps, and what each does to
    the volumes: the laws of the lot_vessel table. */
module FillLaws {
  import opened Sums
  import opened VesselFills

  predicate Positive(pours: seq<Pour>) {
    forall i | 0 <= i < |pours| :: 0 < pours[i].volume
  }

  lemma TotalPositive(pours: seq<Pour>)
    requires Positive(pours) && pours != []
    ensures 0 < Total(pours)
  {
    var front := pours[..|pours| - 1];
    TotalNotNegative(front);
    assert pours == front + [pours[|pours| - 1]];
  }

  lemma {:induction false} TotalNotNegative(pours: seq<Pour>)
    requires Positive(pours)
    ensures 0 <= Total(pours)
    ensures forall v :: 0 <= SumBy(Into(v), pours)
  {
    if pours != [] {
      TotalNotNegative(pours[..|pours| - 1]);
    }
  }

  // ---------- Bulk loops ----------

  lemma {:induction false} FillAllEffect(t: Table, l: LotId, pours: seq<Pour>)
    requires Known(t, pours)
    ensures var u := FillAll(t, l, pours);
            && Extends(t.rows, u.rows)
            && (forall v, l' :: Level(u.rows, v, l') ==
                  Level(t.rows, v, l') + (if l' == l then SumBy(Into(v), pours) else 0))
            && (forall l' :: LotTotal(u.rows, l') == LotTotal(t.rows, l') + (if l' == l then Total(pours) else 0))
            && (Inv(t) && Positive(pours) ==> Inv(u))
  {
    if pours != [] {
      var front, p := pours[..|pours| - 1], pours[|pours| - 1];
      FillAllEffect(t, l, front);
      var before := FillAll(t, l, front);
      IncreaseLevels(before, p.vessel, before.status[p.vessel], l, p.volume);
      if Inv(t) && Positive(pours) {
        OpenIffLevel(before, p.vessel, l);
        IncreaseKeepsInv(before, p.vessel, before.status[p.vessel], l, p.volume);
      }
    }
  }

  lemma {:induction false} DrainAllKeepsInv(t: Table, l: LotId, pours: seq<Pour>)
    requires Inv(t)
    ensures Inv(DrainAll(t, l, pours)) && Extends(t.rows, DrainAll(t, l, pours).rows)
    ensures Known(t, pours) ==> DrainAll(t, l, pours).status.Keys == t.status.Keys
  {
    hide Inv;
    if pours != [] {
      var p := pours[|pours| - 1];
      DrainAllKeepsInv(t, l, pours[..|pours| - 1]);
      DecreaseKeepsInv(DrainAll(t, l, pours[..|pours| - 1]), p.vessel, l, p.volume);
    }
  }

  /** Draining carries the rows on, whatever the table's statuses. */
  lemma {:induction false} DrainAllCarries(t: Table, l: LotId, pours: seq<Pour>)
    ensures Carries(t.rows, DrainAll(t, l, pours).rows)
  {
    hide Carries, Decrease;
    if pours == [] {
      CarriesSelf(t.rows);
    } else {
      var p, before := pours[|pours| - 1], DrainAll(t, l, pours[..|pours| - 1]);
      DrainAllCarries(t, l, pours[..|pours| - 1]);
      DecreaseCarries(before, p.vessel, l, p.volume);
      CarriesChain(t.rows, before.rows, DrainAll(t, l, pours).rows);
    }
  }

  lemma CarriesSelf(rows: seq<Row>)
    ensures Carries(rows, rows)
  {
  }

  lemma {:induction false} FillAllCarries(t: Table, l: LotId, pours: seq<Pour>)
    requires Known(t, pours)
    ensures Carries(t.rows, FillAll(t, l, pours).rows)
  {
    hide Carries, Increase;
    if pours == [] {
      CarriesSelf(t.rows);
    } else {
      var p, before := pours[|pours| - 1], FillAll(t, l, pours[..|pours| - 1]);
      FillAllCarries(t, l, pours[..|pours| - 1]);
      IncreaseCarries(before, p.vessel, before.status[p.vessel], l, p.volume);
      CarriesChain(t.rows, before.rows, FillAll(t, l, pours).rows);
    }
  }

  /** What is left of `x` when `asked` is drained, in however many parts; a vessel
      that is not drained keeps even a negative level. */
  function Drained(x: int, asked: int): int {
    if asked == 0 then x else Max0(x - asked)
  }

  lemma DrainMore(x: int, asked: int, more: int)
    requires 0 <= asked && 0 < more
    ensures Max0(Drained(x, asked) - more) == Drained(x, asked + more)
    ensures !(0 < asked && x <= asked) ==> (Drained(x, asked) <= more <==> x <= asked + more)
  {
  }

  lemma DrainedIsClamped(x: int, asked: int)
    requires 0 <= x && 0 <= asked
    ensures Drained(x, asked) == Max0(x - asked)
  {
  }

  lemma {:induction false} DrainLevel(t: Table, l: LotId, pours: seq<Pour>, v: VesselId, l': LotId)
    requires Unique(t.rows) && Positive(pours)
    ensures Level(DrainAll(t, l, pours).rows, v, l') ==
              if l' == l then Drained(Level(t.rows, v, l), SumBy(Into(v), pours)) else Level(t.rows, v, l')
    ensures l' != l ==> LotTotal(DrainAll(t, l, pours).rows, l') == LotTotal(t.rows, l')
  {
    hide Unique, Level, LotTotal, Decrease, Drained;
    if pours == [] {
      NothingDrained(Level(t.rows, v, l), v);
    } else {
      hide Max0, SumBy;
      var front, p := pours[..|pours| - 1], pours[|pours| - 1];
      DrainLevel(t, l, front, v, l');
      DrainAllUnique(t, l, front);
      DecreaseLevels(DrainAll(t, l, front), p.vessel, l, p.volume);
      assert pours == front + [p];
      SumPush(Into(v), front, p);
      assert 0 <= SumBy(Into(v), front) by { TotalNotNegative(front); }
      DrainMore(Level(t.rows, v, l), SumBy(Into(v), front), p.volume);
    }
  }

  lemma NothingDrained(x: int, v: VesselId)
    ensures Drained(x, SumBy(Into(v), [])) == x
  {
  }

  lemma DrainAllUnique(t: Table, l: LotId, pours: seq<Pour>)
    requires Unique(t.rows)
    ensures Unique(DrainAll(t, l, pours).rows)
  {
    DrainAllCarries(t, l, pours);
  }

  /** A barrel that starts at x and is drained several times ends at x less all
      its amounts, never below zero; other lots are not touched. */
  lemma DrainAllEffect(t: Table, l: LotId, pours: seq<Pour>)
    requires Unique(t.rows) && Positive(pours)
    ensures forall v, l' :: Level(DrainAll(t, l, pours).rows, v, l') ==
              if l' == l then Drained(Level(t.rows, v, l), SumBy(Into(v), pours)) else Level(t.rows, v, l')
    ensures forall l' | l' != l :: LotTotal(DrainAll(t, l, pours).rows, l') == LotTotal(t.rows, l')
  {
    hide Unique, Level, LotTotal, DrainAll, Drained, SumBy;
    forall v, l'
      ensures Level(DrainAll(t, l, pours).rows, v, l') ==
                if l' == l then Drained(Level(t.rows, v, l), SumBy(Into(v), pours)) else Level(t.rows, v, l')
    {
      DrainLevel(t, l, pours, v, l');
    }
    forall l' | l' != l
      ensures LotTotal(DrainAll(t, l, pours).rows, l') == LotTotal(t.rows, l')
    {
      DrainLevel(t, l, pours, 0, l');
    }
  }

  /** The drained vessel `v` gives up all it has of the lot. */
  predicate Emptied(rows: seq<Row>, l: LotId, pours: seq<Pour>, v: VesselId) {
    IsOpen(rows, v, l) && 0 < SumBy(Into(v), pours) && Level(rows, v, l) <= SumBy(Into(v), pours)
  }

  /** A drained row closes exactly when all the list takes from it is all it has,
      and its vessel becomes empty when no other lot is in it. */
  lemma {:induction false} DrainAllOpen(t: Table, l: LotId, pours: seq<Pour>, v: VesselId)
    requires Unique(t.rows) && Positive(pours) && Known(t, pours) && v in t.status
    ensures var u := DrainAll(t, l, pours);
            && (forall l' :: IsOpen(u.rows, v, l') <==>
                  IsOpen(t.rows, v, l') && !(l' == l && Emptied(t.rows, l, pours, v)))
            && (OtherLot(u.rows, v, l) <==> OtherLot(t.rows, v, l))
            && u.status.Keys == t.status.Keys
            && u.status[v] == if Emptied(t.rows, l, pours, v) && !OtherLot(t.rows, v, l) then Empty else t.status[v]
  {
    hide Unique, Level, Decrease, IsOpen, OtherLot, Drained;
    if pours != [] {
      hide SumBy;
      var front, p := pours[..|pours| - 1], pours[|pours| - 1];
      var before, x, asked := DrainAll(t, l, front), Level(t.rows, v, l), SumBy(Into(v), front);
      DrainAllOpen(t, l, front, v);
      DrainAllUnique(t, l, front);
      DrainLevel(t, l, front, v, l);
      DecreaseOpen(before, p.vessel, l, p.volume);
      assert pours == front + [p];
      SumPush(Into(v), front, p);
      assert 0 <= asked by { TotalNotNegative(front); }
      DrainMore(x, asked, p.volume);
    }
  }

  lemma {:induction false} FillAllOpen(t: Table, l: LotId, pours: seq<Pour>, v: VesselId)
    requires Positive(pours) && Known(t, pours) && v in t.status
    ensures var u := FillAll(t, l, pours);
            && (forall l' :: IsOpen(u.rows, v, l') <==> IsOpen(t.rows, v, l') || (l' == l && 0 < SumBy(Into(v), pours)))
            && u.status[v] == if 0 < SumBy(Into(v), pours) then InUse else t.status[v]
  {
    hide IsOpen;
    if pours != [] {
      var front, p := pours[..|pours| - 1], pours[|pours| - 1];
      var before := FillAll(t, l, front);
      FillAllOpen(t, l, front, v);
      TotalNotNegative(front);
      IncreaseOpen(before, p.vessel, before.status[p.vessel], l, p.volume);
    }
  }

  /** How much of what was asked each drained barrel could not give. */
  function Shortfall(t: Table, l: LotId, pours: seq<Pour>): int {
    if pours == [] then 0
    else
      var front, p := pours[..|pours| - 1], pours[|pours| - 1];
      Shortfall(t, l, front) + Max0(p.volume - Level(DrainAll(t, l, front).rows, p.vessel, l))
  }

  lemma {:induction false} DrainAllTotal(t: Table, l: LotId, pours: seq<Pour>)
    requires Unique(t.rows) && Positive(pours)
    ensures LotTotal(DrainAll(t, l, pours).rows, l) == LotTotal(t.rows, l) - Total(pours) + Shortfall(t, l, pours)
    ensures 0 <= Shortfall(t, l, pours)
  {
    if pours != [] {
      var front, p := pours[..|pours| - 1], pours[|pours| - 1];
      DrainAllTotal(t, l, front);
      DrainAllUnique(t, l, front);
      DecreaseLevels(DrainAll(t, l, front), p.vessel, l, p.volume);
    }
  }

  /** Every barrel holds all that the list asks of it. */
  predicate Covered(rows: seq<Row>, l: LotId, pours: seq<Pour>) {
    forall i | 0 <= i < |pours| :: SumBy(Into(pours[i].vessel), pours) <= Level(rows, pours[i].vessel, l)
  }

  lemma CoveredStep(rows: seq<Row>, l: LotId, front: seq<Pour>, p: Pour)
    requires 0 < p.volume && Positive(front)
    ensures Covered(rows, l, front + [p]) <==>
              Covered(rows, l, front) && SumBy(Into(p.vessel), front) + p.volume <= Level(rows, p.vessel, l)
  {
    var pours := front + [p];
    forall v ensures SumBy(Into(v), pours) == SumBy(Into(v), front) + (if p.vessel == v then p.volume else 0) {
      SumPush(Into(v), front, p);
    }
    assert pours[|front|] == p;
    forall i | 0 <= i < |front| ensures pours[i] == front[i] {}
  }

  lemma ShortByZero(short: int, x: int, asked: int, more: int)
    requires 0 <= short && 0 <= asked && 0 < more
    ensures short + Max0(more - Drained(x, asked)) == 0 <==> short == 0 && asked + more <= x
  {
  }

  lemma NothingAskedCovered(rows: seq<Row>, l: LotId)
    ensures Covered(rows, l, [])
  {
  }

  /** Nothing falls short exactly when every barrel holds all that is asked of it. */
  lemma {:induction false} NoShortfall(t: Table, l: LotId, pours: seq<Pour>)
    requires Unique(t.rows) && Positive(pours)
    ensures Shortfall(t, l, pours) == 0 <==> Covered(t.rows, l, pours)
  {
    hide Unique, Level, DrainAll, LotTotal, SumBy, Covered;
    if pours != [] {
      var front, p := pours[..|pours| - 1], pours[|pours| - 1];
      NoShortfall(t, l, front);
      var x, asked := Level(t.rows, p.vessel, l), SumBy(Into(p.vessel), front);
      assert Level(DrainAll(t, l, front).rows, p.vessel, l) == Drained(x, asked) by {
        DrainAllEffect(t, l, front);
      }
      assert 0 <= Shortfall(t, l, front) by { DrainAllTotal(t, l, front); }
      assert 0 <= asked by { TotalNotNegative(front); }
      assert pours == front + [p];
      CoveredStep(t.rows, l, front, p);
      ShortByZero(Shortfall(t, l, front), x, asked, p.volume);
    } else {
      NothingAskedCovered(t.rows, l);
    }
  }

  // ---------- Exact accounting ----------

  /** A transfer moves the net volume in and takes at most what the lot has at
      the source out. */
  lemma TransferAccounting(t: Table, from: VesselId, to: VesselId, l: LotId, requested: int, variance: int)
    requires Unique(t.rows) && 0 <= requested && from != to
    requires Transfer(t, from, to, l, requested, variance).Done?
    ensures var u := Transfer(t, from, to, l, requested, variance).table.rows;
            && Level(u, from, l) == Max0(Level(t.rows, from, l) - requested)
            && Level(u, to, l) == Level(t.rows, to, l) + requested - variance
            && (forall v, l' | l' != l || (v != from && v != to) :: Level(u, v, l') == Level(t.rows, v, l'))
            && (forall l' :: LotTotal(u, l') == LotTotal(t.rows, l') +
                  (if l' == l then requested - variance - Min(requested, Level(t.rows, from, l)) else 0))
  {
    hide Unique, Decrease, Increase, Level, LotTotal, CurrentVolume;
    DecreaseLevels(t, from, l, requested);
    IncreaseLevels(Decrease(t, from, l, requested), to, t.status[to], l, requested - variance);
  }

  lemma FirstIsOnlyLot(rows: seq<Row>, v: VesselId, l: LotId)
    requires Unique(rows) && OnlyLot(rows, v, l)
    ensures CurrentVolume(rows, v) == Level(rows, v, l)
  {
    LevelIsRow(rows, v, l);
    var i, j := FirstIn(rows, v), FindOpen(rows, v, l);
    if i < |rows| {
      assert Holds(rows[i], v, l);
    }
    if j < |rows| {
      assert rows[j].open && rows[j].vessel == v;
    }
  }

  /** A transfer that passes the guard loses exactly the variance if and only if
      the lot itself has the requested volume in the source; when the source
      holds that lot only, the guard is that test. */
  lemma TransferLosesVariance(t: Table, from: VesselId, to: VesselId, l: LotId, requested: int, variance: int)
    requires Unique(t.rows) && 0 <= requested && from != to
    requires Transfer(t, from, to, l, requested, variance).Done?
    ensures LotTotal(Transfer(t, from, to, l, requested, variance).table.rows, l) == LotTotal(t.rows, l) - variance
            <==> requested <= Level(t.rows, from, l)
    ensures OnlyLot(t.rows, from, l) ==> requested <= Level(t.rows, from, l)
  {
    TransferAccounting(t, from, to, l, requested, variance);
    if OnlyLot(t.rows, from, l) {
      FirstIsOnlyLot(t.rows, from, l);
    }
  }

  predicate OnlyLot(rows: seq<Row>, v: VesselId, l: LotId) {
    forall j | 0 <= j < |rows| && rows[j].open && rows[j].vessel == v :: rows[j].lot == l
  }

  /** Where the source holds no other lot, the guards of transfer and topping ask
      exactly whether the lot has the volume there. */
  lemma SingleLotGuard(t: Table, source: VesselId, to: VesselId, l: LotId, requested: int, variance: int,
                        pours: seq<Pour>)
    requires Unique(t.rows) && OnlyLot(t.rows, source, l) && source in t.status && to in t.status && Known(t, pours)
    ensures Transfer(t, source, to, l, requested, variance).Done? <==> requested <= Level(t.rows, source, l)
    ensures Top(t, source, l, pours).Done? <==> Total(pours) <= Level(t.rows, source, l)
  {
    FirstIsOnlyLot(t.rows, source, l);
  }

  /** Row `i` is the first open row in the vessel. */
  predicate FirstOpen(rows: seq<Row>, v: VesselId, i: nat) {
    && i < |rows| && rows[i].open && rows[i].vessel == v
    && forall j | 0 <= j < i :: !(rows[j].open && rows[j].vessel == v)
  }

  /** A transfer is accepted exactly when both vessels exist and the first open row in
      the source, of whatever lot, has the volume; an empty source has none. */
  lemma TransferGuard(t: Table, from: VesselId, to: VesselId, l: LotId, requested: int, variance: int)
    ensures Transfer(t, from, to, l, requested, variance).Done? ==> from in t.status && to in t.status
    ensures from in t.status && to in t.status ==>
              && (forall i: nat | FirstOpen(t.rows, from, i) ::
                    Transfer(t, from, to, l, requested, variance).Done? <==> requested <= t.rows[i].volume)
              && (!Occupied(t.rows, from) ==>
                    (Transfer(t, from, to, l, requested, variance).Done? <==> requested <= 0))
  {
    var k := FirstIn(t.rows, from);
    forall i: nat | FirstOpen(t.rows, from, i) ensures i == k {
      if i < k {
        assert false;
      }
    }
    hide FirstIn;
    if k < |t.rows| {
      assert Occupied(t.rows, from);
    }
  }

  /** Topping asks the same of the source and needs every barrel; filling, racking and
      sampling only need the vessels. */
  lemma BulkGuards(t: Table, v: VesselId, l: LotId, pours: seq<Pour>, ml: real)
    ensures var known := forall i | 0 <= i < |pours| :: pours[i].vessel in t.status;
            && (Fill(t, l, pours).Done? <==> known)
            && (Rack(t, v, l, pours).Done? <==> v in t.status && known)
            && (Sample(t, v, l, ml).Done? <==> v in t.status)
            && (Top(t, v, l, pours).Done? ==> v in t.status && known)
            && (v in t.status && known ==>
                  && (forall i: nat | FirstOpen(t.rows, v, i) ::
                        Top(t, v, l, pours).Done? <==> Total(pours) <= t.rows[i].volume)
                  && (!Occupied(t.rows, v) ==> (Top(t, v, l, pours).Done? <==> Total(pours) <= 0)))
  {
    if v in t.status {
      TransferGuard(t, v, v, l, Total(pours), 0);
    }
    hide CurrentVolume, Increase, Decrease, Total;
  }

  /** The guard reads the first open row of any lot: with lot 1 (100 units) in
      front, 50 units of lot 2 leave a vessel that holds none of it. */
  lemma GuardReadsAnotherLot()
    ensures var t := Table([Row(1, 0, 100, true)], map[0 := InUse, 1 := Empty]);
            && Inv(t) && Level(t.rows, 0, 2) == 0
            && Transfer(t, 0, 1, 2, 50, 0).Done?
            && LotTotal(Transfer(t, 0, 1, 2, 50, 0).table.rows, 2) == LotTotal(t.rows, 2) + 50
  {
    var t := Table([Row(1, 0, 100, true)], map[0 := InUse, 1 := Empty]);
    assert Occupied(t.rows, 0) by { assert t.rows[0].open; }
    assert Inv(t);
    LevelIsRow(t.rows, 0, 2);
    TransferAccounting(t, 0, 1, 2, 50, 0);
  }

  /** Topping a barrel list keeps the lot's total exactly when the lot has the
      whole amount in the source vessel; otherwise the shortfall appears as wine. */
  lemma TopAccounting(t: Table, source: VesselId, l: LotId, pours: seq<Pour>)
    requires Unique(t.rows) && Positive(pours) && Top(t, source, l, pours).Done?
    ensures var u := Top(t, source, l, pours).table.rows;
            && (forall v, l' :: Level(u, v, l') ==
                  if l' != l then Level(t.rows, v, l')
                  else SumBy(Into(v), pours) +
                       (if v == source then Max0(Level(t.rows, v, l) - Total(pours)) else Level(t.rows, v, l)))
            && LotTotal(u, l) == LotTotal(t.rows, l) + Max0(Total(pours) - Level(t.rows, source, l))
            && (forall l' | l' != l :: LotTotal(u, l') == LotTotal(t.rows, l'))
  {
    TotalNotNegative(pours);
    DecreaseLevels(t, source, l, Total(pours));
    FillAllEffect(Decrease(t, source, l, Total(pours)), l, pours);
  }

  lemma RackLevels(t: Table, target: VesselId, l: LotId, pours: seq<Pour>, v: VesselId, l': LotId)
    requires Unique(t.rows) && Positive(pours) && Rack(t, target, l, pours).Done?
    ensures Level(Rack(t, target, l, pours).table.rows, v, l') ==
              if l' != l then Level(t.rows, v, l')
              else Drained(Level(t.rows, v, l), SumBy(Into(v), pours)) + (if v == target then Total(pours) else 0)
  {
    hide Unique, Level, LotTotal, DrainAll, Increase, SumBy;
    DrainAllEffect(t, l, pours);
    IncreaseLevels(DrainAll(t, l, pours), target, t.status[target], l, Total(pours));
  }

  /** A rack changes the lot's total by the sum of the shortfalls, so it keeps
      the total exactly when every barrel held what was racked from it. */
  lemma RackAccounting(t: Table, target: VesselId, l: LotId, pours: seq<Pour>)
    requires Unique(t.rows) && Positive(pours) && Rack(t, target, l, pours).Done?
    ensures var u := Rack(t, target, l, pours).table.rows;
            && LotTotal(u, l) == LotTotal(t.rows, l) + Shortfall(t, l, pours)
            && (LotTotal(u, l) == LotTotal(t.rows, l) <==> Covered(t.rows, l, pours))
  {
    DrainAllEffect(t, l, pours);
    DrainAllTotal(t, l, pours);
    NoShortfall(t, l, pours);
    IncreaseLevels(DrainAll(t, l, pours), target, t.status[target], l, Total(pours));
  }

  // ---------- When the invariant survives ----------

  /** A transfer between two vessels keeps the invariant exactly when something
      is in the target afterwards. A variance as large as the volume can break it. */
  lemma TransferKeepsInv(t: Table, from: VesselId, to: VesselId, l: LotId, requested: int, variance: int)
    requires Inv(t) && from != to && 0 <= requested
    requires Transfer(t, from, to, l, requested, variance).Done?
    ensures Extends(t.rows, Transfer(t, from, to, l, requested, variance).table.rows)
    ensures Inv(Transfer(t, from, to, l, requested, variance).table) <==>
              0 < Level(t.rows, to, l) + requested - variance
  {
    hide Inv, Decrease, Increase, Level, Extends, CurrentVolume;
    var mid := Decrease(t, from, l, requested);
    InvParts(t);
    assert Inv(mid) && Extends(t.rows, mid.rows) && Level(mid.rows, to, l) == Level(t.rows, to, l) by {
      DecreaseKeepsInv(t, from, l, requested);
      DecreaseLevels(t, from, l, requested);
    }
    DecreaseElsewhere(t, from, l, requested, to);
    IncreaseAfter(t.rows, mid, to, t.status[to], l, requested - variance);
  }

  /** The second half of a move, seen from the rows it started with. */
  lemma IncreaseAfter(start: seq<Row>, mid: Table, v: VesselId, seen: Status, l: LotId, amount: int)
    requires Inv(mid) && v in mid.status && Extends(start, mid.rows)
    ensures Extends(start, Increase(mid, v, seen, l, amount).rows)
    ensures Inv(Increase(mid, v, seen, l, amount)) <==>
              0 < Level(mid.rows, v, l) + amount && (seen != InUse || mid.status[v] == InUse)
  {
    IncreaseLevels(mid, v, seen, l, amount);
    IncreaseKeepsInv(mid, v, seen, l, amount);
  }

  lemma InvParts(t: Table)
    requires Inv(t)
    ensures Unique(t.rows) && RowsSound(t) && ClosedAtZero(t.rows)
  {
  }

  lemma DecreaseElsewhere(t: Table, v: VesselId, l: LotId, amount: int, other: VesselId)
    requires other in t.status && other != v
    ensures other in Decrease(t, v, l, amount).status && Decrease(t, v, l, amount).status[other] == t.status[other]
  {
  }

  /** Moving 10 units with a variance of 20 leaves an open row at -10 in the target. */
  lemma VarianceEatsTransfer()
    ensures var t := Table([Row(1, 0, 100, true)], map[0 := InUse, 1 := Empty]);
            && Inv(t) && Transfer(t, 0, 1, 1, 10, 20).Done? && !Inv(Transfer(t, 0, 1, 1, 10, 20).table)
            && Level(Transfer(t, 0, 1, 1, 10, 20).table.rows, 1, 1) == -10
  {
    var t := Table([Row(1, 0, 100, true)], map[0 := InUse, 1 := Empty]);
    assert Occupied(t.rows, 0) by { assert t.rows[0].open; }
    assert Level(t.rows, 1, 1) == 0 by { LevelIsRow(t.rows, 1, 1); }
    hide Level, Inv, Transfer;
    assert Transfer(t, 0, 1, 1, 10, 20).Done? by { TransferAccepted(t, 0, 1, 1, 10, 20); }
    InvParts(t);
    TransferKeepsInv(t, 0, 1, 1, 10, 20);
    TransferAccounting(t, 0, 1, 1, 10, 20);
  }

  lemma TransferAccepted(t: Table, from: VesselId, to: VesselId, l: LotId, requested: int, variance: int)
    requires from in t.status && to in t.status && requested <= CurrentVolume(t.rows, from)
    ensures Transfer(t, from, to, l, requested, variance).Done?
  {
  }

  /** An in_use vessel that is drained of everything is the one case in which the
      status seen at the start of a rack hides the emptied target. */
  predicate TargetDrainedDry(t: Table, target: VesselId, l: LotId, pours: seq<Pour>) {
    0 < Level(t.rows, target, l) <= SumBy(Into(target), pours) && OnlyLot(t.rows, target, l)
  }

  lemma OccupiedIffLevel(t: Table, v: VesselId)
    requires Inv(t)
    ensures Occupied(t.rows, v) <==> exists l :: 0 < Level(t.rows, v, l)
  {
    if Occupied(t.rows, v) {
      var j :| 0 <= j < |t.rows| && t.rows[j].open && t.rows[j].vessel == v;
      assert Holds(t.rows[j], v, t.rows[j].lot);
      OpenIffLevel(t, v, t.rows[j].lot);
    }
    if l :| 0 < Level(t.rows, v, l) {
      OpenIffLevel(t, v, l);
    }
  }

  /** The racked target is empty after the drain, though in_use before it,
      exactly when the rack drains it dry. */
  lemma DrainedDry(t: Table, target: VesselId, l: LotId, pours: seq<Pour>)
    requires Inv(t) && Positive(pours)
    ensures TargetDrainedDry(t, target, l, pours) <==>
              Occupied(t.rows, target) && !Occupied(DrainAll(t, l, pours).rows, target)
  {
    hide Inv, Level, DrainAll, LotTotal, Unique, Drained;
    var mid := DrainAll(t, l, pours);
    InvParts(t);
    DrainAllEffect(t, l, pours);
    DrainAllKeepsInv(t, l, pours);
    TotalNotNegative(pours);
    OpenIffLevel(t, target, l);
    DrainedIsClamped(Level(t.rows, target, l), SumBy(Into(target), pours));
    OccupiedIffLevel(t, target);
    OccupiedIffLevel(mid, target);
    forall j | 0 <= j < |t.rows| && t.rows[j].open && t.rows[j].vessel == target
      ensures 0 < Level(t.rows, target, t.rows[j].lot)
    {
      assert Holds(t.rows[j], target, t.rows[j].lot);
      OpenIffLevel(t, target, t.rows[j].lot);
    }
    forall l'
      ensures 0 < Level(t.rows, target, l') ==>
                exists j :: 0 <= j < |t.rows| && t.rows[j].open && t.rows[j].vessel == target && t.rows[j].lot == l'
    {
      OpenIffLevel(t, target, l');
    }
  }

  /** A rack keeps the invariant unless its target is itself a racked barrel that
      the rack drains dry; then the target keeps its open row and loses in_use. */
  lemma RackKeepsInv(t: Table, target: VesselId, l: LotId, pours: seq<Pour>)
    requires Inv(t) && Positive(pours) && pours != [] && Rack(t, target, l, pours).Done?
    ensures Extends(t.rows, Rack(t, target, l, pours).table.rows)
    ensures Inv(Rack(t, target, l, pours).table) <==> !TargetDrainedDry(t, target, l, pours)
  {
    var mid := DrainAll(t, l, pours);
    DrainAllKeepsInv(t, l, pours);
    TotalPositive(pours);
    DrainedDry(t, target, l, pours);
    OpenIffLevel(mid, target, l);
    IncreaseAfter(t.rows, mid, target, t.status[target], l, Total(pours));
    StatusIsOccupied(t, target);
    StatusIsOccupied(mid, target);
  }

  lemma StatusIsOccupied(t: Table, v: VesselId)
    requires Inv(t) && v in t.status
    ensures t.status[v] == InUse <==> Occupied(t.rows, v)
  {
  }

  /** Racking a barrel's whole 100 units back into the barrel leaves it filled but
      marked empty. */
  lemma RackIntoItself()
    ensures var t, p := Table([Row(1, 0, 100, true)], map[0 := InUse]), [Pour(0, 100)];
            && Inv(t) && Rack(t, 0, 1, p).Done? && !Inv(Rack(t, 0, 1, p).table)
            && Level(Rack(t, 0, 1, p).table.rows, 0, 1) == 100
  {
    var t, p := Table([Row(1, 0, 100, true)], map[0 := InUse]), [Pour(0, 100)];
    var u := Rack(t, 0, 1, p).table;
    assert Inv(t) by {
      assert Occupied(t.rows, 0) by { assert t.rows[0].open; }
    }
    assert Level(t.rows, 0, 1) == 100 by { LevelIsRow(t.rows, 0, 1); }
    assert SumBy(Into(0), p) == 100 && Total(p) == 100 by { assert p[..0] == []; }
    hide Inv, Level, SumBy, DrainAll, Increase;
    assert TargetDrainedDry(t, 0, 1, p);
    RackKeepsInv(t, 0, 1, p);
    RackLevels(t, 0, 1, p, 0, 1);
  }

  /** One millilitre out of 3 units leaves 0.36 of a unit: an open row at zero. */
  lemma SampleLeavesZeroRow()
    ensures var t := Table([Row(1, 0, 3, true)], map[0 := InUse]);
            Inv(t) && Sample(t, 0, 1, 1.0).Done? && !Inv(Sample(t, 0, 1, 1.0).table)
  {
    var t := Table([Row(1, 0, 3, true)], map[0 := InUse]);
    assert Occupied(t.rows, 0) by { assert t.rows[0].open; }
    LevelIsRow(t.rows, 0, 1);
    SampleKeepsInv(t, 0, 1, 1.0);
  }

  /** A sample keeps the invariant exactly when what it leaves is nothing, or is
      at least half a unit: a smaller rest is stored as an open row at zero. */
  lemma SampleKeepsInv(t: Table, v: VesselId, l: LotId, ml: real)
    requires Inv(t) && Sample(t, v, l, ml).Done?
    ensures Extends(t.rows, Sample(t, v, l, ml).table.rows)
    ensures Inv(Sample(t, v, l, ml).table) <==>
              (Level(t.rows, v, l) == 0 || AfterSample(Level(t.rows, v, l), ml) <= 0.0
               || 0.5 <= AfterSample(Level(t.rows, v, l), ml))
  {
    LevelIsRow(t.rows, v, l);
    OpenIffLevel(t, v, l);
    var i := FindOpen(t.rows, v, l);
    if i < |t.rows| {
      var left := AfterSample(t.rows[i].volume, ml);
      SettleKeepsInv(t, i, Stored(left), left <= 0.0);
      StoredPositive(left);
    }
  }

  lemma StoredPositive(x: real)
    ensures 0 < Stored(x) <==> 0.5 <= x
  {
  }

  lemma SampleEffect(t: Table, v: VesselId, l: LotId, ml: real)
    requires Unique(t.rows) && 0.0 <= ml && Sample(t, v, l, ml).Done?
    ensures forall v', l' :: Level(Sample(t, v, l, ml).table.rows, v', l') ==
              if v' == v && l' == l then SampledLevel(Level(t.rows, v, l), ml) else Level(t.rows, v', l')
  {
    LevelIsRow(t.rows, v, l);
    var i := FindOpen(t.rows, v, l);
    if i < |t.rows| {
      var left := AfterSample(t.rows[i].volume, ml);
      SettleLevels(t, i, Stored(left), left <= 0.0);
    }
  }

  /** A sample takes its millilitres, 3785.41 to the gallon, up to half a stored unit, or
      all there is. */
  lemma SampleTakes(t: Table, v: VesselId, l: LotId, ml: real)
    requires Unique(t.rows) && 0.0 <= ml && Sample(t, v, l, ml).Done? && 0 < Level(t.rows, v, l)
    ensures var x, left := Level(t.rows, v, l), Level(Sample(t, v, l, ml).table.rows, v, l);
            if 3785.41 * (x as real) <= 10000.0 * ml then left == 0
            else -1892.705 <= 10000.0 * ml - 3785.41 * ((x - left) as real) <= 1892.705
  {
    SampleEffect(t, v, l, ml);
    SampledUnits(Level(t.rows, v, l), ml);
  }

  lemma SampledUnits(x: int, ml: real)
    requires 0 < x && 0.0 <= ml
    ensures var left := SampledLevel(x, ml);
            if 3785.41 * (x as real) <= 10000.0 * ml then left == 0
            else -1892.705 <= 10000.0 * ml - 3785.41 * ((x - left) as real) <= 1892.705
  {
    var e := ml * 10000.0 / 3785.41;
    assert e * 3785.41 == ml * 10000.0;
    assert AfterSample(x, ml) == x as real - e;
  }

  function SampledLevel(level: int, ml: real): int {
    if level == 0 || AfterSample(level, ml) <= 0.0 then 0 else Stored(AfterSample(level, ml))
  }

  // ---------- Runs ----------

  datatype Op =
    | TransferOp(from: VesselId, to: VesselId, lot: LotId, requested: int, variance: int)
    | FillOp(lot: LotId, pours: seq<Pour>)
    | TopOp(source: VesselId, lot: LotId, pours: seq<Pour>)
    | RackOp(target: VesselId, lot: LotId, pours: seq<Pour>)
    | SampleOp(vessel: VesselId, lot: LotId, ml: real)
    | StatusOp(vessel: VesselId, newStatus: Status)

  /** A user may set any status on any vessel. */
  function SetStatus(t: Table, v: VesselId, s: Status): Outcome {
    if v !in t.status then Rejected else Done(t.(status := t.status[v := s]))
  }

  function Attempt(t: Table, op: Op): Outcome {
    match op
    case TransferOp(from, to, lot, requested, variance) => Transfer(t, from, to, lot, requested, variance)
    case FillOp(lot, pours) => Fill(t, lot, pours)
    case TopOp(source, lot, pours) => Top(t, source, lot, pours)
    case RackOp(target, lot, pours) => Rack(t, target, lot, pours)
    case SampleOp(vessel, lot, ml) => Sample(t, vessel, lot, ml)
    case StatusOp(vessel, s) => SetStatus(t, vessel, s)
  }

  /** A rejected operation is rolled back. */
  function Apply(t: Table, op: Op): Table {
    var o := Attempt(t, op);
    if o.Done? then o.table else t
  }

  /** What the request validation demands, as far as it matters to the volumes; the
      variance is not held against the volume. */
  predicate Requested(op: Op) {
    match op
    case TransferOp(from, to, _, requested, _) => from != to && 0 <= requested
    case FillOp(_, pours) => Positive(pours)
    case TopOp(_, _, pours) => Positive(pours)
    case RackOp(_, _, pours) => Positive(pours)
    case SampleOp(_, _, ml) => 0.0 <= ml
    case StatusOp(_, _) => true
  }

  /** The same with the gaps closed that break the invariant: the variance stays
      below the volume, a rack does not drain its own target dry, a sample does not
      leave a rest that rounds to zero, and in_use is set by hand only where it is
      true. */
  predicate Sound(t: Table, op: Op) {
    match op
    case TransferOp(from, to, _, requested, variance) => from != to && 0 <= variance < requested
    case FillOp(_, pours) => Positive(pours)
    case TopOp(_, _, pours) => Positive(pours)
    case RackOp(target, lot, pours) => Positive(pours) && pours != [] && !TargetDrainedDry(t, target, lot, pours)
    case SampleOp(vessel, lot, ml) =>
      0.0 <= ml &&
      (AfterSample(Level(t.rows, vessel, lot), ml) <= 0.0 || 0.5 <= AfterSample(Level(t.rows, vessel, lot), ml))
    case StatusOp(vessel, s) => s == InUse <==> Occupied(t.rows, vessel)
  }

  function Run(t: Table, ops: seq<Op>): Table {
    if ops == [] then t else Apply(Run(t, ops[..|ops| - 1]), ops[|ops| - 1])
  }

  predicate SoundRun(t: Table, ops: seq<Op>) {
    forall i | 0 <= i < |ops| :: Sound(Run(t, ops[..i]), ops[i])
  }

  lemma SoundPrefix(t: Table, ops: seq<Op>)
    requires SoundRun(t, ops) && ops != []
    ensures SoundRun(t, ops[..|ops| - 1])
    ensures Sound(Run(t, ops[..|ops| - 1]), ops[|ops| - 1])
  {
    var front := ops[..|ops| - 1];
    forall i | 0 <= i < |front|
      ensures Sound(Run(t, front[..i]), front[i])
    {
      assert front[..i] == ops[..i];
    }
  }

  /** A status is only ever left alone, set to in_use or set to empty. */
  predicate StatusFrom(t: Table, u: Table) {
    t.status.Keys == u.status.Keys &&
    forall v | v in t.status :: u.status[v] == t.status[v] || u.status[v] == InUse || u.status[v] == Empty
  }

  lemma {:induction false} FillAllStatus(t: Table, l: LotId, pours: seq<Pour>)
    requires Known(t, pours)
    ensures StatusFrom(t, FillAll(t, l, pours))
  {
    if pours != [] {
      FillAllStatus(t, l, pours[..|pours| - 1]);
    }
  }

  lemma {:induction false} DrainAllStatus(t: Table, l: LotId, pours: seq<Pour>)
    requires Known(t, pours)
    ensures StatusFrom(t, DrainAll(t, l, pours))
  {
    if pours != [] {
      var p := pours[|pours| - 1];
      DrainAllStatus(t, l, pours[..|pours| - 1]);
      DecreaseStatus(DrainAll(t, l, pours[..|pours| - 1]), p.vessel, l, p.volume);
    }
  }

  lemma DecreaseStatus(t: Table, v: VesselId, l: LotId, amount: int)
    requires v in t.status
    ensures StatusFrom(t, Decrease(t, v, l, amount))
  {
  }

  lemma SampleStatus(t: Table, v: VesselId, l: LotId, ml: real)
    requires RowsSound(t) && Sample(t, v, l, ml).Done?
    ensures StatusFrom(t, Sample(t, v, l, ml).table)
  {
  }

  lemma StatusKept(t: Table)
    ensures StatusFrom(t, t)
  {
  }

  lemma StatusChain(t: Table, u: Table, w: Table)
    requires StatusFrom(t, u) && StatusFrom(u, w)
    ensures StatusFrom(t, w)
  {
  }

  lemma IncreaseStatus(t: Table, u: Table, v: VesselId, seen: Status, l: LotId, amount: int)
    requires StatusFrom(t, u) && v in t.status
    ensures StatusFrom(t, Increase(u, v, seen, l, amount))
  {
  }

  lemma StepStatus(t: Table, op: Op)
    requires RowsSound(t) && !op.StatusOp?
    ensures StatusFrom(t, Apply(t, op))
  {
    hide StatusFrom, Decrease, FillAll, DrainAll;
    if Attempt(t, op).Done? {
      match op
      case TransferOp(from, to, lot, requested, variance) =>
        DecreaseStatus(t, from, lot, requested);
        IncreaseStatus(t, Decrease(t, from, lot, requested), to, t.status[to], lot, requested - variance);
      case FillOp(lot, pours) => FillAllStatus(t, lot, pours);
      case TopOp(source, lot, pours) =>
        DecreaseStatus(t, source, lot, Total(pours));
        FillAllStatus(Decrease(t, source, lot, Total(pours)), lot, pours);
        StatusChain(t, Decrease(t, source, lot, Total(pours)), Apply(t, op));
      case RackOp(target, lot, pours) =>
        DrainAllStatus(t, lot, pours);
        IncreaseStatus(t, DrainAll(t, lot, pours), target, t.status[target], lot, Total(pours));
      case SampleOp(vessel, lot, ml) => SampleStatus(t, vessel, lot, ml);
    } else {
      StatusKept(t);
    }
  }

  /** After a step a vessel is in_use with an open row; without one it is empty if
      it was in_use before, and otherwise empty, as it was, or as set by hand. */
  lemma StatusAfterStep(t: Table, op: Op, v: VesselId)
    requires Inv(t) && Sound(t, op) && v in t.status
    ensures v in Apply(t, op).status
    ensures var s := Apply(t, op).status[v];
            if Occupied(Apply(t, op).rows, v) then s == InUse
            else s == Empty || (s != InUse && (s == t.status[v] || op == StatusOp(v, s)))
  {
    if !op.StatusOp? {
      StepStatus(t, op);
    }
    StepKeepsInv(t, op);
    StatusIsOccupied(Apply(t, op), v);
  }

  lemma StepKeepsInv(t: Table, op: Op)
    requires Inv(t) && Sound(t, op)
    ensures Inv(Apply(t, op)) && Extends(t.rows, Apply(t, op).rows)
  {
    if Attempt(t, op).Done? {
      match op
      case TransferOp(from, to, lot, requested, variance) =>
        OpenIffLevel(t, to, lot);
        TransferKeepsInv(t, from, to, lot, requested, variance);
      case FillOp(lot, pours) =>
        FillAllEffect(t, lot, pours);
      case TopOp(source, lot, pours) =>
        TotalNotNegative(pours);
        DecreaseKeepsInv(t, source, lot, Total(pours));
        FillAllEffect(Decrease(t, source, lot, Total(pours)), lot, pours);
      case RackOp(target, lot, pours) =>
        RackKeepsInv(t, target, lot, pours);
      case SampleOp(vessel, lot, ml) =>
        SampleKeepsInv(t, vessel, lot, ml);
      case StatusOp(_, _) =>
    }
  }

  /** A status set by hand keeps the invariant exactly when it is in_use for a vessel
      with an open row and something else for any other. */
  lemma SetStatusKeepsInv(t: Table, v: VesselId, s: Status)
    requires Inv(t) && v in t.status
    ensures SetStatus(t, v, s).Done?
    ensures Inv(SetStatus(t, v, s).table) <==> (s == InUse <==> Occupied(t.rows, v))
  {
    var u := SetStatus(t, v, s).table;
    hide Occupied;
    assert u.status[v] == s && u.rows == t.rows;
    assert forall v' | v' in t.status && v' != v :: u.status[v'] == t.status[v'];
  }

  /** A full vessel is set to cleaning by hand. */
  lemma CleanedWhileFull()
    ensures var t := Table([Row(1, 0, 100, true)], map[0 := InUse]);
            Inv(t) && SetStatus(t, 0, Cleaning).Done? && !Inv(SetStatus(t, 0, Cleaning).table)
  {
    var t := Table([Row(1, 0, 100, true)], map[0 := InUse]);
    assert Occupied(t.rows, 0) by { assert t.rows[0].open; }
    assert Inv(t);
    SetStatusKeepsInv(t, 0, Cleaning);
  }

  lemma StepCarries(t: Table, op: Op)
    ensures Carries(t.rows, Apply(t, op).rows)
  {
    hide Carries, Decrease, Increase, FillAll, DrainAll, Settle;
    if Attempt(t, op).Rejected? {
      CarriesSelf(t.rows);
    } else {
      match op
      case TransferOp(from, to, lot, requested, variance) =>
        DecreaseCarries(t, from, lot, requested);
        IncreaseCarries(Decrease(t, from, lot, requested), to, t.status[to], lot, requested - variance);
        CarriesChain(t.rows, Decrease(t, from, lot, requested).rows, Apply(t, op).rows);
      case FillOp(lot, pours) => FillAllCarries(t, lot, pours);
      case TopOp(source, lot, pours) =>
        DecreaseKeepsVessels(t, source, lot, Total(pours));
        DecreaseCarries(t, source, lot, Total(pours));
        FillAllCarries(Decrease(t, source, lot, Total(pours)), lot, pours);
        CarriesChain(t.rows, Decrease(t, source, lot, Total(pours)).rows, Apply(t, op).rows);
      case RackOp(target, lot, pours) =>
        DrainAllCarries(t, lot, pours);
        IncreaseCarries(DrainAll(t, lot, pours), target, t.status[target], lot, Total(pours));
        CarriesChain(t.rows, DrainAll(t, lot, pours).rows, Apply(t, op).rows);
      case SampleOp(vessel, lot, ml) =>
        var i := FindOpen(t.rows, vessel, lot);
        if i < |t.rows| {
          var left := AfterSample(t.rows[i].volume, ml);
          SettleCarries(t, i, Stored(left), left <= 0.0);
        } else {
          CarriesSelf(t.rows);
        }
      case StatusOp(_, _) => CarriesSelf(t.rows);
    }
  }

  /** Whatever is requested and whatever statuses are set by hand, every run keeps one
      open row per vessel and lot, and closed rows as they were closed, at zero. */
  lemma {:induction false} RunCarries(t: Table, ops: seq<Op>)
    ensures Carries(t.rows, Run(t, ops).rows)
  {
    hide Carries, Apply;
    if ops == [] {
      CarriesSelf(t.rows);
    } else {
      var before := Run(t, ops[..|ops| - 1]);
      RunCarries(t, ops[..|ops| - 1]);
      StepCarries(before, ops[|ops| - 1]);
      CarriesChain(t.rows, before.rows, Run(t, ops).rows);
    }
  }

  /** Every run keeps the invariant, and closed rows stay as they were closed. */
  lemma {:induction false} RunKeepsInv(t: Table, ops: seq<Op>)
    requires Inv(t) && SoundRun(t, ops)
    ensures Inv(Run(t, ops)) && Extends(t.rows, Run(t, ops).rows)
  {
    if ops != [] {
      SoundPrefix(t, ops);
      RunKeepsInv(t, ops[..|ops| - 1]);
      StepKeepsInv(Run(t, ops[..|ops| - 1]), ops[|ops| - 1]);
    }
  }

  // ---------- Order of the barrel list ----------

  ghost predicate SameFills(a: Table, b: Table) {
    && (forall v, l :: Level(a.rows, v, l) == Level(b.rows, v, l))
    && (forall v, l :: IsOpen(a.rows, v, l) <==> IsOpen(b.rows, v, l))
    && a.status == b.status
  }

  lemma PermutedPours(p: seq<Pour>, q: seq<Pour>)
    requires multiset(p) == multiset(q)
    ensures Total(p) == Total(q)
    ensures forall v :: SumBy(Into(v), p) == SumBy(Into(v), q)
    ensures Positive(p) ==> Positive(q)
    ensures |p| == |q|
    ensures forall t :: Known(t, p) ==> Known(t, q)
  {
    SumPermutation(Poured, p, q);
    forall v { SumPermutation(Into(v), p, q); }
    assert |p| == |multiset(p)| == |multiset(q)| == |q|;
    forall i | 0 <= i < |q|
      ensures q[i] in p
    {
      assert q[i] in multiset(p);
    }
  }

  lemma FillOpens(t: Table, l: LotId, p: seq<Pour>, q: seq<Pour>, v: VesselId, l': LotId)
    requires Positive(p) && Positive(q) && Known(t, p) && Known(t, q)
    requires SumBy(Into(v), p) == SumBy(Into(v), q)
    ensures IsOpen(FillAll(t, l, p).rows, v, l') <==> IsOpen(FillAll(t, l, q).rows, v, l')
    ensures v in t.status ==> FillAll(t, l, p).status[v] == FillAll(t, l, q).status[v]
  {
    hide IsOpen, SumBy;
    if v in t.status {
      FillAllOpen(t, l, p, v);
      FillAllOpen(t, l, q, v);
    } else {
      FillElsewhere(t, l, p, v);
      FillElsewhere(t, l, q, v);
    }
  }

  /** Filling opens no row in a vessel that does not exist. */
  lemma {:induction false} FillElsewhere(t: Table, l: LotId, pours: seq<Pour>, v: VesselId)
    requires Known(t, pours) && v !in t.status
    ensures forall l' :: IsOpen(FillAll(t, l, pours).rows, v, l') <==> IsOpen(t.rows, v, l')
  {
    hide IsOpen;
    if pours != [] {
      var p, before := pours[|pours| - 1], FillAll(t, l, pours[..|pours| - 1]);
      FillElsewhere(t, l, pours[..|pours| - 1], v);
      IncreaseOpen(before, p.vessel, before.status[p.vessel], l, p.volume);
    }
  }

  /** Filling, topping and racking a list of barrels, repeats included, gives the
      same levels, open rows and statuses in every order of the list. */
  lemma FillOrder(t: Table, l: LotId, p: seq<Pour>, q: seq<Pour>)
    requires Positive(p) && multiset(p) == multiset(q) && Fill(t, l, p).Done?
    ensures Fill(t, l, q).Done? && SameFills(Fill(t, l, p).table, Fill(t, l, q).table)
  {
    hide Level, IsOpen, SumBy, LotTotal, FillAll, Extends;
    PermutedPours(p, q);
    FillAllEffect(t, l, p);
    FillAllEffect(t, l, q);
    var a, b := FillAll(t, l, p), FillAll(t, l, q);
    forall v, l' ensures IsOpen(a.rows, v, l') <==> IsOpen(b.rows, v, l') { FillOpens(t, l, p, q, v, l'); }
    forall v | v in t.status ensures a.status[v] == b.status[v] { FillOpens(t, l, p, q, v, 0); }
  }

  lemma TopOrder(t: Table, source: VesselId, l: LotId, p: seq<Pour>, q: seq<Pour>)
    requires Positive(p) && multiset(p) == multiset(q) && Top(t, source, l, p).Done?
    ensures Top(t, source, l, q).Done? && SameFills(Top(t, source, l, p).table, Top(t, source, l, q).table)
  {
    hide SameFills, Decrease, FillAll, CurrentVolume;
    PermutedPours(p, q);
    DecreaseKeepsVessels(t, source, l, Total(p));
    FillOrder(Decrease(t, source, l, Total(p)), l, p, q);
  }

  /** Draining closes no row in a vessel that does not exist. */
  lemma {:induction false} DrainElsewhere(t: Table, l: LotId, pours: seq<Pour>, v: VesselId)
    requires Unique(t.rows) && Known(t, pours) && v !in t.status
    ensures forall l' :: IsOpen(DrainAll(t, l, pours).rows, v, l') <==> IsOpen(t.rows, v, l')
  {
    hide IsOpen, Unique, Level, OtherLot;
    if pours != [] {
      var p, before := pours[|pours| - 1], DrainAll(t, l, pours[..|pours| - 1]);
      DrainElsewhere(t, l, pours[..|pours| - 1], v);
      DrainAllUnique(t, l, pours[..|pours| - 1]);
      DecreaseOpen(before, p.vessel, l, p.volume);
    }
  }

  lemma DrainOpens(t: Table, l: LotId, p: seq<Pour>, q: seq<Pour>, v: VesselId, l': LotId)
    requires Unique(t.rows) && Positive(p) && Positive(q) && Known(t, p) && Known(t, q)
    requires SumBy(Into(v), p) == SumBy(Into(v), q)
    ensures IsOpen(DrainAll(t, l, p).rows, v, l') <==> IsOpen(DrainAll(t, l, q).rows, v, l')
    ensures v in t.status ==>
              && v in DrainAll(t, l, p).status && v in DrainAll(t, l, q).status
              && DrainAll(t, l, p).status[v] == DrainAll(t, l, q).status[v]
  {
    hide IsOpen, SumBy, Unique, Level, OtherLot;
    if v in t.status {
      DrainAllOpen(t, l, p, v);
      DrainAllOpen(t, l, q, v);
    } else {
      DrainElsewhere(t, l, p, v);
      DrainElsewhere(t, l, q, v);
    }
  }

  lemma {:induction false} DrainKeys(t: Table, l: LotId, pours: seq<Pour>)
    requires Known(t, pours)
    ensures DrainAll(t, l, pours).status.Keys == t.status.Keys
  {
    if pours != [] {
      DrainKeys(t, l, pours[..|pours| - 1]);
    }
  }

  lemma DrainOrder(t: Table, l: LotId, p: seq<Pour>, q: seq<Pour>)
    requires Unique(t.rows) && Positive(p) && multiset(p) == multiset(q) && Known(t, p)
    ensures SameFills(DrainAll(t, l, p), DrainAll(t, l, q))
  {
    hide Level, IsOpen, SumBy, LotTotal, DrainAll, Unique, Drained;
    PermutedPours(p, q);
    DrainAllEffect(t, l, p);
    DrainAllEffect(t, l, q);
    DrainKeys(t, l, p);
    DrainKeys(t, l, q);
    var a, b := DrainAll(t, l, p), DrainAll(t, l, q);
    forall v, l' ensures IsOpen(a.rows, v, l') <==> IsOpen(b.rows, v, l') { DrainOpens(t, l, p, q, v, l'); }
    forall v | v in t.status ensures a.status[v] == b.status[v] { DrainOpens(t, l, p, q, v, 0); }
  }

  lemma IncreaseSame(a: Table, b: Table, v: VesselId, seen: Status, l: LotId, amount: int)
    requires SameFills(a, b)
    ensures SameFills(Increase(a, v, seen, l, amount), Increase(b, v, seen, l, amount))
  {
    IncreaseLevels(a, v, seen, l, amount);
    IncreaseLevels(b, v, seen, l, amount);
    IncreaseOpen(a, v, seen, l, amount);
    IncreaseOpen(b, v, seen, l, amount);
    hide Level, IsOpen, LotTotal;
  }

  lemma RackOrder(t: Table, target: VesselId, l: LotId, p: seq<Pour>, q: seq<Pour>)
    requires Unique(t.rows) && Positive(p) && multiset(p) == multiset(q) && Rack(t, target, l, p).Done?
    ensures Rack(t, target, l, q).Done?
    ensures SameFills(Rack(t, target, l, p).table, Rack(t, target, l, q).table)
  {
    hide SameFills, Unique, DrainAll, Increase;
    PermutedPours(p, q);
    DrainOrder(t, l, p, q);
    IncreaseSame(DrainAll(t, l, p), DrainAll(t, l, q), target, t.status[target], l, Total(p));
  }
}
