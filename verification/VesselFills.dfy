/** The lot_vessel table and the vessel statuses, and what TransferService and
    BarrelOperationService do to them. Volumes are whole units of 10^-4 gallon. */
module VesselFills {
  import opened Sums

  type VesselId = nat
  type LotId = nat

  datatype Status = InUse | Empty | Cleaning | OutOfService

  /** One lot_vessel row; `open` says that emptied_at is still null. */
  datatype Row = Row(lot: LotId, vessel: VesselId, volume: int, open: bool)

  datatype Table = Table(rows: seq<Row>, status: map<VesselId, Status>)

  /** A barrel entry of a bulk operation, with the barrel's vessel looked up. */
  datatype Pour = Pour(vessel: VesselId, volume: int)

  datatype Outcome = Done(table: Table) | Rejected

  // ---------- Reading the table ----------

  predicate Holds(r: Row, v: VesselId, l: LotId) {
    r.open && r.vessel == v && r.lot == l
  }

  /** Index of the first open row of lot `l` in vessel `v`, or the row count. */
  function FindOpen(rows: seq<Row>, v: VesselId, l: LotId): (i: nat)
    ensures i <= |rows|
    ensures i < |rows| ==> Holds(rows[i], v, l)
    ensures forall j | 0 <= j < i :: !Holds(rows[j], v, l)
  {
    if rows == [] || Holds(rows[0], v, l) then 0 else 1 + FindOpen(rows[1..], v, l)
  }

  /** Index of the first open row of any lot in vessel `v`, or the row count. */
  function FirstIn(rows: seq<Row>, v: VesselId): (i: nat)
    ensures i <= |rows|
    ensures i < |rows| ==> rows[i].open && rows[i].vessel == v
    ensures forall j | 0 <= j < i :: !(rows[j].open && rows[j].vessel == v)
  {
    if rows == [] || (rows[0].open && rows[0].vessel == v) then 0 else 1 + FirstIn(rows[1..], v)
  }

  /** The vessel's current_volume accessor: the first open row, whatever its lot. */
  function CurrentVolume(rows: seq<Row>, v: VesselId): int {
    var i := FirstIn(rows, v);
    if i < |rows| then rows[i].volume else 0
  }

  predicate OtherOpen(rows: seq<Row>, v: VesselId, i: nat) {
    exists j :: 0 <= j < |rows| && j != i && rows[j].open && rows[j].vessel == v
  }

  predicate Occupied(rows: seq<Row>, v: VesselId) {
    exists j :: 0 <= j < |rows| && rows[j].open && rows[j].vessel == v
  }

  function OpenVolume(v: VesselId, l: LotId): Row -> int {
    (r: Row) => if Holds(r, v, l) then r.volume else 0
  }

  function OpenOf(l: LotId): Row -> int {
    (r: Row) => if r.open && r.lot == l then r.volume else 0
  }

  /** The open volume of a lot in a vessel. */
  function Level(rows: seq<Row>, v: VesselId, l: LotId): int {
    SumBy(OpenVolume(v, l), rows)
  }

  /** The open volume of a lot over all vessels. */
  function LotTotal(rows: seq<Row>, l: LotId): int {
    SumBy(OpenOf(l), rows)
  }

  function Into(v: VesselId): Pour -> int {
    (p: Pour) => if p.vessel == v then p.volume else 0
  }

  function Poured(p: Pour): int { p.volume }

  function Max0(x: int): int { if x < 0 then 0 else x }

  function Min(x: int, y: int): int { if x < y then x else y }

  // ---------- Changing the table ----------

  /** Overwrite row `i`: close it at zero, or leave `left` in it. A vessel whose
      last open row closes becomes empty. */
  function Settle(t: Table, i: nat, left: int, closing: bool): Table
    requires i < |t.rows|
  {
    var r := t.rows[i];
    Table(t.rows[i := r.(volume := if closing then 0 else left, open := !closing)],
          if closing && !OtherOpen(t.rows, r.vessel, i) then t.status[r.vessel := Empty] else t.status)
  }

  function Decrease(t: Table, v: VesselId, l: LotId, amount: int): Table {
    var i := FindOpen(t.rows, v, l);
    if i == |t.rows| then t
    else
      var left := Max0(t.rows[i].volume - amount);
      Settle(t, i, left, left <= 0)
  }

  /** `seen` is the status the loaded vessel object still carries; the write to
      the status column is skipped when that object already says in_use. */
  function Increase(t: Table, v: VesselId, seen: Status, l: LotId, amount: int): Table {
    var i := FindOpen(t.rows, v, l);
    var rows := if i < |t.rows| then t.rows[i := t.rows[i].(volume := t.rows[i].volume + amount)]
                else t.rows + [Row(l, v, amount, true)];
    Table(rows, if seen != InUse then t.status[v := InUse] else t.status)
  }

  /** Raise one barrel after the other; each barrel's vessel is loaded when its
      turn comes. */
  function FillAll(t: Table, l: LotId, pours: seq<Pour>): Table
    requires forall i | 0 <= i < |pours| :: pours[i].vessel in t.status
    ensures FillAll(t, l, pours).status.Keys == t.status.Keys
  {
    if pours == [] then t
    else
      var p := pours[|pours| - 1];
      var before := FillAll(t, l, pours[..|pours| - 1]);
      Increase(before, p.vessel, before.status[p.vessel], l, p.volume)
  }

  function DrainAll(t: Table, l: LotId, pours: seq<Pour>): Table {
    if pours == [] then t
    else
      var p := pours[|pours| - 1];
      Decrease(DrainAll(t, l, pours[..|pours| - 1]), p.vessel, l, p.volume)
  }

  function Total(pours: seq<Pour>): int { SumBy(Poured, pours) }

  predicate Known(t: Table, pours: seq<Pour>) {
    forall i | 0 <= i < |pours| :: pours[i].vessel in t.status
  }

  function Transfer(t: Table, from: VesselId, to: VesselId, l: LotId, requested: int, variance: int): Outcome {
    if from !in t.status || to !in t.status || requested > CurrentVolume(t.rows, from) then Rejected
    else Done(Increase(Decrease(t, from, l, requested), to, t.status[to], l, requested - variance))
  }

  function Fill(t: Table, l: LotId, pours: seq<Pour>): Outcome {
    if !Known(t, pours) then Rejected else Done(FillAll(t, l, pours))
  }

  lemma DecreaseKeepsVessels(t: Table, v: VesselId, l: LotId, amount: int)
    requires v in t.status
    ensures Decrease(t, v, l, amount).status.Keys == t.status.Keys
  {
  }

  function Top(t: Table, source: VesselId, l: LotId, pours: seq<Pour>): Outcome {
    if source !in t.status || Total(pours) > CurrentVolume(t.rows, source) || !Known(t, pours) then Rejected
    else
      DecreaseKeepsVessels(t, source, l, Total(pours));
      Done(FillAll(Decrease(t, source, l, Total(pours)), l, pours))
  }

  /** The target vessel is loaded before the barrels are drained. */
  function Rack(t: Table, target: VesselId, l: LotId, pours: seq<Pour>): Outcome {
    if target !in t.status || !Known(t, pours) then Rejected
    else Done(Increase(DrainAll(t, l, pours), target, t.status[target], l, Total(pours)))
  }

  /** What a sample of `ml` millilitres leaves of `volume`, before rounding. */
  function AfterSample(volume: int, ml: real): real {
    volume as real - ml * 10000.0 / 3785.41
  }

  /** The decimal(12,4) column rounds what it is given to the nearest unit. */
  function Stored(x: real): int { (x + 0.5).Floor }

  function Sample(t: Table, v: VesselId, l: LotId, ml: real): Outcome {
    if v !in t.status then Rejected
    else
      var i := FindOpen(t.rows, v, l);
      if i == |t.rows| then Done(t)
      else
        var left := AfterSample(t.rows[i].volume, ml);
        Done(Settle(t, i, Stored(left), left <= 0.0))
  }

  // ---------- The invariant ----------

  predicate Unique(rows: seq<Row>) {
    forall i, j | 0 <= i < j < |rows| && rows[i].open && rows[j].open ::
      rows[i].vessel != rows[j].vessel || rows[i].lot != rows[j].lot
  }

  predicate ClosedAtZero(rows: seq<Row>) {
    forall i | 0 <= i < |rows| && !rows[i].open :: rows[i].volume == 0
  }

  predicate RowsSound(t: Table) {
    forall i | 0 <= i < |t.rows| ::
      t.rows[i].vessel in t.status && (if t.rows[i].open then 0 < t.rows[i].volume else t.rows[i].volume == 0)
  }

  predicate StatusSound(t: Table) {
    forall v | v in t.status :: t.status[v] == InUse <==> Occupied(t.rows, v)
  }

  /** At most one open row per vessel and lot, open rows above zero, closed rows
      at zero, and in_use exactly on the vessels with an open row. */
  predicate Inv(t: Table) {
    Unique(t.rows) && RowsSound(t) && StatusSound(t)
  }

  /** No row disappears or changes owner, and a closed row never changes again. */
  predicate Extends(a: seq<Row>, b: seq<Row>) {
    |a| <= |b| &&
    forall i | 0 <= i < |a| :: b[i].vessel == a[i].vessel && b[i].lot == a[i].lot && (!a[i].open ==> b[i] == a[i])
  }

  /** What every change of the table keeps, whatever its amounts and statuses: one
      open row per vessel and lot, and closed rows as they were, at zero. */
  predicate Carries(a: seq<Row>, b: seq<Row>) {
    && (Unique(a) ==> Unique(b)) && Extends(a, b)
    && (ClosedAtZero(a) ==> ClosedAtZero(b))
  }

  lemma CarriesChain(a: seq<Row>, b: seq<Row>, c: seq<Row>)
    requires Carries(a, b) && Carries(b, c)
    ensures Carries(a, c)
  {
  }

  predicate IsOpen(rows: seq<Row>, v: VesselId, l: LotId) {
    FindOpen(rows, v, l) < |rows|
  }

  /** An open row of another lot in the vessel. */
  predicate OtherLot(rows: seq<Row>, v: VesselId, l: LotId) {
    exists j :: 0 <= j < |rows| && rows[j].open && rows[j].vessel == v && rows[j].lot != l
  }

  lemma IsOpenAt(rows: seq<Row>, v: VesselId, l: LotId)
    ensures IsOpen(rows, v, l) <==> exists j :: 0 <= j < |rows| && Holds(rows[j], v, l)
  {
  }

  /** Under uniqueness the level is what the one open row says. */
  lemma LevelIsRow(rows: seq<Row>, v: VesselId, l: LotId)
    requires Unique(rows)
    ensures var i := FindOpen(rows, v, l);
            Level(rows, v, l) == if i < |rows| then rows[i].volume else 0
  {
    var i, f := FindOpen(rows, v, l), OpenVolume(v, l);
    if i < |rows| {
      var rest := rows[..i] + rows[i + 1..];
      assert forall j | 0 <= j < |rest| :: rest[j] == if j < i then rows[j] else rows[j + 1];
      SumBounds(f, rest, 0, 0);
      SumRemove(f, rows, i);
    } else {
      SumBounds(f, rows, 0, 0);
    }
  }

  /** An open row exists exactly where the level is above zero. */
  lemma OpenIffLevel(t: Table, v: VesselId, l: LotId)
    requires Inv(t)
    ensures 0 <= Level(t.rows, v, l)
    ensures FindOpen(t.rows, v, l) < |t.rows| <==> 0 < Level(t.rows, v, l)
  {
    LevelIsRow(t.rows, v, l);
  }

  lemma SettleLevels(t: Table, i: nat, left: int, closing: bool)
    requires i < |t.rows| && t.rows[i].open
    ensures var r, u, after := t.rows[i], Settle(t, i, left, closing).rows, if closing then 0 else left;
            && (forall v, l :: Level(u, v, l) ==
                  Level(t.rows, v, l) + (if v == r.vessel && l == r.lot then after - r.volume else 0))
            && (forall l :: LotTotal(u, l) ==
                  LotTotal(t.rows, l) + (if l == r.lot then after - r.volume else 0))
  {
    var u := Settle(t, i, left, closing).rows;
    forall v, l
      ensures Level(u, v, l) == Level(t.rows, v, l) +
                (if v == t.rows[i].vessel && l == t.rows[i].lot
                 then (if closing then 0 else left) - t.rows[i].volume else 0)
    {
      SumUpdate(OpenVolume(v, l), t.rows, i, u[i]);
    }
    forall l
      ensures LotTotal(u, l) == LotTotal(t.rows, l) +
                (if l == t.rows[i].lot then (if closing then 0 else left) - t.rows[i].volume else 0)
    {
      SumUpdate(OpenOf(l), t.rows, i, u[i]);
    }
  }

  lemma OccupiedAfterSettle(t: Table, i: nat, left: int, closing: bool, v: VesselId)
    requires i < |t.rows| && t.rows[i].open
    ensures var u := Settle(t, i, left, closing).rows;
            Occupied(u, v) <==>
              if v == t.rows[i].vessel then !closing || OtherOpen(t.rows, v, i) else Occupied(t.rows, v)
  {
    var u := Settle(t, i, left, closing).rows;
    if v == t.rows[i].vessel {
      if !closing {
        assert u[i].open;
      }
      if OtherOpen(t.rows, v, i) {
        var j :| 0 <= j < |t.rows| && j != i && t.rows[j].open && t.rows[j].vessel == v;
        assert u[j] == t.rows[j];
      }
    } else if Occupied(t.rows, v) {
      var j :| 0 <= j < |t.rows| && t.rows[j].open && t.rows[j].vessel == v;
      assert u[j] == t.rows[j];
    }
  }

  lemma SettleKeepsInv(t: Table, i: nat, left: int, closing: bool)
    requires Inv(t) && i < |t.rows| && t.rows[i].open
    ensures Extends(t.rows, Settle(t, i, left, closing).rows)
    ensures Inv(Settle(t, i, left, closing)) <==> closing || 0 < left
  {
    var u := Settle(t, i, left, closing);
    assert u.rows[i].open == !closing && u.rows[i].volume == if closing then 0 else left;
    if closing || 0 < left {
      forall v | v in u.status
        ensures u.status[v] == InUse <==> Occupied(u.rows, v)
      {
        OccupiedAfterSettle(t, i, left, closing, v);
        assert Occupied(t.rows, t.rows[i].vessel);
      }
    }
  }

  lemma DecreaseKeepsInv(t: Table, v: VesselId, l: LotId, amount: int)
    requires Inv(t)
    ensures var u := Decrease(t, v, l, amount);
            Inv(u) && Extends(t.rows, u.rows) && u.status.Keys == t.status.Keys
  {
    hide Unique, StatusSound, OtherOpen;
    var i := FindOpen(t.rows, v, l);
    if i < |t.rows| {
      var left := Max0(t.rows[i].volume - amount);
      SettleKeepsInv(t, i, left, left <= 0);
    }
  }

  /** The level drops by the amount but not below zero; the lot's total drops by
      what was really there. */
  lemma DecreaseLevels(t: Table, v: VesselId, l: LotId, amount: int)
    requires Unique(t.rows) && 0 <= amount
    ensures var u, x := Decrease(t, v, l, amount).rows, Level(t.rows, v, l);
            && (forall v', l' ::
                  Level(u, v', l') == if v' == v && l' == l then Max0(x - amount) else Level(t.rows, v', l'))
            && (forall l' :: LotTotal(u, l') == LotTotal(t.rows, l') - (if l' == l then Min(amount, x) else 0))
  {
    LevelIsRow(t.rows, v, l);
    var i := FindOpen(t.rows, v, l);
    if i < |t.rows| {
      var left := Max0(t.rows[i].volume - amount);
      SettleLevels(t, i, left, left <= 0);
    }
  }

  lemma SettleCarries(t: Table, i: nat, left: int, closing: bool)
    requires i < |t.rows| && t.rows[i].open
    ensures Carries(t.rows, Settle(t, i, left, closing).rows)
  {
  }

  lemma DecreaseCarries(t: Table, v: VesselId, l: LotId, amount: int)
    ensures Carries(t.rows, Decrease(t, v, l, amount).rows)
  {
    var i := FindOpen(t.rows, v, l);
    if i < |t.rows| {
      var left := Max0(t.rows[i].volume - amount);
      SettleCarries(t, i, left, left <= 0);
    }
  }

  lemma IncreaseCarries(t: Table, v: VesselId, seen: Status, l: LotId, amount: int)
    ensures Carries(t.rows, Increase(t, v, seen, l, amount).rows)
  {
  }

  lemma SettleOpen(t: Table, i: nat, left: int, closing: bool, v: VesselId, l: LotId)
    requires Unique(t.rows) && i < |t.rows| && t.rows[i].open
    ensures var u := Settle(t, i, left, closing).rows;
            && (IsOpen(u, v, l) <==> IsOpen(t.rows, v, l) && !(closing && Holds(t.rows[i], v, l)))
            && (t.rows[i].lot == l ==> (OtherLot(u, v, l) <==> OtherLot(t.rows, v, l)))
  {
    var u := Settle(t, i, left, closing).rows;
    IsOpenAt(u, v, l);
    IsOpenAt(t.rows, v, l);
    hide IsOpen;
    if j :| 0 <= j < |t.rows| && Holds(t.rows[j], v, l) && (j != i || !closing) {
      assert Holds(u[j], v, l);
    }
    if t.rows[i].lot == l {
      if j :| 0 <= j < |t.rows| && t.rows[j].open && t.rows[j].vessel == v && t.rows[j].lot != l {
        assert u[j] == t.rows[j];
      }
      if j :| 0 <= j < |u| && u[j].open && u[j].vessel == v && u[j].lot != l {
        assert u[j] == t.rows[j];
      }
    }
  }

  lemma SettleOpenAll(t: Table, i: nat, left: int, closing: bool)
    requires Unique(t.rows) && i < |t.rows| && t.rows[i].open
    ensures var u, r := Settle(t, i, left, closing), t.rows[i];
            && (forall v, l :: IsOpen(u.rows, v, l) <==>
                  IsOpen(t.rows, v, l) && !(closing && v == r.vessel && l == r.lot))
            && (forall v :: OtherLot(u.rows, v, r.lot) <==> OtherLot(t.rows, v, r.lot))
            && u.status == if closing && !OtherLot(t.rows, r.vessel, r.lot)
                           then t.status[r.vessel := Empty] else t.status
  {
    hide IsOpen, OtherLot, Unique;
    forall v, l
      ensures IsOpen(Settle(t, i, left, closing).rows, v, l) <==>
                IsOpen(t.rows, v, l) && !(closing && v == t.rows[i].vessel && l == t.rows[i].lot)
    {
      SettleOpen(t, i, left, closing, v, l);
    }
    forall v
      ensures OtherLot(Settle(t, i, left, closing).rows, v, t.rows[i].lot) <==> OtherLot(t.rows, v, t.rows[i].lot)
    {
      SettleOpen(t, i, left, closing, v, t.rows[i].lot);
    }
    OthersAreOtherLots(t.rows, i);
  }

  /** A decrease closes the lot's row exactly when it takes all that is there, and
      empties the vessel when no other lot is in it. */
  lemma DecreaseOpen(t: Table, v: VesselId, l: LotId, amount: int)
    requires Unique(t.rows)
    ensures var u, x := Decrease(t, v, l, amount), Level(t.rows, v, l);
            && (forall v', l' ::
                  IsOpen(u.rows, v', l') <==> IsOpen(t.rows, v', l') && !(v' == v && l' == l && x <= amount))
            && (forall v' :: OtherLot(u.rows, v', l) <==> OtherLot(t.rows, v', l))
            && u.status == if IsOpen(t.rows, v, l) && x <= amount && !OtherLot(t.rows, v, l)
                           then t.status[v := Empty] else t.status
  {
    LevelIsRow(t.rows, v, l);
    assert IsOpen(t.rows, v, l) <==> FindOpen(t.rows, v, l) < |t.rows|;
    hide Level, IsOpen, OtherLot, Unique, Settle;
    var i := FindOpen(t.rows, v, l);
    if i < |t.rows| {
      var left := Max0(t.rows[i].volume - amount);
      SettleOpenAll(t, i, left, left <= 0);
    }
  }

  lemma OthersAreOtherLots(rows: seq<Row>, i: nat)
    requires Unique(rows) && i < |rows| && rows[i].open
    ensures OtherOpen(rows, rows[i].vessel, i) <==> OtherLot(rows, rows[i].vessel, rows[i].lot)
  {
  }

  lemma IncreaseOpen(t: Table, v: VesselId, seen: Status, l: LotId, amount: int)
    ensures var u := Increase(t, v, seen, l, amount).rows;
            forall v', l' :: IsOpen(u, v', l') <==> IsOpen(t.rows, v', l') || (v' == v && l' == l)
  {
    var u, i := Increase(t, v, seen, l, amount).rows, FindOpen(t.rows, v, l);
    assert Holds(u[i], v, l);
    forall v', l' ensures IsOpen(u, v', l') <==> IsOpen(t.rows, v', l') || (v' == v && l' == l) {
      IsOpenAt(u, v', l');
      IsOpenAt(t.rows, v', l');
      if j :| 0 <= j < |t.rows| && Holds(t.rows[j], v', l') {
        assert Holds(u[j], v', l');
      }
    }
  }

  lemma IncreaseLevels(t: Table, v: VesselId, seen: Status, l: LotId, amount: int)
    ensures var u := Increase(t, v, seen, l, amount).rows;
            && Extends(t.rows, u)
            && (forall v', l' :: Level(u, v', l') ==
                  Level(t.rows, v', l') + (if v' == v && l' == l then amount else 0))
            && (forall l' :: LotTotal(u, l') == LotTotal(t.rows, l') + (if l' == l then amount else 0))
  {
    var u, i := Increase(t, v, seen, l, amount).rows, FindOpen(t.rows, v, l);
    forall v', l'
      ensures Level(u, v', l') == Level(t.rows, v', l') + (if v' == v && l' == l then amount else 0)
    {
      if i < |t.rows| {
        SumUpdate(OpenVolume(v', l'), t.rows, i, u[i]);
      } else {
        SumPush(OpenVolume(v', l'), t.rows, Row(l, v, amount, true));
      }
    }
    forall l'
      ensures LotTotal(u, l') == LotTotal(t.rows, l') + (if l' == l then amount else 0)
    {
      if i < |t.rows| {
        SumUpdate(OpenOf(l'), t.rows, i, u[i]);
      } else {
        SumPush(OpenOf(l'), t.rows, Row(l, v, amount, true));
      }
    }
  }

  lemma OccupiedAfterIncrease(t: Table, v: VesselId, seen: Status, l: LotId, amount: int, v': VesselId)
    ensures Occupied(Increase(t, v, seen, l, amount).rows, v') <==> v' == v || Occupied(t.rows, v')
  {
    var u, i := Increase(t, v, seen, l, amount).rows, FindOpen(t.rows, v, l);
    assert i < |u| && u[i].open && u[i].vessel == v;
    if Occupied(t.rows, v') {
      var j :| 0 <= j < |t.rows| && t.rows[j].open && t.rows[j].vessel == v';
      assert u[j].open && u[j].vessel == v';
    }
  }

  lemma IncreaseRows(t: Table, v: VesselId, seen: Status, l: LotId, amount: int)
    requires Unique(t.rows) && RowsSound(t) && v in t.status
    ensures var u := Increase(t, v, seen, l, amount);
            Unique(u.rows) && (RowsSound(u) <==> 0 < Level(t.rows, v, l) + amount)
  {
    LevelIsRow(t.rows, v, l);
    hide Level;
    var u, i := Increase(t, v, seen, l, amount), FindOpen(t.rows, v, l);
    assert i < |u.rows| && u.rows[i].open && u.rows[i].volume == Level(t.rows, v, l) + amount;
  }

  lemma IncreaseStatuses(t: Table, v: VesselId, seen: Status, l: LotId, amount: int)
    requires StatusSound(t) && v in t.status
    ensures StatusSound(Increase(t, v, seen, l, amount)) <==> (seen != InUse || t.status[v] == InUse)
  {
    hide Occupied, FindOpen;
    var u := Increase(t, v, seen, l, amount);
    forall v' | v' in u.status ensures Occupied(u.rows, v') <==> v' == v || Occupied(t.rows, v') {
      OccupiedAfterIncrease(t, v, seen, l, amount, v');
    }
    assert v in u.status;
  }

  /** Raising a level keeps the invariant exactly when the new level is positive
      and the stale status does not hide an empty vessel. */
  lemma IncreaseKeepsInv(t: Table, v: VesselId, seen: Status, l: LotId, amount: int)
    requires Inv(t) && v in t.status
    ensures Inv(Increase(t, v, seen, l, amount)) <==>
              0 < Level(t.rows, v, l) + amount && (seen != InUse || t.status[v] == InUse)
  {
    hide Unique, RowsSound, StatusSound, Level, Increase;
    IncreaseRows(t, v, seen, l, amount);
    IncreaseStatuses(t, v, seen, l, amount);
  }
}
