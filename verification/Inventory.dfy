/** InventoryService: stock levels per SKU and location, the movement ledger and
    the inventory events, with their laws. */
module Inventory {
  import opened Sums
  import opened Options

  type Sku = nat
  type Loc = nat

  datatype StockRow = StockRow(sku: Sku, loc: Loc, onHand: int)

  datatype Kind = Received | Sold | Adjusted | Transferred

  datatype Movement = Movement(sku: Sku, loc: Loc, kind: Kind, quantity: int)

  /** Inventory events; quantities are signed except in a transfer. */
  datatype Event =
    | StockMoved(sku: Sku, loc: Loc, kind: Kind, quantity: int)
    | StockTransferred(sku: Sku, from: Loc, to: Loc, quantity: int)
    | CountStarted(count: nat, loc: Loc, lines: nat)
    | CountApproved(count: nat, loc: Loc, lines: nat, adjustments: nat)
    | CountCancelled(count: nat, loc: Loc, counted: nat)

  datatype Stock = Stock(rows: seq<StockRow>, movements: seq<Movement>, log: seq<Event>)

  /** The row of a SKU at a location, or the row count. */
  function FindRow(rows: seq<StockRow>, sku: Sku, loc: Loc): (i: nat)
    ensures i <= |rows|
    ensures i < |rows| ==> rows[i].sku == sku && rows[i].loc == loc
    ensures forall j | 0 <= j < i :: !(rows[j].sku == sku && rows[j].loc == loc)
  {
    if rows == [] || (rows[0].sku == sku && rows[0].loc == loc) then 0 else 1 + FindRow(rows[1..], sku, loc)
  }

  /** Lock or create the stock row, add the quantity, append the movement. */
  function Move(s: Stock, sku: Sku, loc: Loc, kind: Kind, q: int): Stock {
    var i := FindRow(s.rows, sku, loc);
    s.(rows := if i < |s.rows| then s.rows[i := s.rows[i].(onHand := s.rows[i].onHand + q)]
               else s.rows + [StockRow(sku, loc, q)],
       movements := s.movements + [Movement(sku, loc, kind, q)])
  }

  /** receive, sell and adjust: one movement and one event in one transaction. */
  function Recorded(s: Stock, sku: Sku, loc: Loc, kind: Kind, q: int): Stock {
    var moved := Move(s, sku, loc, kind, q);
    moved.(log := moved.log + [StockMoved(sku, loc, kind, q)])
  }

  function Receive(s: Stock, sku: Sku, loc: Loc, q: int): Option<Stock> {
    if q <= 0 then None else Some(Recorded(s, sku, loc, Received, q))
  }

  function Sell(s: Stock, sku: Sku, loc: Loc, q: int): Option<Stock> {
    if q <= 0 then None else Some(Recorded(s, sku, loc, Sold, -q))
  }

  function Adjust(s: Stock, sku: Sku, loc: Loc, q: int): Stock {
    Recorded(s, sku, loc, Adjusted, q)
  }

  function Transfer(s: Stock, sku: Sku, from: Loc, to: Loc, q: int): Option<Stock> {
    if q <= 0 || from == to then None
    else
      var moved := Move(Move(s, sku, from, Transferred, -q), sku, to, Transferred, q);
      Some(moved.(log := moved.log + [StockTransferred(sku, from, to, q)]))
  }

  datatype Op =
    | ReceiveOp(sku: Sku, loc: Loc, q: int)
    | SellOp(sku: Sku, loc: Loc, q: int)
    | AdjustOp(sku: Sku, loc: Loc, q: int)
    | TransferOp(sku: Sku, loc: Loc, to: Loc, q: int)

  function Attempt(s: Stock, op: Op): Option<Stock> {
    match op
    case ReceiveOp(sku, loc, q) => Receive(s, sku, loc, q)
    case SellOp(sku, loc, q) => Sell(s, sku, loc, q)
    case AdjustOp(sku, loc, q) => Some(Adjust(s, sku, loc, q))
    case TransferOp(sku, loc, to, q) => Transfer(s, sku, loc, to, q)
  }

  function Apply(s: Stock, op: Op): Stock {
    var r := Attempt(s, op);
    if r.Some? then r.value else s
  }

  function Run(s: Stock, ops: seq<Op>): Stock {
    if ops == [] then s else Apply(Run(s, ops[..|ops| - 1]), ops[|ops| - 1])
  }

  // ---------- Balances ----------

  function RowAt(sku: Sku, loc: Loc): StockRow -> int {
    (r: StockRow) => if r.sku == sku && r.loc == loc then r.onHand else 0
  }

  function RowOf(sku: Sku): StockRow -> int {
    (r: StockRow) => if r.sku == sku then r.onHand else 0
  }

  function MovedAt(sku: Sku, loc: Loc): Movement -> int {
    (m: Movement) => if m.sku == sku && m.loc == loc then m.quantity else 0
  }

  function EventAt(sku: Sku, loc: Loc): Event -> int {
    (e: Event) =>
      match e
      case StockMoved(k, l, _, q) => if k == sku && l == loc then q else 0
      case StockTransferred(k, from, to, q) =>
        (if k == sku && from == loc then -q else 0) + (if k == sku && to == loc then q else 0)
      case _ => 0
  }

  function OnHand(rows: seq<StockRow>, sku: Sku, loc: Loc): int { SumBy(RowAt(sku, loc), rows) }

  /** A SKU's stock over all locations. */
  function SkuTotal(rows: seq<StockRow>, sku: Sku): int { SumBy(RowOf(sku), rows) }

  function Ledger(s: Stock, sku: Sku, loc: Loc): int { SumBy(MovedAt(sku, loc), s.movements) }

  function Replayed(s: Stock, sku: Sku, loc: Loc): int { SumBy(EventAt(sku, loc), s.log) }

  /** One row per SKU and location (a unique index). */
  predicate UniqueRows(rows: seq<StockRow>) {
    forall i, j | 0 <= i < j < |rows| :: rows[i].sku != rows[j].sku || rows[i].loc != rows[j].loc
  }

  lemma MoveLaw(s: Stock, sku: Sku, loc: Loc, kind: Kind, q: int)
    ensures var t := Move(s, sku, loc, kind, q);
            && t.log == s.log
            && (forall k, l :: OnHand(t.rows, k, l) == OnHand(s.rows, k, l) + (if k == sku && l == loc then q else 0))
            && (forall k, l :: Ledger(t, k, l) == Ledger(s, k, l) + (if k == sku && l == loc then q else 0))
            && (forall k :: SkuTotal(t.rows, k) == SkuTotal(s.rows, k) + (if k == sku then q else 0))
            && (UniqueRows(s.rows) ==> UniqueRows(t.rows))
  {
    var t, i := Move(s, sku, loc, kind, q), FindRow(s.rows, sku, loc);
    forall k, l
      ensures OnHand(t.rows, k, l) == OnHand(s.rows, k, l) + (if k == sku && l == loc then q else 0)
      ensures Ledger(t, k, l) == Ledger(s, k, l) + (if k == sku && l == loc then q else 0)
    {
      SumPush(MovedAt(k, l), s.movements, Movement(sku, loc, kind, q));
      if i < |s.rows| {
        SumUpdate(RowAt(k, l), s.rows, i, t.rows[i]);
      } else {
        SumPush(RowAt(k, l), s.rows, StockRow(sku, loc, q));
      }
    }
    forall k ensures SkuTotal(t.rows, k) == SkuTotal(s.rows, k) + (if k == sku then q else 0) {
      if i < |s.rows| {
        SumUpdate(RowOf(k), s.rows, i, t.rows[i]);
      } else {
        SumPush(RowOf(k), s.rows, StockRow(sku, loc, q));
      }
    }
  }

  /** How an operation that is carried out changes one balance. */
  function Effect(op: Op, sku: Sku, loc: Loc): int {
    match op
    case ReceiveOp(k, l, q) => if k == sku && l == loc then q else 0
    case SellOp(k, l, q) => if k == sku && l == loc then -q else 0
    case AdjustOp(k, l, q) => if k == sku && l == loc then q else 0
    case TransferOp(k, from, to, q) =>
      (if k == sku && from == loc then -q else 0) + (if k == sku && to == loc then q else 0)
  }

  /** Balances, movement ledger and events all change by the operation's effect. */
  ghost predicate MovesBy(s: Stock, t: Stock, op: Op) {
    && (forall k, l :: OnHand(t.rows, k, l) == OnHand(s.rows, k, l) + Effect(op, k, l))
    && (forall k, l :: Ledger(t, k, l) == Ledger(s, k, l) + Effect(op, k, l))
    && (forall k, l :: Replayed(t, k, l) == Replayed(s, k, l) + Effect(op, k, l))
    && (UniqueRows(s.rows) ==> UniqueRows(t.rows))
  }

  lemma RecordedLaw(s: Stock, sku: Sku, loc: Loc, kind: Kind, q: int)
    ensures MovesBy(s, Recorded(s, sku, loc, kind, q), AdjustOp(sku, loc, q))
  {
    MoveLaw(s, sku, loc, kind, q);
    forall k, l ensures Replayed(Recorded(s, sku, loc, kind, q), k, l) ==
                          Replayed(s, k, l) + Effect(AdjustOp(sku, loc, q), k, l) {
      SumPush(EventAt(k, l), s.log, StockMoved(sku, loc, kind, q));
    }
  }

  /** A transfer moves stock between two locations and changes no SKU's total. */
  lemma TransferLaw(s: Stock, sku: Sku, from: Loc, to: Loc, q: int)
    requires Transfer(s, sku, from, to, q).Some?
    ensures MovesBy(s, Transfer(s, sku, from, to, q).value, TransferOp(sku, from, to, q))
    ensures forall k :: SkuTotal(Transfer(s, sku, from, to, q).value.rows, k) == SkuTotal(s.rows, k)
  {
    hide OnHand, Ledger, SkuTotal, UniqueRows, Move;
    var mid := Move(s, sku, from, Transferred, -q);
    var end := Move(mid, sku, to, Transferred, q);
    var t := Transfer(s, sku, from, to, q).value;
    MoveLaw(s, sku, from, Transferred, -q);
    MoveLaw(mid, sku, to, Transferred, q);
    forall k, l
      ensures Ledger(t, k, l) == Ledger(s, k, l) + Effect(TransferOp(sku, from, to, q), k, l)
    {
      LedgerOnly(end, t, k, l);
    }
    forall k, l ensures Replayed(t, k, l) == Replayed(s, k, l) + Effect(TransferOp(sku, from, to, q), k, l) {
      SumPush(EventAt(k, l), s.log, StockTransferred(sku, from, to, q));
    }
  }

  lemma LedgerOnly(s: Stock, t: Stock, sku: Sku, loc: Loc)
    requires s.movements == t.movements
    ensures Ledger(s, sku, loc) == Ledger(t, sku, loc)
  {
  }

  /** Quantities must be above zero, except in an adjustment, and a transfer needs two
      locations; nothing else is refused. */
  lemma AcceptedExactly(s: Stock, op: Op)
    ensures Attempt(s, op).Some? <==>
              match op
              case ReceiveOp(_, _, q) => 0 < q
              case SellOp(_, _, q) => 0 < q
              case AdjustOp(_, _, _) => true
              case TransferOp(_, from, to, q) => 0 < q && from != to
  {
  }

  lemma StepLaw(s: Stock, op: Op)
    requires Attempt(s, op).Some?
    ensures MovesBy(s, Apply(s, op), op)
  {
    hide OnHand, Ledger, Replayed, UniqueRows, Recorded, Move;
    match op
    case ReceiveOp(sku, loc, q) => RecordedLaw(s, sku, loc, Received, q);
    case SellOp(sku, loc, q) => RecordedLaw(s, sku, loc, Sold, -q);
    case AdjustOp(sku, loc, q) => RecordedLaw(s, sku, loc, Adjusted, q);
    case TransferOp(sku, from, to, q) => TransferLaw(s, sku, from, to, q);
  }

  /** The stored balance, the movement ledger and the replayed events of every SKU
      and location stay equal over any run that starts with them equal. */
  lemma {:induction false} RunBalanced(s: Stock, ops: seq<Op>)
    ensures forall k, l :: OnHand(Run(s, ops).rows, k, l) - Ledger(Run(s, ops), k, l) ==
                             OnHand(s.rows, k, l) - Ledger(s, k, l)
    ensures forall k, l :: OnHand(Run(s, ops).rows, k, l) - Replayed(Run(s, ops), k, l) ==
                             OnHand(s.rows, k, l) - Replayed(s, k, l)
    ensures UniqueRows(s.rows) ==> UniqueRows(Run(s, ops).rows)
  {
    hide OnHand, Ledger, Replayed, UniqueRows, Attempt, Effect;
    if ops != [] {
      var front, last := ops[..|ops| - 1], ops[|ops| - 1];
      RunBalanced(s, front);
      if Attempt(Run(s, front), last).Some? {
        StepLaw(Run(s, front), last);
      }
    }
  }

  // ---------- The service ----------

  class InventoryService {
    var rows: seq<StockRow>
    var movements: seq<Movement>
    var log: seq<Event>

    function Now(): Stock
      reads this
    {
      Stock(rows, movements, log)
    }

    method RecordMovementInTransaction(sku: Sku, loc: Loc, kind: Kind, quantity: int)
      modifies this`rows, this`movements
      ensures Now() == Move(old(Now()), sku, loc, kind, quantity)
    {
      var i := FindRow(rows, sku, loc);
      if i == |rows| {
        rows := rows + [StockRow(sku, loc, 0)];
      }
      rows := rows[i := rows[i].(onHand := rows[i].onHand + quantity)];
      movements := movements + [Movement(sku, loc, kind, quantity)];
    }

    method RecordMovement(sku: Sku, loc: Loc, kind: Kind, quantity: int)
      modifies this
      ensures Now() == Recorded(old(Now()), sku, loc, kind, quantity)
    {
      RecordMovementInTransaction(sku, loc, kind, quantity);
      log := log + [StockMoved(sku, loc, kind, quantity)];
    }

    method ReceiveStock(sku: Sku, loc: Loc, quantity: int) returns (ok: bool)
      modifies this
      ensures ok == (0 < quantity) && Now() == Apply(old(Now()), ReceiveOp(sku, loc, quantity))
    {
      if quantity <= 0 {
        return false;
      }
      RecordMovement(sku, loc, Received, quantity);
      return true;
    }

    method SellStock(sku: Sku, loc: Loc, quantity: int) returns (ok: bool)
      modifies this
      ensures ok == (0 < quantity) && Now() == Apply(old(Now()), SellOp(sku, loc, quantity))
    {
      if quantity <= 0 {
        return false;
      }
      RecordMovement(sku, loc, Sold, -quantity);
      return true;
    }

    method AdjustStock(sku: Sku, loc: Loc, quantity: int)
      modifies this
      ensures Now() == Apply(old(Now()), AdjustOp(sku, loc, quantity))
    {
      RecordMovement(sku, loc, Adjusted, quantity);
    }

    method TransferStock(sku: Sku, from: Loc, to: Loc, quantity: int) returns (ok: bool)
      modifies this
      ensures ok == (0 < quantity && from != to)
      ensures Now() == Apply(old(Now()), TransferOp(sku, from, to, quantity))
    {
      if quantity <= 0 || from == to {
        return false;
      }
      RecordMovementInTransaction(sku, from, Transferred, -quantity);
      RecordMovementInTransaction(sku, to, Transferred, quantity);
      log := log + [StockTransferred(sku, from, to, quantity)];
      return true;
    }
  }
}
