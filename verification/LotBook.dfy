/** Lots, blend trials, bottling runs, the cost ledger and the event log, and what
    LotService, LotSplitService, BlendService and BottlingService do to them.
    A row's id is its position; ids are never reused. */
module LotBook {
  import opened FixedPoint
  import opened Sums
  import opened Options
  import opened CostLedger
  import opened CostAllocation
  import opened VarietalLabel

  datatype LotStatus = InProgress | Aging | Finished | Bottled | Sold | Archived

  datatype Lot = Lot(variety: Variety, volume: int, status: LotStatus)

  datatype Component = Component(source: nat, volume: int)

  datatype TrialState = Draft | Finalized(lot: nat) | Shelved

  datatype Trial = Trial(state: TrialState, components: seq<Component>, total: int, chosen: Option<Variety>)

  datatype Run = Run(lot: nat, volume: int, bottles: int, perCase: int, packaging: seq<Packaging>,
                     cases: int, completed: bool)

  /** A case-goods SKU: the lot and the bottling run it came from, and its price in
      cents. */
  datatype SkuCard = SkuCard(lot: Option<nat>, run: Option<nat>, costPerBottle: Option<int>)

  /** An event that does not name a status stands for the default, in_progress. */
  datatype Event =
    | LotCreated(lot: nat, volume: int, status: LotStatus)
    | VolumeAdjusted(lot: nat, before: int, after: int, delta: int)
    | LotSplit(lot: nat, before: int, after: int, total: int)
    | StatusChanged(lot: nat, was: LotStatus, now: LotStatus)
    | CostEntryCreated(entry: CostEntry)
    | BlendFinalized(lot: nat, trial: nat, total: int)
    | BottlingCompleted(lot: nat, run: nat, bottled: int, before: int, after: int, cases: int)
    | DryGoodsDeducted(item: nat, quantity: int, before: int, after: int)
    | CogsCalculated(lot: nat, run: nat, cogs: Cogs)

  datatype Book = Book(lots: seq<Lot>, trials: seq<Trial>, runs: seq<Run>, goods: seq<DryGood>,
                       skus: seq<SkuCard>, costs: seq<CostEntry>, log: seq<Event>)

  function Logged(b: Book, e: Event): Book {
    b.(log := b.log + [e])
  }

  // ---------- LotService ----------

  function NewLot(b: Book, lot: Lot): Book {
    b.(lots := b.lots + [lot], log := b.log + [LotCreated(|b.lots|, lot.volume, lot.status)])
  }

  function Adjust(b: Book, l: nat, delta: int): Option<Book> {
    if l >= |b.lots| || b.lots[l].volume + delta < 0 then None
    else
      var before := b.lots[l].volume;
      Some(b.(lots := b.lots[l := b.lots[l].(volume := before + delta)],
              log := b.log + [VolumeAdjusted(l, before, before + delta, delta)]))
  }

  /** updateLot overwrites whatever fields it is given, the volume among them, and
      writes an event for a changed status only. */
  function Update(b: Book, l: nat, volume: Option<int>, status: Option<LotStatus>): Option<Book> {
    if l >= |b.lots| then None
    else
      var was := b.lots[l];
      var now := was.(volume := if volume.Some? then volume.value else was.volume,
                     status := if status.Some? then status.value else was.status);
      Some(b.(lots := b.lots[l := now],
              log := if was.status != now.status then b.log + [StatusChanged(l, was.status, now.status)] else b.log))
  }

  // ---------- CostAccumulationService: every record*Cost ----------

  function Record(b: Book, l: nat, ty: CostType, amount: int): Book {
    var e := CostEntry(l, ty, amount);
    b.(costs := b.costs + [e], log := b.log + [CostEntryCreated(e)])
  }

  // ---------- LotSplitService ----------

  function Spawn(b: Book, variety: Variety, ws: seq<int>): Book {
    if ws == [] then b
    else NewLot(Spawn(b, variety, ws[..|ws| - 1]), Lot(variety, ws[|ws| - 1], InProgress))
  }

  function ShrinkParent(b: Book, l: nat, before: int, total: int): Book
    requires l < |b.lots|
  {
    b.(lots := b.lots[l := b.lots[l].(volume := before - total)],
       log := b.log + [LotSplit(l, before, before - total, total)])
  }

  /** One transfer_in entry per child whose truncated share is positive. */
  function RollToChildren(b: Book, first: nat, cost: int, volume: int, ws: seq<int>): Book
    requires volume > 0
  {
    if ws == [] then b
    else
      var n := |ws| - 1;
      var before, share := RollToChildren(b, first, cost, volume, ws[..n]), SplitShare(cost, volume, ws[n]);
      if share <= 0 then before else Record(before, first + n, TransferIn, share)
  }

  function Split(b: Book, l: nat, ws: seq<int>): Option<Book> {
    if l >= |b.lots| || Sum(ws) > b.lots[l].volume then None
    else
      var volume, first := b.lots[l].volume, |b.lots|;
      SpawnKeepsLots(b, b.lots[l].variety, ws);
      var shrunk := ShrinkParent(Spawn(b, b.lots[l].variety, ws), l, volume, Sum(ws));
      var cost := TotalCost(shrunk.costs, l);
      Some(if cost <= 0 || volume <= 0 then shrunk else RollToChildren(shrunk, first, cost, volume, ws))
  }

  lemma {:induction false} SpawnKeepsLots(b: Book, variety: Variety, ws: seq<int>)
    ensures var c := Spawn(b, variety, ws);
            && |c.lots| == |b.lots| + |ws|
            && (forall i | 0 <= i < |b.lots| :: c.lots[i] == b.lots[i])
            && (forall i | 0 <= i < |ws| :: c.lots[|b.lots| + i] == Lot(variety, ws[i], InProgress))
            && c == b.(lots := c.lots, log := c.log)
  {
    if ws != [] {
      SpawnKeepsLots(b, variety, ws[..|ws| - 1]);
    }
  }

  // ---------- BlendService ----------

  predicate SourcesKnown(b: Book, cs: seq<Component>) {
    forall i | 0 <= i < |cs| :: cs[i].source < |b.lots|
  }

  /** One component per lot and trial (a unique index). */
  predicate Distinct(cs: seq<Component>) {
    forall i, j | 0 <= i < j < |cs| :: cs[i].source != cs[j].source
  }

  function PartsOf(b: Book, cs: seq<Component>): seq<Part>
    requires SourcesKnown(b, cs)
  {
    seq(|cs|, i requires 0 <= i < |cs| => Part(b.lots[cs[i].source].variety, cs[i].volume))
  }

  function CreateTrial(b: Book, cs: seq<Component>): Option<Book> {
    if !SourcesKnown(b, cs) || !Distinct(cs) then None
    else
      var parts := PartsOf(b, cs);
      Some(b.(trials := b.trials + [Trial(Draft, cs, BlendVolume(parts), LabelOf(parts))]))
  }

  predicate Enough(b: Book, cs: seq<Component>) {
    forall i | 0 <= i < |cs| :: cs[i].source < |b.lots| && cs[i].volume <= b.lots[cs[i].source].volume
  }

  function DeductAll(b: Book, cs: seq<Component>): Option<Book> {
    if cs == [] then Some(b)
    else
      var before := DeductAll(b, cs[..|cs| - 1]);
      if before.None? then None else Adjust(before.value, cs[|cs| - 1].source, -cs[|cs| - 1].volume)
  }

  /** What a component's source hands on: nothing without cost or volume. The
      volume is the deducted one with the component added back. */
  function RolledShare(b: Book, c: Component): int {
    if c.source >= |b.lots| then 0
    else
      var cost, whole := TotalCost(b.costs, c.source), b.lots[c.source].volume + c.volume;
      if cost <= 0 || whole <= 0 then 0 else BlendShare(cost, c.volume, whole)
  }

  function RollToBlend(b: Book, into: nat, cs: seq<Component>): Book {
    if cs == [] then b
    else
      var before := RollToBlend(b, into, cs[..|cs| - 1]);
      var share := RolledShare(before, cs[|cs| - 1]);
      if share <= 0 then before else Record(before, into, TransferIn, share)
  }

  function BlendName(t: Trial): Variety {
    if t.chosen.Some? then t.chosen.value else "Blend"
  }

  function Finalize(b: Book, k: nat): Option<Book> {
    if k >= |b.trials| || b.trials[k].state != Draft || !Enough(b, b.trials[k].components) then None
    else
      var t, into := b.trials[k], |b.lots|;
      var deducted := DeductAll(NewLot(b, Lot(BlendName(t), t.total, InProgress)), t.components);
      if deducted.None? then None
      else
        DeductKeepsRest(NewLot(b, Lot(BlendName(t), t.total, InProgress)), t.components);
        var marked := deducted.value.(trials := deducted.value.trials[k := t.(state := Finalized(into))]);
        Some(RollToBlend(Logged(marked, BlendFinalized(into, k, t.total)), into, t.components))
  }

  lemma {:induction false} DeductKeepsRest(b: Book, cs: seq<Component>)
    ensures DeductAll(b, cs).Some? ==>
              var c := DeductAll(b, cs).value;
              c == b.(lots := c.lots, log := c.log) && |c.lots| == |b.lots|
  {
    if cs != [] {
      DeductKeepsRest(b, cs[..|cs| - 1]);
    }
  }

  // ---------- BottlingService ----------

  /** PHP's intdiv. */
  function IntDiv(a: int, b: int): int
    requires b != 0
  {
    if b > 0 then TruncDiv(a, b) else TruncDiv(-a, -b)
  }

  function CreateRun(b: Book, l: nat, volume: int, bottles: int, perCase: Option<int>,
                     packaging: seq<Packaging>): Option<Book> {
    var size := if perCase.Some? then perCase.value else 12;
    if l >= |b.lots| || size == 0 then None
    else Some(b.(runs := b.runs + [Run(l, volume, bottles, size, packaging, IntDiv(bottles, size), false)]))
  }

  /** Linked dry goods may go below zero; an unknown item is skipped. */
  function Deduct1(b: Book, p: Packaging): Book {
    if p.linked.None? || p.linked.value >= |b.goods| then b
    else
      var i := p.linked.value;
      var before := b.goods[i].onHand;
      var after := before - 100 * p.quantity;
      b.(goods := b.goods[i := b.goods[i].(onHand := after)],
         log := b.log + [DryGoodsDeducted(i, 100 * p.quantity, before, after)])
  }

  function DeductPackaging(b: Book, ps: seq<Packaging>): Book {
    if ps == [] then b else Deduct1(DeductPackaging(b, ps[..|ps| - 1]), ps[|ps| - 1])
  }

  function MarkBottled(b: Book, l: nat): Book
    requires l < |b.lots|
  {
    if b.lots[l].volume <= 0 then
      b.(lots := b.lots[l := b.lots[l].(status := Bottled)], log := b.log + [StatusChanged(l, InProgress, Bottled)])
    else b
  }

  /** Draw the volume from the lot, close the run, mark an emptied lot, and write
      the bottling_completed event. */
  function CloseRun(b: Book, k: nat): (c: Option<Book>)
    ensures c.Some? ==> k < |b.runs| && b.runs[k].lot < |b.lots|
  {
    if k >= |b.runs| || b.runs[k].completed then None
    else
      var r := b.runs[k];
      var drawn := Adjust(b, r.lot, -r.volume);
      if drawn.None? || r.perCase == 0 then None
      else
        var cases, left := IntDiv(r.bottles, r.perCase), drawn.value.lots[r.lot].volume;
        var done := drawn.value.(runs := b.runs[k := r.(completed := true, cases := cases)]);
        Some(Logged(MarkBottled(done, r.lot),
                    BottlingCompleted(r.lot, k, r.volume, b.lots[r.lot].volume, left, cases)))
  }

  /** The first SKU of the lot or of the run, or the number of SKUs. */
  function FindSku(skus: seq<SkuCard>, l: nat, k: nat): (i: nat)
    ensures i <= |skus|
    ensures i < |skus| ==> skus[i].lot == Some(l) || skus[i].run == Some(k)
    ensures forall j | 0 <= j < i :: skus[j].lot != Some(l) && skus[j].run != Some(k)
  {
    if skus == [] || skus[0].lot == Some(l) || skus[0].run == Some(k) then 0 else 1 + FindSku(skus[1..], l, k)
  }

  /** The price per bottle goes to one SKU, if there is a price and a SKU; the column
      rounds it to cents. */
  function Priced(skus: seq<SkuCard>, l: nat, k: nat, price: Option<int>): seq<SkuCard> {
    var i := FindSku(skus, l, k);
    if price.None? || i == |skus| then skus else skus[i := skus[i].(costPerBottle := Some(RoundDiv(price.value, 100)))]
  }

  function Snapshot(b: Book, k: nat): Cogs
    requires k < |b.runs|
  {
    var r := b.runs[k];
    CogsOf(b.costs, r.lot, b.goods, r.packaging, r.bottles, r.perCase, r.volume)
  }

  function Complete(b: Book, k: nat): (c: Option<Book>)
    ensures c.Some? ==> k < |b.runs| && CloseRun(b, k).Some?
  {
    var closed := CloseRun(b, k);
    if closed.None? then None
    else
      var r, packed := b.runs[k], DeductPackaging(closed.value, b.runs[k].packaging);
      var cogs := CogsOf(packed.costs, r.lot, packed.goods, r.packaging, r.bottles, r.perCase, r.volume);
      var priced := packed.(skus := Priced(packed.skus, r.lot, k, cogs.costPerBottle));
      Some(Logged(priced, CogsCalculated(r.lot, k, cogs)))
  }

  // ---------- Operations and runs ----------

  datatype Op =
    | CreateLotOp(lot: Lot)
    | AdjustOp(l: nat, delta: int)
    | UpdateOp(l: nat, newVolume: Option<int>, newStatus: Option<LotStatus>)
    | CostOp(l: nat, ty: CostType, amount: int)
    | SplitOp(l: nat, ws: seq<int>)
    | TrialOp(cs: seq<Component>)
    | FinalizeOp(k: nat)
    | RunOp(l: nat, volume: int, bottles: int, perCase: Option<int>, packaging: seq<Packaging>)
    | CompleteOp(k: nat)

  function Attempt(b: Book, op: Op): Option<Book> {
    match op
    case CreateLotOp(lot) => Some(NewLot(b, lot))
    case AdjustOp(l, delta) => Adjust(b, l, delta)
    case UpdateOp(l, v, s) => Update(b, l, v, s)
    case CostOp(l, ty, amount) => if l < |b.lots| then Some(Record(b, l, ty, amount)) else None
    case SplitOp(l, ws) => Split(b, l, ws)
    case TrialOp(cs) => CreateTrial(b, cs)
    case FinalizeOp(k) => Finalize(b, k)
    case RunOp(l, volume, bottles, perCase, packaging) => CreateRun(b, l, volume, bottles, perCase, packaging)
    case CompleteOp(k) => Complete(b, k)
  }

  /** A rejected operation leaves everything as it was. */
  function Apply(b: Book, op: Op): Book {
    var r := Attempt(b, op);
    if r.Some? then r.value else b
  }

  function RunAll(b: Book, ops: seq<Op>): Book {
    if ops == [] then b else Apply(RunAll(b, ops[..|ops| - 1]), ops[|ops| - 1])
  }
}
