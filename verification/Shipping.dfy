/** DTCComplianceService: the yearly shipping caps per customer and state. Cases are
    whole units of 10^-2, gallons of 10^-1, as the columns store them. */
module Shipping {
  import opened Sums
  import opened Options

  type Customer = nat
  type State = string

  datatype Rule = Rule(allowsShipping: bool, caseLimit: Option<nat>, gallonLimit: Option<int>)

  /** A point in time: a year and a position inside it. */
  datatype Moment = Moment(year: int, tick: nat)

  datatype Shipment = Shipment(customer: Customer, state: State, cases: int, gallons: int, at: Moment)

  datatype Reason = NoRule | Prohibited | CaseLimit | GallonLimit | Fine

  datatype Verdict = Verdict(reason: Reason, annualCases: int, annualGallons: int)

  predicate NotAfter(a: Moment, b: Moment) {
    a.year < b.year || (a.year == b.year && a.tick <= b.tick)
  }

  // ---------- Totals ----------

  /** What the queries add up: everything since the start of a year. */
  function CasesSince(c: Customer, st: State, year: int): Shipment -> int {
    (s: Shipment) => if s.customer == c && s.state == st && s.at.year >= year then s.cases else 0
  }

  function GallonsSince(c: Customer, st: State, year: int): Shipment -> int {
    (s: Shipment) => if s.customer == c && s.state == st && s.at.year >= year then s.gallons else 0
  }

  /** What the law caps: everything inside one calendar year. */
  function CasesIn(c: Customer, st: State, year: int): Shipment -> int {
    (s: Shipment) => if s.customer == c && s.state == st && s.at.year == year then s.cases else 0
  }

  function GallonsIn(c: Customer, st: State, year: int): Shipment -> int {
    (s: Shipment) => if s.customer == c && s.state == st && s.at.year == year then s.gallons else 0
  }

  function YearCases(ships: seq<Shipment>, c: Customer, st: State, year: int): int {
    SumBy(CasesIn(c, st, year), ships)
  }

  function YearGallons(ships: seq<Shipment>, c: Customer, st: State, year: int): int {
    SumBy(GallonsIn(c, st, year), ships)
  }

  // ---------- The check ----------

  function Check(rules: map<State, Rule>, ships: seq<Shipment>, now: Moment, c: Customer, st: State, cases: int,
                 gallons: int): Verdict {
    if st !in rules then Verdict(NoRule, 0, 0)
    else if !rules[st].allowsShipping then Verdict(Prohibited, 0, 0)
    else
      var shippedCases := SumBy(CasesSince(c, st, now.year), ships);
      var shippedGallons := SumBy(GallonsSince(c, st, now.year), ships);
      var r := rules[st];
      if r.caseLimit.Some? && shippedCases + cases > 100 * r.caseLimit.value then
        Verdict(CaseLimit, shippedCases, shippedGallons)
      else if r.gallonLimit.Some? && shippedGallons + gallons > r.gallonLimit.value then
        Verdict(GallonLimit, shippedCases, shippedGallons)
      else Verdict(Fine, shippedCases, shippedGallons)
  }

  // ---------- The cap ----------

  /** A yearly total respects the rule of its state; without a permission the
      total is zero. */
  predicate Within(rules: map<State, Rule>, st: State, cases: int, gallons: int) {
    if st !in rules || !rules[st].allowsShipping then cases == 0 && gallons == 0
    else
      && (rules[st].caseLimit.Some? ==> cases <= 100 * rules[st].caseLimit.value)
      && (rules[st].gallonLimit.Some? ==> gallons <= rules[st].gallonLimit.value)
  }

  ghost predicate Capped(rules: map<State, Rule>, ships: seq<Shipment>) {
    forall c, st, y :: Within(rules, st, YearCases(ships, c, st, y), YearGallons(ships, c, st, y))
  }

  predicate NoLaterThan(ships: seq<Shipment>, now: Moment) {
    forall i | 0 <= i < |ships| :: ships[i].at.year <= now.year && 0 <= ships[i].cases && 0 <= ships[i].gallons
  }

  lemma SinceIsIn(ships: seq<Shipment>, now: Moment, c: Customer, st: State)
    requires NoLaterThan(ships, now)
    ensures SumBy(CasesSince(c, st, now.year), ships) == YearCases(ships, c, st, now.year)
    ensures SumBy(GallonsSince(c, st, now.year), ships) == YearGallons(ships, c, st, now.year)
    ensures 0 <= YearCases(ships, c, st, now.year) && 0 <= YearGallons(ships, c, st, now.year)
  {
    SumAgree(CasesSince(c, st, now.year), CasesIn(c, st, now.year), ships);
    SumAgree(GallonsSince(c, st, now.year), GallonsIn(c, st, now.year), ships);
    NotNegative(CasesIn(c, st, now.year), ships);
    NotNegative(GallonsIn(c, st, now.year), ships);
  }

  lemma {:induction false} NotNegative(f: Shipment -> int, ships: seq<Shipment>)
    requires forall i | 0 <= i < |ships| :: 0 <= f(ships[i])
    ensures 0 <= SumBy(f, ships)
  {
    if ships != [] {
      NotNegative(f, ships[..|ships| - 1]);
    }
  }

  lemma NothingYet(ships: seq<Shipment>, now: Moment, year: int, c: Customer, st: State)
    requires NoLaterThan(ships, now) && now.year < year
    ensures YearCases(ships, c, st, year) == 0 && YearGallons(ships, c, st, year) == 0
  {
    SumBounds(CasesIn(c, st, year), ships, 0, 0);
    SumBounds(GallonsIn(c, st, year), ships, 0, 0);
  }

  lemma OneMore(ships: seq<Shipment>, s: Shipment)
    ensures forall c, st, y ::
              YearCases(ships + [s], c, st, y) == YearCases(ships, c, st, y) + CasesIn(c, st, y)(s)
    ensures forall c, st, y ::
              YearGallons(ships + [s], c, st, y) == YearGallons(ships, c, st, y) + GallonsIn(c, st, y)(s)
  {
    forall c, st, y ensures YearCases(ships + [s], c, st, y) == YearCases(ships, c, st, y) + CasesIn(c, st, y)(s) {
      SumPush(CasesIn(c, st, y), ships, s);
    }
    forall c, st, y
      ensures YearGallons(ships + [s], c, st, y) == YearGallons(ships, c, st, y) + GallonsIn(c, st, y)(s)
    {
      SumPush(GallonsIn(c, st, y), ships, s);
    }
  }

  /** What the check answers, case by case: the four refusals, each with its own reason
      and in this order, and the totals shipped this year that it reports. */
  lemma CheckExactly(rules: map<State, Rule>, ships: seq<Shipment>, now: Moment, c: Customer, st: State,
                     cases: int, gallons: int)
    requires NoLaterThan(ships, now)
    ensures var v := Check(rules, ships, now, c, st, cases, gallons);
            var shipped, poured := YearCases(ships, c, st, now.year), YearGallons(ships, c, st, now.year);
            && (v.reason == NoRule <==> st !in rules)
            && (v.reason == Prohibited <==> st in rules && !rules[st].allowsShipping)
            && (v.reason == NoRule || v.reason == Prohibited ==> v.annualCases == 0 && v.annualGallons == 0)
            && (st in rules && rules[st].allowsShipping ==>
                  && v.annualCases == shipped && v.annualGallons == poured
                  && var overCases := rules[st].caseLimit.Some? && 100 * rules[st].caseLimit.value < shipped + cases;
                     var overGallons := rules[st].gallonLimit.Some? && rules[st].gallonLimit.value < poured + gallons;
                     && (v.reason == CaseLimit <==> overCases)
                     && (v.reason == GallonLimit <==> !overCases && overGallons)
                     && (v.reason == Fine <==> !overCases && !overGallons))
  {
    SinceIsIn(ships, now, c, st);
    hide YearCases, YearGallons, SumBy;
  }

  /** A shipment does not touch the totals of another customer, state or year. */
  lemma OtherKeyUnmoved(rules: map<State, Rule>, ships: seq<Shipment>, s: Shipment, c: Customer, st: State, y: int)
    requires Capped(rules, ships) && (c != s.customer || st != s.state || y != s.at.year)
    ensures Within(rules, st, YearCases(ships + [s], c, st, y), YearGallons(ships + [s], c, st, y))
  {
    OneMore(ships, s);
    assert Within(rules, st, YearCases(ships, c, st, y), YearGallons(ships, c, st, y));
  }

  lemma AllWithin(rules: map<State, Rule>, ships: seq<Shipment>)
    requires forall c, st, y :: Within(rules, st, YearCases(ships, c, st, y), YearGallons(ships, c, st, y))
    ensures Capped(rules, ships)
  {
  }

  /** The check's verdict against the yearly totals with the shipment added. */
  lemma VerdictIsWithin(rules: map<State, Rule>, ships: seq<Shipment>, s: Shipment)
    requires NoLaterThan(ships, s.at) && 0 <= s.cases && 0 <= s.gallons
    requires Within(rules, s.state, YearCases(ships, s.customer, s.state, s.at.year),
                    YearGallons(ships, s.customer, s.state, s.at.year))
    ensures var v := Check(rules, ships, s.at, s.customer, s.state, s.cases, s.gallons);
            (|| v.reason == Fine
             || ((v.reason == NoRule || v.reason == Prohibited) && s.cases == 0 && s.gallons == 0)) <==>
              Within(rules, s.state, YearCases(ships, s.customer, s.state, s.at.year) + s.cases,
                     YearGallons(ships, s.customer, s.state, s.at.year) + s.gallons)
  {
    SinceIsIn(ships, s.at, s.customer, s.state);
    hide YearCases, YearGallons, SumBy;
  }

  lemma OwnKey(ships: seq<Shipment>, s: Shipment)
    ensures YearCases(ships + [s], s.customer, s.state, s.at.year) ==
              YearCases(ships, s.customer, s.state, s.at.year) + s.cases
    ensures YearGallons(ships + [s], s.customer, s.state, s.at.year) ==
              YearGallons(ships, s.customer, s.state, s.at.year) + s.gallons
  {
    OneMore(ships, s);
    hide YearCases, YearGallons;
  }

  lemma KeyWithin(rules: map<State, Rule>, ships: seq<Shipment>, c: Customer, st: State, y: int)
    requires Capped(rules, ships)
    ensures Within(rules, st, YearCases(ships, c, st, y), YearGallons(ships, c, st, y))
  {
  }

  /** Recording a shipment keeps every cap exactly when the check would allow it
      at that moment, or when it is an empty one to a state that permits none. */
  lemma RecordKeepsCap(rules: map<State, Rule>, ships: seq<Shipment>, s: Shipment)
    requires Capped(rules, ships) && NoLaterThan(ships, s.at) && 0 <= s.cases && 0 <= s.gallons
    ensures var v := Check(rules, ships, s.at, s.customer, s.state, s.cases, s.gallons);
            Capped(rules, ships + [s]) <==>
              (v.reason == Fine || ((v.reason == NoRule || v.reason == Prohibited) && s.cases == 0 && s.gallons == 0))
  {
    hide *;
    var c, st, y := s.customer, s.state, s.at.year;
    KeyWithin(rules, ships, c, st, y);
    VerdictIsWithin(rules, ships, s);
    OwnKey(ships, s);
    if Within(rules, st, YearCases(ships, c, st, y) + s.cases, YearGallons(ships, c, st, y) + s.gallons) {
      forall c', st', y'
        ensures Within(rules, st', YearCases(ships + [s], c', st', y'), YearGallons(ships + [s], c', st', y'))
      {
        if c' != c || st' != st || y' != y {
          OtherKeyUnmoved(rules, ships, s, c', st', y');
        }
      }
      AllWithin(rules, ships + [s]);
    } else if Capped(rules, ships + [s]) {
      KeyWithin(rules, ships + [s], c, st, y);
    }
  }

  // ---------- Runs ----------

  /** A shipment order: checked at one moment, recorded at a later one if allowed. */
  datatype Order = Order(customer: Customer, state: State, cases: int, gallons: int, checked: Moment, recorded: Moment)

  function Ship(rules: map<State, Rule>, ships: seq<Shipment>, o: Order): seq<Shipment> {
    if Check(rules, ships, o.checked, o.customer, o.state, o.cases, o.gallons).reason == Fine
    then ships + [Shipment(o.customer, o.state, o.cases, o.gallons, o.recorded)]
    else ships
  }

  function ShipAll(rules: map<State, Rule>, ships: seq<Shipment>, orders: seq<Order>): seq<Shipment> {
    if orders == [] then ships else Ship(rules, ShipAll(rules, ships, orders[..|orders| - 1]), orders[|orders| - 1])
  }

  /** When order `i` may be checked: after the order before it was recorded. */
  function Since(orders: seq<Order>, start: Moment, i: nat): Moment
    requires i <= |orders|
  {
    if i == 0 then start else orders[i - 1].recorded
  }

  predicate InTime(orders: seq<Order>, start: Moment, i: nat)
    requires i < |orders|
  {
    && 0 <= orders[i].cases && 0 <= orders[i].gallons
    && NotAfter(Since(orders, start, i), orders[i].checked) && NotAfter(orders[i].checked, orders[i].recorded)
  }

  /** Time never runs backwards along the orders. */
  predicate Forward(orders: seq<Order>, start: Moment) {
    forall i | 0 <= i < |orders| :: InTime(orders, start, i)
  }

  /** A record that directly follows its allowed check keeps the caps, even when
      the year turns between the two. */
  lemma ShipKeepsCap(rules: map<State, Rule>, ships: seq<Shipment>, o: Order, start: Moment)
    requires Capped(rules, ships) && NoLaterThan(ships, start)
    requires NotAfter(start, o.checked) && NotAfter(o.checked, o.recorded) && 0 <= o.cases && 0 <= o.gallons
    ensures Capped(rules, Ship(rules, ships, o)) && NoLaterThan(Ship(rules, ships, o), o.recorded)
  {
    var v := Check(rules, ships, o.checked, o.customer, o.state, o.cases, o.gallons);
    if v.reason == Fine {
      var s := Shipment(o.customer, o.state, o.cases, o.gallons, o.recorded);
      RecordKeepsCap(rules, ships, s);
      SinceIsIn(ships, o.checked, o.customer, o.state);
      SinceIsIn(ships, o.recorded, o.customer, o.state);
      if o.checked.year < o.recorded.year {
        NothingYet(ships, o.checked, o.recorded.year, o.customer, o.state);
      }
    }
  }

  /** Over every such run the caps hold for every customer, state and year, and
      states without permission receive nothing. */
  lemma {:induction false} RunKeepsCap(rules: map<State, Rule>, ships: seq<Shipment>, orders: seq<Order>, start: Moment)
    requires Capped(rules, ships) && NoLaterThan(ships, start) && Forward(orders, start)
    ensures Capped(rules, ShipAll(rules, ships, orders))
    ensures NoLaterThan(ShipAll(rules, ships, orders), Since(orders, start, |orders|))
  {
    if orders != [] {
      var n := |orders| - 1;
      forall i | 0 <= i < n ensures InTime(orders[..n], start, i) {
        assert InTime(orders, start, i);
      }
      RunKeepsCap(rules, ships, orders[..n], start);
      assert InTime(orders, start, n);
      ShipKeepsCap(rules, ShipAll(rules, ships, orders[..n]), orders[n], Since(orders, start, n));
    }
  }

  /** The cap rests on the order of calls: recordShipment itself tests nothing, so
      two allowed checks before two records exceed a limit of one case. */
  lemma TwoChecksExceed()
    ensures var rules: map<State, Rule> := map["CA" := Rule(true, Some(1), None)];
            var now := Moment(2026, 0);
            var s := Shipment(7, "CA", 100, 0, now);
            && Check(rules, [], now, 7, "CA", 100, 0).reason == Fine
            && !Capped(rules, [s, s])
  {
    var rules: map<State, Rule> := map["CA" := Rule(true, Some(1), None)];
    var s := Shipment(7, "CA", 100, 0, Moment(2026, 0));
    assert [s, s] == [s] + [s] && [s] == [] + [s];
    OneMore([], s);
    OneMore([s], s);
    assert YearCases([s, s], 7, "CA", 2026) == 200;
    assert !Within(rules, "CA", YearCases([s, s], 7, "CA", 2026), YearGallons([s, s], 7, "CA", 2026));
  }

  // ---------- The service ----------

  datatype Annual = Annual(cases: int, gallons: int)

  predicate ShippedTo(ships: seq<Shipment>, c: Customer, st: State, year: int) {
    exists i :: 0 <= i < |ships| && ships[i].customer == c && ships[i].state == st && ships[i].at.year >= year
  }

  class ComplianceService {
    const rules: map<State, Rule>
    var shipments: seq<Shipment>

    constructor (rules: map<State, Rule>)
      ensures this.rules == rules && shipments == []
    {
      this.rules, shipments := rules, [];
    }

    method CheckEligibility(now: Moment, c: Customer, st: State, cases: int, gallons: int) returns (v: Verdict)
      ensures v == Check(rules, shipments, now, c, st, cases, gallons)
    {
      if st !in rules {
        return Verdict(NoRule, 0, 0);
      }
      var r := rules[st];
      if !r.allowsShipping {
        return Verdict(Prohibited, 0, 0);
      }
      var shippedCases, shippedGallons := 0, 0;
      for i := 0 to |shipments|
        invariant shippedCases == SumBy(CasesSince(c, st, now.year), shipments[..i])
        invariant shippedGallons == SumBy(GallonsSince(c, st, now.year), shipments[..i])
      {
        SumStep(CasesSince(c, st, now.year), shipments, i);
        SumStep(GallonsSince(c, st, now.year), shipments, i);
        var s := shipments[i];
        if s.customer == c && s.state == st && s.at.year >= now.year {
          shippedCases, shippedGallons := shippedCases + s.cases, shippedGallons + s.gallons;
        }
      }
      assert shipments[..|shipments|] == shipments;
      if r.caseLimit.Some? && shippedCases + cases > 100 * r.caseLimit.value {
        return Verdict(CaseLimit, shippedCases, shippedGallons);
      }
      if r.gallonLimit.Some? && shippedGallons + gallons > r.gallonLimit.value {
        return Verdict(GallonLimit, shippedCases, shippedGallons);
      }
      return Verdict(Fine, shippedCases, shippedGallons);
    }

    method RecordShipment(now: Moment, c: Customer, st: State, cases: int, gallons: int)
      modifies this`shipments
      ensures shipments == old(shipments) + [Shipment(c, st, cases, gallons, now)]
    {
      shipments := shipments + [Shipment(c, st, cases, gallons, now)];
    }

    /** One entry per state shipped to this year, with the totals the check uses. */
    method GetCustomerAnnualSummary(now: Moment, c: Customer) returns (summary: map<State, Annual>)
      ensures forall st :: st in summary <==> ShippedTo(shipments, c, st, now.year)
      ensures forall st ::
                (if st in summary then summary[st] else Annual(0, 0)) ==
                Annual(SumBy(CasesSince(c, st, now.year), shipments), SumBy(GallonsSince(c, st, now.year), shipments))
    {
      summary := map[];
      var i := 0;
      while i < |shipments|
        invariant 0 <= i <= |shipments| && Summarizes(summary, shipments[..i], c, now.year)
      {
        SummaryStep(summary, shipments, i, c, now.year);
        var s := shipments[i];
        if s.customer == c && s.at.year >= now.year {
          summary := Added(summary, s);
        }
        i := i + 1;
      }
      assert shipments[..i] == shipments;
    }
  }

  ghost predicate Summarizes(summary: map<State, Annual>, ships: seq<Shipment>, c: Customer, year: int) {
    && (forall st :: st in summary <==> ShippedTo(ships, c, st, year))
    && (forall st ::
          (if st in summary then summary[st] else Annual(0, 0)) ==
          Annual(SumBy(CasesSince(c, st, year), ships), SumBy(GallonsSince(c, st, year), ships)))
  }

  function Added(summary: map<State, Annual>, s: Shipment): map<State, Annual> {
    var before := if s.state in summary then summary[s.state] else Annual(0, 0);
    summary[s.state := Annual(before.cases + s.cases, before.gallons + s.gallons)]
  }

  lemma ShippedStep(ships: seq<Shipment>, i: nat, c: Customer, st: State, year: int)
    requires i < |ships|
    ensures ShippedTo(ships[..i + 1], c, st, year) <==>
              ShippedTo(ships[..i], c, st, year)
              || (ships[i].customer == c && ships[i].state == st && ships[i].at.year >= year)
  {
    var short, long := ships[..i], ships[..i + 1];
    assert long[i] == ships[i] && forall j | 0 <= j < i :: long[j] == short[j];
    if ShippedTo(short, c, st, year) {
      var j :| 0 <= j < i && short[j].customer == c && short[j].state == st && short[j].at.year >= year;
      assert long[j].state == st;
    }
  }

  lemma SummaryStep(summary: map<State, Annual>, ships: seq<Shipment>, i: nat, c: Customer, year: int)
    requires i < |ships| && Summarizes(summary, ships[..i], c, year)
    ensures var s := ships[i];
            Summarizes(if s.customer == c && s.at.year >= year then Added(summary, s) else summary,
                       ships[..i + 1], c, year)
  {
    var s := ships[i];
    var next := if s.customer == c && s.at.year >= year then Added(summary, s) else summary;
    forall st ensures st in next <==> ShippedTo(ships[..i + 1], c, st, year) {
      ShippedStep(ships, i, c, st, year);
    }
    forall st
      ensures (if st in next then next[st] else Annual(0, 0)) ==
              Annual(SumBy(CasesSince(c, st, year), ships[..i + 1]), SumBy(GallonsSince(c, st, year), ships[..i + 1]))
    {
      SumStep(CasesSince(c, st, year), ships, i);
      SumStep(GallonsSince(c, st, year), ships, i);
    }
  }
}
