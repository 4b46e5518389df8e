/** LabThresholdChecker: which threshold applies to an analysis at each alert level,
    and which levels alert. Values are whole units of 10^-6. */
module Thresholds {
  import opened Options

  datatype Level = Warning | Critical | OtherLevel(name: string)

  datatype Threshold = Threshold(id: nat, testType: string, variety: Option<string>,
                                 min: Option<int>, max: Option<int>, level: Level)

  datatype Violation = TooHigh(max: int) | TooLow(min: int)

  datatype Alert = Alert(level: Level, threshold: nat, violation: Violation)

  /** The query scope: the test type's thresholds, global or for the variety. */
  predicate Applicable(t: Threshold, testType: string, variety: Option<string>) {
    t.testType == testType && (t.variety.None? || (variety.Some? && t.variety == variety))
  }

  function Where(all: seq<Threshold>, testType: string, variety: Option<string>, specific: bool): (ts: seq<Threshold>)
    ensures forall t :: t in ts <==> t in all && Applicable(t, testType, variety) && t.variety.Some? == specific
  {
    if all == [] then []
    else
      (if Applicable(all[0], testType, variety) && all[0].variety.Some? == specific then [all[0]] else [])
      + Where(all[1..], testType, variety, specific)
  }

  /** The query: the variety's own thresholds first, then the global ones. */
  function Query(all: seq<Threshold>, testType: string, variety: Option<string>): seq<Threshold> {
    Where(all, testType, variety, true) + Where(all, testType, variety, false)
  }

  /** The query finds the thresholds of the test type that are global or for the lot's
      variety, those for the variety first. */
  lemma QueryExact(all: seq<Threshold>, testType: string, variety: Option<string>, t: Threshold)
    ensures t in Query(all, testType, variety) <==>
              t in all && t.testType == testType && (t.variety == None || (t.variety == variety && variety != None))
    ensures var found := Query(all, testType, variety);
            forall i, j | 0 <= i < j < |found| && found[j].variety.Some? :: found[i].variety.Some?
  {
    var a, b := Where(all, testType, variety, true), Where(all, testType, variety, false);
    hide Where;
    forall j | 0 <= j < |b| ensures b[j].variety.None? {
      assert b[j] in b;
    }
    forall i | 0 <= i < |a| ensures a[i].variety.Some? {
      assert a[i] in a;
    }
    assert t in a + b <==> t in a || t in b;
  }

  predicate Specific(t: Threshold, level: Level) { t.level == level && t.variety.Some? }

  /** Position of the first threshold of a level, variety-specific only or any. */
  function First(ts: seq<Threshold>, level: Level, specific: bool): (i: nat)
    ensures i <= |ts|
    ensures i < |ts| ==> ts[i].level == level && (specific ==> ts[i].variety.Some?)
    ensures forall j | 0 <= j < i :: !(ts[j].level == level && (specific ==> ts[j].variety.Some?))
  {
    if ts == [] || (ts[0].level == level && (specific ==> ts[0].variety.Some?)) then 0
    else 1 + First(ts[1..], level, specific)
  }

  /** The threshold that counts at a level: the first variety-specific one if there
      is one, otherwise the first global one. */
  function Effective(ts: seq<Threshold>, level: Level): Option<Threshold> {
    var i, j := First(ts, level, true), First(ts, level, false);
    if i < |ts| then Some(ts[i]) else if j < |ts| then Some(ts[j]) else None
  }

  predicate Fits(t: Threshold, level: Level, specific: bool) {
    t.level == level && (specific ==> t.variety.Some?)
  }

  lemma FirstIs(ts: seq<Threshold>, level: Level, specific: bool, k: nat)
    requires k <= |ts| && (k < |ts| ==> Fits(ts[k], level, specific))
    requires forall j | 0 <= j < k :: !Fits(ts[j], level, specific)
    ensures First(ts, level, specific) == k
  {
    var i := First(ts, level, specific);
    assert i < |ts| ==> Fits(ts[i], level, specific);
    assert k < |ts| ==> ts[k].level == level && (specific ==> ts[k].variety.Some?);
    hide First, Fits;
  }

  lemma FirstStep(front: seq<Threshold>, t: Threshold, level: Level, specific: bool)
    ensures First(front + [t], level, specific) ==
              if First(front, level, specific) < |front| then First(front, level, specific)
              else if Fits(t, level, specific) then |front|
              else |front| + 1
  {
    var ts, i := front + [t], First(front, level, specific);
    assert forall j | 0 <= j < i :: !Fits(front[j], level, specific);
    assert i < |front| ==> Fits(front[i], level, specific);
    assert ts[|front|] == t && forall j | 0 <= j < |front| :: ts[j] == front[j];
    hide First, Fits;
    FirstIs(ts, level, specific,
            if i < |front| then i else if Fits(t, level, specific) then |front| else |front| + 1);
  }

  /** What one more threshold changes: the first of its level, and the first
      variety-specific one after global ones, take effect. */
  lemma EffectiveStep(front: seq<Threshold>, t: Threshold, level: Level)
    ensures Effective(front + [t], level) ==
              var e := Effective(front, level);
              if t.level != level || (e.Some? && (e.value.variety.Some? || t.variety.None?)) then e else Some(t)
  {
    hide First;
    FirstStep(front, t, level, true);
    FirstStep(front, t, level, false);
    var ts := front + [t];
    assert ts[|front|] == t && forall j | 0 <= j < |front| :: ts[j] == front[j];
  }

  function Evaluate(value: int, t: Threshold): Option<Violation> {
    if t.max.Some? && value > t.max.value then Some(TooHigh(t.max.value))
    else if t.min.Some? && value < t.min.value then Some(TooLow(t.min.value))
    else None
  }

  /** Above the maximum is too high; otherwise below the minimum is too low. */
  lemma ViolationTells(value: int, t: Threshold, bound: int)
    ensures Evaluate(value, t) == Some(TooHigh(bound)) <==> t.max == Some(bound) && bound < value
    ensures Evaluate(value, t) == Some(TooLow(bound)) <==>
              t.min == Some(bound) && value < bound && (t.max.Some? ==> value <= t.max.value)
    ensures Evaluate(value, t) == None <==> !Outside(value, t)
  {
  }

  predicate Outside(value: int, t: Threshold) {
    (t.max.Some? && value > t.max.value) || (t.min.Some? && value < t.min.value)
  }

  /** The entries collected so far: levels in order of first appearance, and the
      threshold held for each. */
  ghost predicate Resolved(order: seq<Level>, held: map<Level, Threshold>, ts: seq<Threshold>) {
    && (forall i, j | 0 <= i < j < |order| :: order[i] != order[j])
    && (forall level :: level in order <==> level in held)
    && (forall level ::
          if level in held then Effective(ts, level) == Some(held[level]) else Effective(ts, level) == None)
  }

  /** One round of the loop. */
  function Hold(held: map<Level, Threshold>, t: Threshold): map<Level, Threshold> {
    if t.level in held && held[t.level].variety.Some? then held
    else if t.variety.Some? || t.level !in held then held[t.level := t]
    else held
  }

  lemma HoldStep(order: seq<Level>, held: map<Level, Threshold>, front: seq<Threshold>, t: Threshold)
    requires Resolved(order, held, front)
    ensures Resolved(if t.level in held then order else order + [t.level], Hold(held, t), front + [t])
  {
    hide Effective;
    var next := Hold(held, t);
    forall level
      ensures if level in next then Effective(front + [t], level) == Some(next[level])
              else Effective(front + [t], level) == None
    {
      EffectiveStep(front, t, level);
    }
  }

  function Listed(order: seq<Level>, held: map<Level, Threshold>): seq<Threshold>
    requires forall k | 0 <= k < |order| :: order[k] in held
  {
    seq(|order|, k requires 0 <= k < |order| => held[order[k]])
  }

  /** One threshold per level, namely the one that counts, and none missing. */
  ghost predicate Complete(effective: seq<Threshold>, ts: seq<Threshold>) {
    && (forall i, j | 0 <= i < j < |effective| :: effective[i].level != effective[j].level)
    && (forall i | 0 <= i < |effective| :: Effective(ts, effective[i].level) == Some(effective[i]))
    && (forall level | Effective(ts, level).Some? :: Effective(ts, level).value in effective)
  }

  lemma ListedComplete(order: seq<Level>, held: map<Level, Threshold>, ts: seq<Threshold>)
    requires Resolved(order, held, ts)
    ensures forall k | 0 <= k < |order| :: order[k] in held
    ensures Complete(Listed(order, held), ts)
  {
    hide Effective;
    forall k | 0 <= k < |order| ensures order[k] in held {
      assert order[k] in order;
    }
    var effective := Listed(order, held);
    forall k | 0 <= k < |order|
      ensures Effective(ts, order[k]) == Some(effective[k]) && effective[k].level == order[k]
    {
      EffectiveLevel(ts, order[k]);
    }
    forall level | Effective(ts, level).Some? ensures Effective(ts, level).value in effective {
      assert level in held;
      var k :| 0 <= k < |order| && order[k] == level;
      assert effective[k] == Effective(ts, level).value;
    }
  }

  lemma NothingHeld()
    ensures Resolved([], map[], [])
  {
  }

  /** The loop of resolveEffectiveThresholds: exactly one threshold per level that
      occurs, in whatever order the list comes. */
  method ResolveEffective(ts: seq<Threshold>) returns (effective: seq<Threshold>)
    ensures Complete(effective, ts)
  {
    hide *;
    var order: seq<Level>, held: map<Level, Threshold> := [], map[];
    NothingHeld();
    var i := 0;
    while i < |ts|
      invariant 0 <= i <= |ts| && Resolved(order, held, ts[..i])
    {
      HoldStep(order, held, ts[..i], ts[i]);
      assert ts[..i + 1] == ts[..i] + [ts[i]];
      var t := ts[i];
      if t.level !in held {
        order := order + [t.level];
      }
      held := Hold(held, t);
      i := i + 1;
    }
    assert ts[..i] == ts;
    ListedComplete(order, held, ts);
    effective := Listed(order, held);
  }

  function AlertOf(value: int, t: Threshold): seq<Alert> {
    var v := Evaluate(value, t);
    if v.Some? then [Alert(t.level, t.id, v.value)] else []
  }

  function AlertsOf(value: int, ts: seq<Threshold>): seq<Alert> {
    if ts == [] then [] else AlertsOf(value, ts[..|ts| - 1]) + AlertOf(value, ts[|ts| - 1])
  }

  /** The alert a value raises at its level, if the threshold that counts there
      is violated. */
  predicate Raised(value: int, ts: seq<Threshold>, a: Alert) {
    var e := Effective(ts, a.level);
    e.Some? && Outside(value, e.value) && a.threshold == e.value.id && Evaluate(value, e.value) == Some(a.violation)
  }

  /** The query and the loop of check: the alerts raised, each level at most once. */
  method Check(value: int, all: seq<Threshold>, testType: string, variety: Option<string>) returns (alerts: seq<Alert>)
    ensures forall a :: a in alerts <==> Raised(value, Query(all, testType, variety), a)
    ensures forall i, j | 0 <= i < j < |alerts| :: alerts[i].level != alerts[j].level
  {
    hide *;
    alerts := [];
    var ts := Query(all, testType, variety);
    if ts == [] {
      NothingRaised(value);
      return;
    }
    var effective := ResolveEffective(ts);
    NoAlerts(value);
    var n := 0;
    while n < |effective|
      invariant 0 <= n <= |effective| && alerts == AlertsOf(value, effective[..n])
    {
      AlertsOneMore(value, effective, n);
      var violation := Evaluate(value, effective[n]);
      if violation.Some? {
        alerts := alerts + [Alert(effective[n].level, effective[n].id, violation.value)];
      }
      n := n + 1;
    }
    assert effective[..n] == effective;
    AlertsDistinct(value, effective, ts);
    forall a ensures a in alerts <==> Raised(value, ts, a) {
      AlertsExact(value, ts, effective, a);
    }
  }

  lemma NothingRaised(value: int)
    ensures forall a :: !Raised(value, [], a)
  {
  }

  lemma NoAlerts(value: int)
    ensures AlertsOf(value, []) == []
  {
  }

  lemma AlertsOneMore(value: int, ts: seq<Threshold>, n: nat)
    requires n < |ts|
    ensures var v := Evaluate(value, ts[n]);
            AlertsOf(value, ts[..n + 1]) ==
              AlertsOf(value, ts[..n]) + (if v.Some? then [Alert(ts[n].level, ts[n].id, v.value)] else [])
  {
    assert ts[..n + 1][..n] == ts[..n];
  }

  lemma {:induction false} AlertsOnce(value: int, ts: seq<Threshold>)
    requires forall i, j | 0 <= i < j < |ts| :: ts[i].level != ts[j].level
    ensures var alerts := AlertsOf(value, ts);
            forall i, j | 0 <= i < j < |alerts| :: alerts[i].level != alerts[j].level
  {
    if ts != [] {
      var n := |ts| - 1;
      var front := AlertsOf(value, ts[..n]);
      AlertsOnce(value, ts[..n]);
      forall i | 0 <= i < |front|
        ensures front[i].level != ts[n].level
      {
        AlertsFrom(value, ts[..n], front[i]);
        var k :| 0 <= k < n && ts[..n][k].level == front[i].level;
        assert ts[k].level == front[i].level;
      }
    }
  }

  lemma AlertsDistinct(value: int, effective: seq<Threshold>, ts: seq<Threshold>)
    requires Complete(effective, ts)
    ensures var alerts := AlertsOf(value, effective);
            forall i, j | 0 <= i < j < |alerts| :: alerts[i].level != alerts[j].level
  {
    AlertsOnce(value, effective);
  }

  predicate RaisedBy(value: int, t: Threshold, a: Alert) {
    Evaluate(value, t) == Some(a.violation) && a == Alert(t.level, t.id, a.violation)
  }

  lemma {:induction false} AlertsFrom(value: int, ts: seq<Threshold>, a: Alert)
    ensures a in AlertsOf(value, ts) <==>
              exists k :: 0 <= k < |ts| && RaisedBy(value, ts[k], a)
  {
    if ts != [] {
      var n := |ts| - 1;
      AlertsFrom(value, ts[..n], a);
      if k :| 0 <= k < |ts| && RaisedBy(value, ts[k], a) {
        if k < n {
          assert ts[..n][k] == ts[k];
        }
      }
      if k :| 0 <= k < n && RaisedBy(value, ts[..n][k], a) {
        assert ts[k] == ts[..n][k];
      }
    }
  }

  /** A level alerts exactly when it has a threshold that counts and the value lies
      outside that threshold's bounds; the alert names that threshold. */
  lemma AlertsExact(value: int, ts: seq<Threshold>, effective: seq<Threshold>, a: Alert)
    requires Complete(effective, ts)
    ensures a in AlertsOf(value, effective) <==> Raised(value, ts, a)
  {
    hide First;
    AlertsFrom(value, effective, a);
    if Effective(ts, a.level).Some? {
      EffectiveLevel(ts, a.level);
      var k :| 0 <= k < |effective| && effective[k] == Effective(ts, a.level).value;
    }
  }

  /** So the levels that alert are those whose counting threshold is violated. */
  lemma LevelAlerts(value: int, ts: seq<Threshold>, effective: seq<Threshold>, level: Level)
    requires Complete(effective, ts)
    ensures (exists a :: a in AlertsOf(value, effective) && a.level == level) <==>
              Effective(ts, level).Some? && Outside(value, Effective(ts, level).value)
  {
    hide Effective, AlertsOf, Complete;
    if a :| a in AlertsOf(value, effective) && a.level == level {
      AlertsExact(value, ts, effective, a);
    }
    if Effective(ts, level).Some? && Outside(value, Effective(ts, level).value) {
      var e := Effective(ts, level).value;
      var a := Alert(level, e.id, Evaluate(value, e).value);
      AlertsExact(value, ts, effective, a);
      assert a.level == level;
    }
  }

  lemma EffectiveLevel(ts: seq<Threshold>, level: Level)
    requires Effective(ts, level).Some?
    ensures Effective(ts, level).value.level == level
  {
  }

  // ---------- Order and precedence ----------

  /** A variety-specific threshold in the list is never overruled by a global one. */
  lemma SpecificWins(ts: seq<Threshold>, level: Level)
    ensures (exists i :: 0 <= i < |ts| && Specific(ts[i], level)) <==>
              (Effective(ts, level).Some? && Effective(ts, level).value.variety.Some?)
    ensures (exists i :: 0 <= i < |ts| && ts[i].level == level) <==> Effective(ts, level).Some?
  {
    var i, j := First(ts, level, true), First(ts, level, false);
    if i < |ts| {
      assert Specific(ts[i], level);
    } else if j < |ts| {
      assert !Specific(ts[j], level);
    }
  }

  /** At most one threshold per level and scope. */
  predicate NoRivals(ts: seq<Threshold>) {
    forall i, j | 0 <= i < |ts| && 0 <= j < |ts| && ts[i].level == ts[j].level
                  && ts[i].variety.Some? == ts[j].variety.Some? :: ts[i] == ts[j]
  }

  /** Without rivals the order in which the query returns the rows is irrelevant. */
  lemma OrderIrrelevant(ts: seq<Threshold>, us: seq<Threshold>, level: Level)
    requires NoRivals(ts) && multiset(ts) == multiset(us)
    ensures Effective(us, level) == Effective(ts, level)
  {
    forall t ensures t in ts <==> t in us {
      assert t in ts <==> t in multiset(ts);
      assert t in us <==> t in multiset(us);
    }
    var i, j := First(ts, level, true), First(us, level, true);
    var m, n := First(ts, level, false), First(us, level, false);
    if i < |ts| {
      assert ts[i] in us;
    }
    if j < |us| {
      assert us[j] in ts;
    }
    if m < |ts| {
      assert ts[m] in us;
    }
    if n < |us| {
      assert us[n] in ts;
    }
  }
}
