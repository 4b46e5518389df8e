/** The variety composition of a blend trial and the varietal label it may carry
    (75 per cent of one variety, section 4.23(b) of 27 CFR). Percentages are whole
    units of 10^-4 per cent, rounded as BlendService stores them. */
module VarietalLabel {
  import opened FixedPoint
  import opened Sums
  import opened Options

  type Variety = string

  datatype Part = Part(variety: Variety, volume: int)

  const HUNDRED := 1000000
  const THRESHOLD := 750000

  function PartVolume(p: Part): int { p.volume }

  function OfVariety(x: Variety): Part -> int {
    (p: Part) => if p.variety == x then p.volume else 0
  }

  function BlendVolume(parts: seq<Part>): int { SumBy(PartVolume, parts) }

  function VarietyVolume(parts: seq<Part>, x: Variety): int { SumBy(OfVariety(x), parts) }

  function Percent(volume: int, total: int): int {
    if total > 0 then RoundDiv(volume * HUNDRED, total) else 0
  }

  function PercentOf(parts: seq<Part>): Variety -> int {
    (x: Variety) => Percent(VarietyVolume(parts, x), BlendVolume(parts))
  }

  function VolumeOf(parts: seq<Part>): Variety -> int {
    (x: Variety) => VarietyVolume(parts, x)
  }

  /** The varieties in the order in which they first appear, as the array keys are. */
  function Names(parts: seq<Part>): (names: seq<Variety>)
    ensures forall i, j | 0 <= i < j < |names| :: names[i] != names[j]
    ensures forall x :: x in names <==> Occurs(parts, x)
  {
    if parts == [] then []
    else
      var front, last := parts[..|parts| - 1], parts[|parts| - 1].variety;
      OccursStep(front, parts[|parts| - 1]);
      assert parts == front + [parts[|parts| - 1]];
      if last in Names(front) then Names(front) else Names(front) + [last]
  }

  predicate Occurs(parts: seq<Part>, x: Variety) {
    exists i :: 0 <= i < |parts| && parts[i].variety == x
  }

  lemma OccursStep(front: seq<Part>, p: Part)
    ensures forall x :: Occurs(front + [p], x) <==> Occurs(front, x) || p.variety == x
  {
    var parts := front + [p];
    forall x
      ensures Occurs(parts, x) <==> Occurs(front, x) || p.variety == x
    {
      assert parts[|front|] == p;
      if Occurs(front, x) {
        var i :| 0 <= i < |front| && front[i].variety == x;
        assert parts[i].variety == x;
      }
    }
  }

  /** The first listed variety whose rounded percentage reaches the threshold. */
  function FirstLabel(parts: seq<Part>, names: seq<Variety>): Option<Variety> {
    if names == [] then None
    else if PercentOf(parts)(names[0]) >= THRESHOLD then Some(names[0])
    else FirstLabel(parts, names[1..])
  }

  function LabelOf(parts: seq<Part>): Option<Variety> {
    FirstLabel(parts, Names(parts))
  }

  lemma OnePartMore(front: seq<Part>, p: Part)
    ensures BlendVolume(front + [p]) == BlendVolume(front) + p.volume
    ensures forall x ::
              VarietyVolume(front + [p], x) == VarietyVolume(front, x) + (if x == p.variety then p.volume else 0)
    ensures Names(front + [p]) == if p.variety in Names(front) then Names(front) else Names(front) + [p.variety]
  {
    assert (front + [p])[..|front|] == front;
  }

  ghost predicate Tracks(volumes: map<Variety, int>, parts: seq<Part>) {
    forall x :: (x in volumes <==> Occurs(parts, x)) && (x in volumes ==> volumes[x] == VarietyVolume(parts, x))
  }

  function Counted(volumes: map<Variety, int>, p: Part): map<Variety, int> {
    volumes[p.variety := (if p.variety in volumes then volumes[p.variety] else 0) + p.volume]
  }

  lemma TracksStep(volumes: map<Variety, int>, front: seq<Part>, p: Part)
    requires Tracks(volumes, front)
    ensures Tracks(Counted(volumes, p), front + [p])
    ensures p.variety in volumes <==> p.variety in Names(front)
  {
    OccursStep(front, p);
    OnePartMore(front, p);
    if p.variety !in volumes {
      AbsentVariety(front, p.variety);
    }
  }

  lemma NothingYet()
    ensures BlendVolume([]) == 0 && Names([]) == [] && Tracks(map[], [])
  {
  }

  ghost predicate Accumulated(total: int, names: seq<Variety>, volumes: map<Variety, int>, parts: seq<Part>) {
    total == BlendVolume(parts) && names == Names(parts) && Tracks(volumes, parts)
  }

  lemma AccumulateStep(total: int, names: seq<Variety>, volumes: map<Variety, int>, front: seq<Part>, p: Part)
    requires Accumulated(total, names, volumes, front)
    ensures Accumulated(total + p.volume, if p.variety in volumes then names else names + [p.variety],
                        Counted(volumes, p), front + [p])
  {
    hide BlendVolume, Names, Tracks, Counted;
    OnePartMore(front, p);
    TracksStep(volumes, front, p);
  }

  /** The first loop of createTrial: the total and the volume per variety. */
  method Accumulate(parts: seq<Part>) returns (total: int, names: seq<Variety>, volumes: map<Variety, int>)
    ensures total == BlendVolume(parts) && names == Names(parts) && Tracks(volumes, parts)
  {
    hide BlendVolume, Names, Tracks, Counted;
    total, names, volumes := 0, [], map[];
    NothingYet();
    var i := 0;
    while i < |parts|
      invariant 0 <= i <= |parts|
      invariant Accumulated(total, names, volumes, parts[..i])
    {
      hide Accumulated;
      var p := parts[i];
      AccumulateStep(total, names, volumes, parts[..i], p);
      assert parts[..i + 1] == parts[..i] + [p];
      total := total + p.volume;
      if p.variety !in volumes {
        names := names + [p.variety];
      }
      volumes := Counted(volumes, p);
      i := i + 1;
    }
    assert parts[..i] == parts;
  }

  /** The other two loops: the rounded composition and the first variety in it
      that reaches the threshold. */
  method Compose(parts: seq<Part>) returns (total: int, composition: map<Variety, int>, chosen: Option<Variety>)
    ensures total == BlendVolume(parts)
    ensures forall x :: x in composition <==> Occurs(parts, x)
    ensures forall x | x in composition :: composition[x] == PercentOf(parts)(x)
    ensures chosen == LabelOf(parts)
  {
    hide Names, VarietyVolume, BlendVolume, Percent;
    var names, volumes;
    total, names, volumes := Accumulate(parts);
    composition := map x | x in volumes :: Percent(volumes[x], total);
    chosen := None;
    var k := 0;
    while k < |names|
      invariant 0 <= k <= |names| && chosen == None
      invariant LabelOf(parts) == FirstLabel(parts, names[k..])
    {
      assert names[k] in names && names[k..][0] == names[k] && names[k..][1..] == names[k + 1..];
      if composition[names[k]] >= THRESHOLD {
        chosen := Some(names[k]);
        return;
      }
      k := k + 1;
    }
  }

  // ---------- What the label means ----------

  predicate NotNegative(parts: seq<Part>) {
    forall i | 0 <= i < |parts| :: 0 <= parts[i].volume
  }

  lemma {:induction false} SharesInRange(parts: seq<Part>, x: Variety, y: Variety)
    requires NotNegative(parts)
    ensures 0 <= VarietyVolume(parts, x)
    ensures VarietyVolume(parts, x) <= BlendVolume(parts)
    ensures x != y ==> VarietyVolume(parts, x) + VarietyVolume(parts, y) <= BlendVolume(parts)
  {
    if parts != [] {
      SharesInRange(parts[..|parts| - 1], x, y);
    }
  }

  /** A rounded percentage reaches 75 exactly from a share of 74.99995 per cent. */
  lemma ReachesFrom(volume: int, total: int)
    requires 0 <= volume && 0 < total
    ensures Percent(volume, total) >= THRESHOLD <==> 2000000 * volume >= 1499999 * total
  {
    var p := Percent(volume, total);
    assert 2 * total * p - total <= 2000000 * volume < 2 * total * p + total;
    if p >= THRESHOLD {
      MulLe(THRESHOLD, p, 2 * total);
    } else {
      MulLe(p, THRESHOLD - 1, 2 * total);
    }
  }

  lemma {:induction false} FirstLabelFinds(parts: seq<Part>, names: seq<Variety>)
    ensures var l := FirstLabel(parts, names);
            if l.Some? then l.value in names && PercentOf(parts)(l.value) >= THRESHOLD
            else forall x | x in names :: PercentOf(parts)(x) < THRESHOLD
  {
    if names != [] && PercentOf(parts)(names[0]) < THRESHOLD {
      FirstLabelFinds(parts, names[1..]);
      assert forall x | x in names :: x == names[0] || x in names[1..];
    }
  }

  lemma AtMostOneLabel(parts: seq<Part>, x: Variety, y: Variety)
    requires NotNegative(parts)
    requires PercentOf(parts)(x) >= THRESHOLD && PercentOf(parts)(y) >= THRESHOLD
    ensures x == y
  {
    SharesInRange(parts, x, y);
    SharesInRange(parts, y, x);
    var total := BlendVolume(parts);
    if total > 0 {
      ReachesFrom(VarietyVolume(parts, x), total);
      ReachesFrom(VarietyVolume(parts, y), total);
    }
  }

  /** The label is x exactly when x occurs and holds at least 74.99995 per cent of
      a positive volume. In particular an exact 75 per cent always gets it. */
  lemma LabelExact(parts: seq<Part>, x: Variety)
    requires NotNegative(parts)
    ensures LabelOf(parts) == Some(x) <==>
              && Occurs(parts, x) && 0 < BlendVolume(parts)
              && 2000000 * VarietyVolume(parts, x) >= 1499999 * BlendVolume(parts)
    ensures Occurs(parts, x) && 0 < BlendVolume(parts) && 4 * VarietyVolume(parts, x) >= 3 * BlendVolume(parts)
            ==> LabelOf(parts) == Some(x)
  {
    FirstLabelFinds(parts, Names(parts));
    SharesInRange(parts, x, x);
    var total, l := BlendVolume(parts), LabelOf(parts);
    if total > 0 {
      ReachesFrom(VarietyVolume(parts, x), total);
      if l.Some? && PercentOf(parts)(x) >= THRESHOLD {
        AtMostOneLabel(parts, x, l.value);
      }
    }
  }

  /** Rounding lets a blend just under the regulation's 75 per cent through: here
      74.99995 per cent. */
  lemma LabelBelowThreshold()
    ensures var parts := [Part("Merlot", 1499999), Part("Syrah", 500001)];
            LabelOf(parts) == Some("Merlot") && 4 * VarietyVolume(parts, "Merlot") < 3 * BlendVolume(parts)
  {
    var parts := [Part("Merlot", 1499999), Part("Syrah", 500001)];
    var first := [Part("Merlot", 1499999)];
    assert parts[..1] == first && first[..0] == [];
    assert VarietyVolume(first, "Merlot") == 1499999 && BlendVolume(first) == 1499999;
    assert VarietyVolume(parts, "Merlot") == 1499999 && BlendVolume(parts) == 2000000;
    assert parts[0].variety == "Merlot";
    LabelExact(parts, "Merlot");
  }

  /** The rule that a labelled variety makes up 75 per cent holds of a blend and a
      variety exactly when the variety's share is not in the band that rounding
      lets through. */
  lemma LabelCompliance(parts: seq<Part>, x: Variety)
    requires NotNegative(parts)
    ensures (LabelOf(parts) == Some(x) ==> 4 * VarietyVolume(parts, x) >= 3 * BlendVolume(parts)) <==>
              !(&& Occurs(parts, x) && 0 < BlendVolume(parts)
                && 1499999 * BlendVolume(parts) <= 2000000 * VarietyVolume(parts, x) < 1500000 * BlendVolume(parts))
  {
    LabelExact(parts, x);
  }

  /** The label does not depend on the order of the components. */
  lemma LabelOrder(p: seq<Part>, q: seq<Part>)
    requires NotNegative(p) && multiset(p) == multiset(q)
    ensures LabelOf(p) == LabelOf(q)
  {
    SumPermutation(PartVolume, p, q);
    forall x ensures VarietyVolume(p, x) == VarietyVolume(q, x) { SumPermutation(OfVariety(x), p, q); }
    forall i | 0 <= i < |q| ensures q[i] in p { assert q[i] in multiset(p); }
    forall i | 0 <= i < |p| ensures p[i] in q { assert p[i] in multiset(q); }
    forall x ensures Occurs(p, x) <==> Occurs(q, x) {
      if Occurs(p, x) { var i :| 0 <= i < |p| && p[i].variety == x; assert p[i] in q; }
      if Occurs(q, x) { var i :| 0 <= i < |q| && q[i].variety == x; assert q[i] in p; }
    }
    if LabelOf(p).Some? {
      LabelExact(p, LabelOf(p).value);
      LabelExact(q, LabelOf(p).value);
    } else if LabelOf(q).Some? {
      LabelExact(p, LabelOf(q).value);
      LabelExact(q, LabelOf(q).value);
    }
  }

  // ---------- Percentages and volumes add up ----------

  lemma {:induction false} AddToOne(f: Variety -> int, g: Variety -> int, names: seq<Variety>, x: Variety, d: int)
    requires forall i, j | 0 <= i < j < |names| :: names[i] != names[j]
    requires forall y :: g(y) == f(y) + (if y == x then d else 0)
    ensures SumBy(g, names) == SumBy(f, names) + (if x in names then d else 0)
  {
    if names != [] {
      var front := names[..|names| - 1];
      AddToOne(f, g, front, x, d);
      assert forall y | y in names :: y in front || y == names[|names| - 1];
    }
  }

  lemma AbsentVariety(parts: seq<Part>, x: Variety)
    requires !Occurs(parts, x)
    ensures VarietyVolume(parts, x) == 0
  {
    SumBounds(OfVariety(x), parts, 0, 0);
  }

  /** One more part of a variety that is listed already. */
  lemma ListedVariety(front: seq<Part>, p: Part)
    requires p.variety in Names(front)
    ensures Names(front + [p]) == Names(front)
    ensures SumBy(VolumeOf(front + [p]), Names(front)) == SumBy(VolumeOf(front), Names(front)) + p.volume
  {
    hide Names, VarietyVolume, BlendVolume;
    OnePartMore(front, p);
    AddToOne(VolumeOf(front), VolumeOf(front + [p]), Names(front), p.variety, p.volume);
  }

  /** One part of a new variety. */
  lemma NewVariety(front: seq<Part>, p: Part)
    requires p.variety !in Names(front)
    ensures Names(front + [p]) == Names(front) + [p.variety]
    ensures SumBy(VolumeOf(front + [p]), Names(front) + [p.variety]) == SumBy(VolumeOf(front), Names(front)) + p.volume
  {
    assert !Occurs(front, p.variety);
    hide Names, VarietyVolume, BlendVolume;
    OnePartMore(front, p);
    AbsentVariety(front, p.variety);
    AddToOne(VolumeOf(front), VolumeOf(front + [p]), Names(front), p.variety, p.volume);
    SumPush(VolumeOf(front + [p]), Names(front), p.variety);
  }

  /** The variety volumes add up to the blend's volume. */
  lemma {:induction false} VarietiesCoverBlend(parts: seq<Part>)
    ensures SumBy(VolumeOf(parts), Names(parts)) == BlendVolume(parts)
  {
    hide *;
    if parts == [] {
      NoVarieties();
    } else {
      var front, p := parts[..|parts| - 1], parts[|parts| - 1];
      VarietiesCoverBlend(front);
      OnePartMore(front, p);
      assert parts == front + [p];
      if p.variety in Names(front) {
        ListedVariety(front, p);
      } else {
        NewVariety(front, p);
      }
    }
  }

  lemma NoVarieties()
    ensures SumBy(VolumeOf([]), Names([])) == BlendVolume([])
  {
  }

  lemma RoundedPercent(volume: int, total: int)
    requires 0 < total
    ensures -total <= 2 * (total * Percent(volume, total)) - 2 * (HUNDRED * volume) <= total
  {
    var p := Percent(volume, total);
    assert 2 * total * p == 2 * (total * p);
  }

  lemma AddRounded(total: int, n: nat, s: int, p: int, v: int, w: int)
    ensures total * (s + p) == total * s + total * p && total * (n + 1) == total * n + total
  {
  }

  lemma {:induction false} RoundedSum(parts: seq<Part>, names: seq<Variety>)
    requires NotNegative(parts) && 0 < BlendVolume(parts)
    ensures var total, v, s := BlendVolume(parts), SumBy(VolumeOf(parts), names), SumBy(PercentOf(parts), names);
            -(total * |names|) <= 2 * (total * s) - 2 * (HUNDRED * v) <= total * |names|
  {
    if names != [] {
      var front, x, total := names[..|names| - 1], names[|names| - 1], BlendVolume(parts);
      RoundedSum(parts, front);
      SharesInRange(parts, x, x);
      RoundedPercent(VarietyVolume(parts, x), total);
      hide Percent, VarietyVolume, BlendVolume;
      var n, s, v := |front|, SumBy(PercentOf(parts), front), SumBy(VolumeOf(parts), front);
      var p, w := PercentOf(parts)(x), VarietyVolume(parts, x);
      assert SumBy(PercentOf(parts), names) == s + p && SumBy(VolumeOf(parts), names) == v + w;
      AddRounded(total, n, s, p, v, w);
      assert |names| == n + 1;
    }
  }

  lemma DivideThrough(total: int, n: int, d: int)
    requires 0 < total && -(total * n) <= total * d <= total * n
    ensures -n <= d <= n
  {
    if d > n {
      MulLt(n, d, total);
      assert false;
    } else if d < -n {
      MulLt(d, -n, total);
      assert false;
    }
  }

  /** A variety's percentage is its share of the volume up to half a unit, and zero in
      a blend without volume. */
  lemma ShareRounded(parts: seq<Part>, x: Variety)
    ensures var total, v, p := BlendVolume(parts), VarietyVolume(parts, x), PercentOf(parts)(x);
            if 0 < total then -total <= 2 * (total * p) - 2 * (HUNDRED * v) <= total else p == 0
  {
    var total := BlendVolume(parts);
    if 0 < total {
      RoundedPercent(VarietyVolume(parts, x), total);
    }
  }

  /** n rounded percentages add up to 100 within n halves of a unit. */
  lemma PercentagesAddUp(parts: seq<Part>)
    requires NotNegative(parts) && 0 < BlendVolume(parts)
    ensures var n, s := |Names(parts)|, SumBy(PercentOf(parts), Names(parts));
            -n <= 2 * s - 2 * HUNDRED <= n
  {
    hide *;
    VarietiesCoverBlend(parts);
    RoundedSum(parts, Names(parts));
    var total, n, s := BlendVolume(parts), |Names(parts)|, SumBy(PercentOf(parts), Names(parts));
    assert total * (2 * s - 2 * HUNDRED) == 2 * (total * s) - 2 * (HUNDRED * total);
    DivideThrough(total, n, 2 * s - 2 * HUNDRED);
  }
}
