/** How splits and blends hand costs on. Costs and volumes are whole units of
    10^-4; unit costs and proportions carry 8 decimals; every step truncates. */
module CostAllocation {
  import opened FixedPoint
  import opened Sums

  const SCALE := 100000000

  /** Cost per gallon at 8 decimals, as taken once at the time of a split. */
  function UnitCost(cost: int, volume: int): int
    requires volume > 0
  {
    TruncDiv(cost * SCALE, volume)
  }

  function ShareAt(unitCost: int, childVolume: int): int {
    TruncDiv(unitCost * childVolume, SCALE)
  }

  function SplitShare(cost: int, volume: int, childVolume: int): int
    requires volume > 0
  {
    ShareAt(UnitCost(cost, volume), childVolume)
  }

  function Proportion(part: int, whole: int): int
    requires whole > 0
  {
    TruncDiv(part * SCALE, whole)
  }

  function BlendShare(cost: int, part: int, whole: int): int
    requires whole > 0
  {
    TruncDiv(cost * Proportion(part, whole), SCALE)
  }

  /** The share of each child, for summing over a list of child volumes. */
  function ShareOf(cost: int, volume: int): int -> int
    requires volume > 0
  {
    (w: int) => SplitShare(cost, volume, w)
  }

  /** One child's share never exceeds its exact share t*w/v and stays less than
      1 + w/10^8 units below it. */
  lemma SplitShareBound(t: int, v: int, w: int)
    requires 0 < t && 0 < v && 0 <= w
    ensures 0 <= SplitShare(t, v, w)
    ensures v * SplitShare(t, v, w) <= t * w
    ensures SCALE * (t * w - v * SplitShare(t, v, w)) < SCALE * v + v * w
  {
    var g, c := UnitCost(t, v), SplitShare(t, v, w);
    assert 0 <= t * SCALE;
    assert 0 <= g && v * g <= t * SCALE < v * g + v;
    assert 0 <= g * w by { MulLe(0, g, w); }
    assert 0 <= c && SCALE * c <= g * w < SCALE * c + SCALE;
    MulLe(SCALE * c, g * w, v);
    MulLe(v * g, t * SCALE, w);
    assert SCALE * (v * c) <= SCALE * (t * w) by {
      assert v * (SCALE * c) == SCALE * (v * c);
      assert v * (g * w) == w * (v * g);
      assert w * (t * SCALE) == SCALE * (t * w);
    }
    MulLe(t * SCALE, v * g + v, w);
    MulLt(g * w, SCALE * c + SCALE, v);
    assert w * (v * g + v) == v * (g * w) + v * w;
    assert v * (SCALE * c + SCALE) == SCALE * (v * c) + SCALE * v;
    assert w * (t * SCALE) == SCALE * (t * w);
  }

  lemma AddShare(t: int, v: int, n: nat, fw: int, fc: int, w: int, c: int)
    ensures v * (fc + c) == v * fc + v * c && t * (fw + w) == t * fw + t * w
    ensures SCALE * (t * (fw + w) - v * (fc + c)) == SCALE * (t * fw - v * fc) + SCALE * (t * w - v * c)
    ensures (n + 1) * (SCALE * v) + v * (fw + w) == (n * (SCALE * v) + v * fw) + (SCALE * v + v * w)
  {
    assert (n + 1) * (SCALE * v) == n * (SCALE * v) + SCALE * v;
    assert v * (fw + w) == v * fw + v * w;
  }

  /** All children together get at most t*W/v and miss it by less than
      n + W/10^8 units. */
  lemma {:induction false} SplitSharesBound(t: int, v: int, ws: seq<int>)
    requires 0 < t && 0 < v
    requires forall i | 0 <= i < |ws| :: 0 <= ws[i]
    ensures 0 <= Sum(ws) && 0 <= SumBy(ShareOf(t, v), ws)
    ensures v * SumBy(ShareOf(t, v), ws) <= t * Sum(ws)
    ensures var missed := SCALE * (t * Sum(ws) - v * SumBy(ShareOf(t, v), ws));
            if ws == [] then missed == 0 else missed < |ws| * (SCALE * v) + v * Sum(ws)
  {
    if ws != [] {
      var front, w := ws[..|ws| - 1], ws[|ws| - 1];
      SplitSharesBound(t, v, front);
      SplitShareBound(t, v, w);
      var fw, fc, c := Sum(front), SumBy(ShareOf(t, v), front), SplitShare(t, v, w);
      assert SumBy(ShareOf(t, v), ws) == fc + c && Sum(ws) == fw + w;
      AddShare(t, v, |front|, fw, fc, w, c);
      assert |front| + 1 == |ws|;
    }
  }

  /** The children never receive more than the parent's cost. */
  lemma SplitNeverExceeds(t: int, v: int, ws: seq<int>)
    requires 0 < t && 0 < v && Sum(ws) <= v
    requires forall i | 0 <= i < |ws| :: 0 <= ws[i]
    ensures SumBy(ShareOf(t, v), ws) <= t
  {
    SplitSharesBound(t, v, ws);
    var total, all := SumBy(ShareOf(t, v), ws), Sum(ws);
    if t < total {
      MulLe(all, v, t);
      MulLt(t, total, v);
      assert false;
    }
  }

  /** Any two children pay the same per gallon up to one truncated unit. */
  lemma SplitSharesFair(t: int, v: int, w1: int, w2: int)
    requires 0 < t && 0 < v && 0 < w1 && 0 < w2
    ensures var d := SplitShare(t, v, w1) * w2 - SplitShare(t, v, w2) * w1;
            -w2 < d < w1
  {
    var g, c1, c2 := UnitCost(t, v), SplitShare(t, v, w1), SplitShare(t, v, w2);
    assert 0 <= t * SCALE && 0 <= g;
    assert 0 <= g * w1 && 0 <= g * w2 by { MulLe(0, g, w1); MulLe(0, g, w2); }
    var r1 := TruncRemainder(g * w1, SCALE);
    var r2 := TruncRemainder(g * w2, SCALE);
    var d := c1 * w2 - c2 * w1;
    calc {
      SCALE * d;
      (SCALE * c1) * w2 - (SCALE * c2) * w1;
      (g * w1 - r1) * w2 - (g * w2 - r2) * w1;
      r2 * w1 - r1 * w2;
    }
    assert r2 * w1 < SCALE * w1 by { MulLt(r2, SCALE, w1); }
    assert r1 * w2 < SCALE * w2 by { MulLt(r1, SCALE, w2); }
    assert 0 <= r1 * w2 && 0 <= r2 * w1 by { MulLe(0, r1, w2); MulLe(0, r2, w1); }
  }

  /** A component's cost never exceeds its exact share t*w/s and stays less than
      1 + t/10^8 units below it. */
  lemma BlendShareBound(t: int, w: int, s: int)
    requires 0 < t && 0 <= w <= s && 0 < s
    ensures 0 <= BlendShare(t, w, s) <= t
    ensures s * BlendShare(t, w, s) <= t * w
    ensures SCALE * (t * w - s * BlendShare(t, w, s)) < SCALE * s + t * s
  {
    var p, c := Proportion(w, s), BlendShare(t, w, s);
    assert 0 <= p && s * p <= w * SCALE < s * p + s;
    assert 0 <= t * p by { MulLe(0, p, t); }
    assert 0 <= c && SCALE * c <= t * p < SCALE * c + SCALE;
    MulLe(SCALE * c, t * p, s);
    MulLe(s * p, w * SCALE, t);
    assert SCALE * (s * c) <= SCALE * (t * w) by {
      assert s * (SCALE * c) == SCALE * (s * c);
      assert s * (t * p) == t * (s * p);
      assert t * (w * SCALE) == SCALE * (t * w);
    }
    MulLt(w * SCALE, s * p + s, t);
    MulLt(t * p, SCALE * c + SCALE, s);
    assert t * (s * p + s) == s * (t * p) + t * s;
    assert s * (SCALE * c + SCALE) == SCALE * (s * c) + SCALE * s;
    assert t * (w * SCALE) == SCALE * (t * w);
    if t < c {
      MulLt(t, c, s);
      MulLe(w, s, t);
      assert false;
    }
  }
}
