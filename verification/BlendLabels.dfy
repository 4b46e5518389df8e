/** The varietal label of a trial stays true to its components: lots never change
    their variety, so what createTrial computed still holds at finalization. */
module BlendLabels {
  import opened Sums
  import opened Options
  import opened CostLedger
  import opened VarietalLabel
  import opened LotBook
  import opened LotLaws
  import opened CostLaws
  import opened BottlingLaws

  /** No lot disappears or changes its variety. */
  predicate SameVarieties(b: Book, c: Book) {
    |b.lots| <= |c.lots| && forall l | 0 <= l < |b.lots| :: c.lots[l].variety == b.lots[l].variety
  }

  /** Every trial carries the label of its components. */
  predicate TrialsLabelled(b: Book) {
    forall k | 0 <= k < |b.trials| :: SourcesKnown(b, b.trials[k].components)
      && b.trials[k].chosen == LabelOf(PartsOf(b, b.trials[k].components))
  }

  lemma CompleteVarieties(b: Book, k: nat)
    requires Complete(b, k).Some?
    ensures SameVarieties(b, Complete(b, k).value) && Complete(b, k).value.trials == b.trials
  {
    hide TotalCost, SumBy, CloseRun, Complete;
    CompleteEffect(b, k);
    CloseRunEffect(b, k);
  }

  lemma StepVarieties(b: Book, op: Op)
    requires Sound(b)
    ensures SameVarieties(b, Apply(b, op))
  {
    if Attempt(b, op).Some? {
      match op
      case SplitOp(l, ws) => SplitVolumes(b, l, ws);
      case FinalizeOp(k) => FinalizeVolumes(b, k);
      case CompleteOp(k) => CompleteVarieties(b, k);
      case _ =>
    }
  }

  lemma SameLabel(b: Book, c: Book, cs: seq<Component>)
    requires SameVarieties(b, c) && SourcesKnown(b, cs)
    ensures SourcesKnown(c, cs) && PartsOf(c, cs) == PartsOf(b, cs)
  {
  }

  /** A step only adds a trial, or marks one as finalized. */
  lemma StepTrials(b: Book, op: Op)
    requires Sound(b)
    ensures |b.trials| <= |Apply(b, op).trials| <= |b.trials| + (if op.TrialOp? then 1 else 0)
    ensures forall k | 0 <= k < |b.trials| ::
              Apply(b, op).trials[k].components == b.trials[k].components
              && Apply(b, op).trials[k].chosen == b.trials[k].chosen
  {
    if Attempt(b, op).Some? {
      match op
      case SplitOp(l, ws) => SplitTrials(b, l, ws);
      case FinalizeOp(k) => FinalizeVolumes(b, k);
      case CompleteOp(k) => CompleteVarieties(b, k);
      case _ =>
    }
  }

  lemma SplitTrials(b: Book, l: nat, ws: seq<int>)
    requires Split(b, l, ws).Some?
    ensures Split(b, l, ws).value.trials == b.trials
  {
    var volume, first, variety := b.lots[l].volume, |b.lots|, b.lots[l].variety;
    SpawnKeepsLots(b, variety, ws);
    var shrunk := ShrinkParent(Spawn(b, variety, ws), l, volume, Sum(ws));
    var cost := TotalCost(shrunk.costs, l);
    if 0 < cost && 0 < volume {
      RollToChildrenLaw(shrunk, first, cost, volume, ws);
    }
  }

  lemma {:induction false} RunLabelled(b: Book, ops: seq<Op>)
    requires Sound(b) && TrialsLabelled(b) && AllAdmitted(ops)
    ensures TrialsLabelled(RunAll(b, ops))
  {
    hide Sound, Attempt, LabelOf;
    if ops != [] {
      var front, op := ops[..|ops| - 1], ops[|ops| - 1];
      var before, after := RunAll(b, front), RunAll(b, ops);
      RunLabelled(b, front);
      RunSound(b, front);
      StepVarieties(before, op);
      StepTrials(before, op);
      forall k | 0 <= k < |after.trials|
        ensures SourcesKnown(after, after.trials[k].components)
        ensures after.trials[k].chosen == LabelOf(PartsOf(after, after.trials[k].components))
      {
        if k < |before.trials| {
          SameLabel(before, after, before.trials[k].components);
        } else {
          NewTrialLabelled(before, op);
        }
      }
    }
  }

  lemma NewTrialLabelled(b: Book, op: Op)
    requires op.TrialOp? && |Apply(b, op).trials| == |b.trials| + 1
    ensures var c, n := Apply(b, op), |b.trials|;
            SourcesKnown(c, c.trials[n].components) && c.trials[n].chosen == LabelOf(PartsOf(c, c.trials[n].components))
  {
  }

  /** A trial is stored exactly when its sources are lots and none is named twice: as a
      draft with the summed volume, labelled x when x makes up enough of it. */
  lemma TrialStored(b: Book, cs: seq<Component>, x: Variety)
    requires forall i | 0 <= i < |cs| :: 0 <= cs[i].volume
    ensures CreateTrial(b, cs).Some? <==>
              && (forall i | 0 <= i < |cs| :: cs[i].source < |b.lots|)
              && (forall i, j | 0 <= i < |cs| && 0 <= j < |cs| && cs[i].source == cs[j].source :: i == j)
    ensures CreateTrial(b, cs).Some? ==>
              var c, n := CreateTrial(b, cs).value, |b.trials|;
              && c == b.(trials := c.trials) && |c.trials| == n + 1 && c.trials[..n] == b.trials
              && c.trials[n].state == Draft && c.trials[n].components == cs && c.trials[n].total == Needed(cs)
              && (c.trials[n].chosen == Some(x) <==>
                    && Occurs(PartsOf(b, cs), x) && 0 < Needed(cs)
                    && 2000000 * VarietyVolume(PartsOf(b, cs), x) >= 1499999 * Needed(cs))
  {
    if CreateTrial(b, cs).Some? {
      PartsVolume(b, cs);
      assert NotNegative(PartsOf(b, cs));
      LabelExact(PartsOf(b, cs), x);
    }
  }

  /** After any run a trial is labelled x exactly when its sources of variety x
      make up at least 74.99995 per cent of its positive volume, and finalizing it
      gives the new lot that variety. */
  lemma FinalLabel(b: Book, ops: seq<Op>, k: nat, x: Variety)
    requires Sound(b) && TrialsLabelled(b) && AllAdmitted(ops) && k < |RunAll(b, ops).trials|
    ensures var c := RunAll(b, ops);
            var cs := c.trials[k].components;
            && SourcesKnown(c, cs)
            && (c.trials[k].chosen == Some(x) <==>
                  && Occurs(PartsOf(c, cs), x) && 0 < Needed(cs)
                  && 2000000 * VarietyVolume(PartsOf(c, cs), x) >= 1499999 * Needed(cs))
            && (Finalize(c, k).Some? && c.trials[k].chosen == Some(x) ==>
                  |Finalize(c, k).value.lots| == |c.lots| + 1 && Finalize(c, k).value.lots[|c.lots|].variety == x)
  {
    var c := RunAll(b, ops);
    RunLabelled(b, ops);
    RunSound(b, ops);
    var cs := c.trials[k].components;
    PartsVolume(c, cs);
    assert NotNegative(PartsOf(c, cs));
    LabelExact(PartsOf(c, cs), x);
    if Finalize(c, k).Some? {
      FinalizeVolumes(c, k);
    }
  }
}
