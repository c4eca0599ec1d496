/** The nested-loop grid search the band table stands for, over a ranked
    catalog and any positive effort weight that never falls. */
module GridSearch {
  import opened Wrappers
  import opened Floats
  import opened Catalog
  import opened Kernel
  import Ranking

  const EFFORTS := [Low, Medium, High, XHigh]

  function CellCost(m: Model, e: Effort, weight: Effort -> real): real {
    (m.inputPrice + 4.0 * m.outputPrice) * weight(e)
  }

  ghost predicate FairWeight(weight: Effort -> real) {
    (forall e :: weight(e) > 0.0) &&
    forall e, e' :: EffortRank(e) <= EffortRank(e') ==> weight(e) <= weight(e')
  }

  ghost predicate PositivePrices(seed: seq<Ranking.Seed>) {
    forall m :: m in seed ==> m.inputPrice > 0.0 && m.outputPrice > 0.0
  }

  /** A cell clears a floor when neither its tier nor its effort is below it. */
  predicate Clears(m: Model, e: Effort, minTier: int, minEffort: Effort) {
    m.tier >= minTier && EffortRank(e) >= EffortRank(minEffort)
  }

  /** No cell that clears the floor costs less than the floor's own. */
  ghost predicate FloorWins(models: seq<Model>, minTier: nat, minEffort: Effort, weight: Effort -> real)
    requires minTier < |models|
  {
    forall m, e :: m in models && Clears(m, e, minTier, minEffort) ==>
      CellCost(models[minTier], minEffort, weight) <= CellCost(m, e, weight)
  }

  lemma ProductGrows(p: real, q: real, v: real, w: real)
    requires 0.0 < p <= q && 0.0 < v <= w
    ensures p * v <= q * w
  {
    var dq, dw := q - p, w - v;
    assert dq * v >= 0.0;
    assert q * dw >= 0.0;
    assert q * w == p * v + dq * v + q * dw;
  }

  /** Cost rises along both axes, so the floor itself costs least. */
  lemma FloorIsCheapest(ranked: seq<Ranking.Seed>, minTier: nat, minEffort: Effort, i: nat, e: Effort, weight: Effort -> real)
    requires Ranking.Sorted(ranked) && PositivePrices(ranked) && FairWeight(weight)
    requires minTier <= i < |ranked| && EffortRank(minEffort) <= EffortRank(e)
    ensures CellCost(Ranking.Number(ranked)[minTier], minEffort, weight) <= CellCost(Ranking.Number(ranked)[i], e, weight)
  {
    var p, q, v, w := Ranking.Blended(ranked[minTier]), Ranking.Blended(ranked[i]), weight(minEffort), weight(e);
    assert ranked[minTier] in ranked && ranked[i] in ranked && p <= q && v <= w;
    assert CellCost(Ranking.Number(ranked)[minTier], minEffort, weight) == p * v;
    assert CellCost(Ranking.Number(ranked)[i], e, weight) == q * w;
    ProductGrows(p, q, v, w);
  }

  lemma FloorWinsAlways(ranked: seq<Ranking.Seed>, minTier: nat, minEffort: Effort, weight: Effort -> real)
    requires Ranking.Sorted(ranked) && PositivePrices(ranked) && FairWeight(weight) && minTier < |ranked|
    ensures FloorWins(Ranking.Number(ranked), minTier, minEffort, weight)
  {
    var cat := Ranking.Number(ranked);
    forall m, e | m in cat && Clears(m, e, minTier, minEffort)
      ensures CellCost(cat[minTier], minEffort, weight) <= CellCost(m, e, weight) {
      FloorIsCheapest(ranked, minTier, minEffort, m.tier, e, weight);
    }
  }

  method GridSearch(ranked: seq<Ranking.Seed>, minTier: nat, minEffort: Effort, weight: Effort -> real)
    returns (model: Model, effort: Effort)
    requires Ranking.Sorted(ranked) && PositivePrices(ranked) && FairWeight(weight) && minTier < |ranked|
    ensures model == Ranking.Number(ranked)[minTier] && effort == minEffort
  {
    var models := Ranking.Number(ranked);
    var bestCost := 0.0;
    var best: Option<(Model, Effort)> := None;
    ghost var floor := (models[minTier], minEffort);
    for i := 0 to |models|
      invariant best == if i <= minTier then None else Some(floor)
      invariant best.Some? ==> bestCost == CellCost(models[minTier], minEffort, weight)
    {
      for j := 0 to |EFFORTS|
        invariant best == if i < minTier || (i == minTier && j <= EffortRank(minEffort)) then None else Some(floor)
        invariant best.Some? ==> bestCost == CellCost(models[minTier], minEffort, weight)
      {
        assert EffortRank(EFFORTS[j]) == j;
        if Clears(models[i], EFFORTS[j], minTier, minEffort) {
          FloorIsCheapest(ranked, minTier, minEffort, i, EFFORTS[j], weight);
          var cost := CellCost(models[i], EFFORTS[j], weight);
          if best.None? || cost < bestCost {
            best, bestCost := Some((models[i], EFFORTS[j])), cost;
          }
        }
      }
    }
    return best.value.0, best.value.1;
  }

  /** A downshift names the cell of its band's floor, the cheapest of all that clear it. */
  lemma DownshiftIsArgmin(seed: seq<Ranking.Seed>, ev: seq<Evidence>, threshold: F64, weight: Effort -> real)
    requires PositivePrices(seed) && FairWeight(weight)
    requires Routed(ev, Ranking.Number(Ranking.Rank(seed)), threshold).reason.Downshift?
    ensures var cat := Ranking.Number(Ranking.Rank(seed));
      var d, band := Routed(ev, cat, threshold), BandOf(MaxComplexity(ev));
      && band.Some? && 0 <= band.value.tier < |cat|
      && d.model == cat[band.value.tier].id && d.effort == band.value.effort
      && FloorWins(cat, band.value.tier, band.value.effort, weight)
  {
    Ranking.RankSorts(seed);
    DownshiftCell(Ranking.Rank(seed), ev, threshold);
    FloorWinsAlways(Ranking.Rank(seed), BandOf(MaxComplexity(ev)).value.tier, BandOf(MaxComplexity(ev)).value.effort, weight);
  }

  lemma DownshiftCell(ranked: seq<Ranking.Seed>, ev: seq<Evidence>, threshold: F64)
    requires Routed(ev, Ranking.Number(ranked), threshold).reason.Downshift?
    ensures var band := BandOf(MaxComplexity(ev));
      && band.Some? && 0 <= band.value.tier < |ranked|
      && Routed(ev, Ranking.Number(ranked), threshold).model == ranked[band.value.tier].id
      && Routed(ev, Ranking.Number(ranked), threshold).effort == band.value.effort
  {
    var cat, tier := Ranking.Number(ranked), BandOf(MaxComplexity(ev)).value.tier;
    TierFound(cat, tier);
    var k :| 0 <= k < |cat| && cat[k] == FirstAtTier(cat, tier).value;
  }

  /** The shortcut and the literal loop agree on every decision. */
  method DecideByGrid(seed: seq<Ranking.Seed>, evidence: seq<Evidence>, threshold: F64, weight: Effort -> real)
    returns (d: Decision, model: string, effort: Effort)
    requires PositivePrices(seed) && FairWeight(weight)
    ensures d == Routed(evidence, Ranking.Number(Ranking.Rank(seed)), threshold)
    ensures model == d.model && effort == d.effort
  {
    d := Decide(evidence, Ranking.Number(Ranking.Rank(seed)), threshold);
    model, effort := d.model, d.effort;
    if d.reason.Downshift? {
      DownshiftCell(Ranking.Rank(seed), evidence, threshold);
      Ranking.RankSorts(seed);
      var band := BandOf(MaxComplexity(evidence)).value;
      var m, e := GridSearch(Ranking.Rank(seed), band.tier, band.effort, weight);
      model, effort := m.id, e;
    }
  }
}
