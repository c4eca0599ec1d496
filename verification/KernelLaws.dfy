/** What the decision depends on, and which way it moves. */
module KernelLaws {
  import opened Floats
  import opened Wrappers
  import opened Catalog
  import opened Kernel

  // ---- evidence enters only through two readings ----

  lemma {:induction false} MaxComplexityIs(ev: seq<Evidence>)
    requires !HasNaN(ev)
    ensures !MaxComplexity(ev).NaN? && !Less(MaxComplexity(ev), ZERO)
    ensures forall e :: e in ev ==> !Less(MaxComplexity(ev), e.complexity)
    ensures MaxComplexity(ev) == ZERO || exists e :: e in ev && e.complexity == MaxComplexity(ev)
  {
    if ev != [] {
      var init, last := ev[..|ev| - 1], ev[|ev| - 1];
      assert ev == init + [last];
      MaxComplexityIs(init);
      assert last in ev && forall e :: e in init ==> e in ev;
    }
  }

  lemma {:induction false} MinConfidenceIs(ev: seq<Evidence>)
    requires !HasNaN(ev)
    ensures !MinConfidence(ev).NaN? && !Less(ONE, MinConfidence(ev))
    ensures forall e :: e in ev ==> !Less(e.confidence, MinConfidence(ev))
    ensures MinConfidence(ev) == ONE || exists e :: e in ev && e.confidence == MinConfidence(ev)
  {
    if ev != [] {
      var init, last := ev[..|ev| - 1], ev[|ev| - 1];
      assert ev == init + [last];
      MinConfidenceIs(init);
      assert last in ev && forall e :: e in init ==> e in ev;
    }
  }

  // ---- thresholds on the two readings, item by item ----

  lemma {:induction false} MaxBelow(ev: seq<Evidence>, x: real)
    requires !HasNaN(ev)
    ensures Less(MaxComplexity(ev), Fin(x)) <==> x > 0.0 && forall e :: e in ev ==> Less(e.complexity, Fin(x))
  {
    if ev != [] {
      assert ev == ev[..|ev| - 1] + [ev[|ev| - 1]];
      MaxBelow(ev[..|ev| - 1], x);
    }
  }

  lemma {:induction false} MinReaches(ev: seq<Evidence>, t: F64)
    requires !HasNaN(ev) && !t.NaN?
    ensures !Less(MinConfidence(ev), t) <==> !Less(ONE, t) && forall e :: e in ev ==> !Less(e.confidence, t)
  {
    if ev != [] {
      assert ev == ev[..|ev| - 1] + [ev[|ev| - 1]];
      MinConfidenceIs(ev[..|ev| - 1]);
      MinReaches(ev[..|ev| - 1], t);
    }
  }

  /** Neither the order nor the provider names of the evidence matter. */
  lemma OrderFree(ev: seq<Evidence>, ev': seq<Evidence>, models: seq<Model>, threshold: F64)
    requires multiset(ev) == multiset(ev')
    ensures Routed(ev, models, threshold) == Routed(ev', models, threshold)
  {
    forall e ensures e in ev <==> e in ev' {
      assert e in multiset(ev) <==> e in multiset(ev');
    }
    assert |ev| == |multiset(ev)| == |ev'|;
    NaNTravels(ev, ev');
    NaNTravels(ev', ev);
    if !HasNaN(ev) {
      SameReadings(ev, ev');
    }
  }

  lemma SameReadings(ev: seq<Evidence>, ev': seq<Evidence>)
    requires !HasNaN(ev) && !HasNaN(ev')
    requires forall e :: e in ev <==> e in ev'
    ensures MaxComplexity(ev) == MaxComplexity(ev')
    ensures MinConfidence(ev) == MinConfidence(ev')
  {
    MaxComplexityIs(ev);
    MaxComplexityIs(ev');
    Antisymmetric(MaxComplexity(ev), MaxComplexity(ev'));
    MinConfidenceIs(ev);
    MinConfidenceIs(ev');
    Antisymmetric(MinConfidence(ev), MinConfidence(ev'));
  }

  lemma Antisymmetric(a: F64, b: F64)
    ensures !a.NaN? && !b.NaN? && !Less(a, b) && !Less(b, a) ==> a == b
  {}

  lemma NaNTravels(ev: seq<Evidence>, ev': seq<Evidence>)
    requires forall e :: e in ev ==> e in ev'
    ensures HasNaN(ev) ==> HasNaN(ev')
  {
    if HasNaN(ev) {
      var i :| 0 <= i < |ev| && (ev[i].complexity.NaN? || ev[i].confidence.NaN?);
      assert ev[i] in ev';
    }
  }

  /** Any NaN, anywhere, yields the unsure ceiling whatever else is known. */
  lemma NaNRoutesUp(ev: seq<Evidence>, e: Evidence, models: seq<Model>, threshold: F64)
    requires e in ev && (e.complexity.NaN? || e.confidence.NaN?)
    requires WellFormed(models)
    ensures UnsureCeiling(models).Some?
    ensures var d := Routed(ev, models, threshold);
      d.model == UnsureCeiling(models).value.id && d.effort == High && d.unsure
  {
    var i :| 0 <= i < |ev| && ev[i] == e;
    CeilingsExist(models);
  }

  // ---- raising a complexity ----

  lemma CeilingsExist(models: seq<Model>)
    requires WellFormed(models)
    ensures UnsureCeiling(models).Some? && UnsureCeiling(models).value in models
    ensures HighCeiling(models).Some? && HighCeiling(models).value in models
    ensures FirstAtTier(models, 0).Some?
  {
    RoleFound(models, UNSURE_CEILING);
    RoleFound(models, HIGH_CEILING);
    HighestFound(models, 1);
    HighestFound(models, 2);
    TierFound(models, 0);
  }

  /** What a caller can read off the catalog: the high ceiling is not below the
      unsure one, nor below an existing tier 1. */
  ghost predicate CeilingsOrdered(models: seq<Model>) {
    UnsureCeiling(models).Some? && HighCeiling(models).Some? &&
    HighCeiling(models).value.tier >= UnsureCeiling(models).value.tier &&
    (FirstAtTier(models, 1).Some? ==> HighCeiling(models).value.tier >= 1)
  }

  ghost predicate HasRole(models: seq<Model>, role: string) { exists m :: m in models && m.role == role }

  /** Tagging both ceilings, or neither, is enough. */
  lemma BothOrNeitherOrdered(models: seq<Model>)
    requires WellFormed(models)
    requires HasRole(models, UNSURE_CEILING) <==> HasRole(models, HIGH_CEILING)
    ensures CeilingsOrdered(models)
  {
    CeilingsExist(models);
    RoleFound(models, UNSURE_CEILING);
    RoleFound(models, HIGH_CEILING);
    HighestFound(models, 1);
    HighestFound(models, 2);
    TierFound(models, 1);
  }

  ghost predicate NotLowered(models: seq<Model>, d: Decision, d': Decision) {
    TierFor(models, d.model).Some? && TierFor(models, d'.model).Some? &&
    TierFor(models, d.model).value <= TierFor(models, d'.model).value &&
    EffortRank(d.effort) <= EffortRank(d'.effort)
  }

  ghost predicate Raised(ev: seq<Evidence>, ev': seq<Evidence>) {
    |ev| == |ev'| && !HasNaN(ev) && !HasNaN(ev') &&
    forall i :: 0 <= i < |ev| ==> ev'[i].confidence == ev[i].confidence && !Less(ev'[i].complexity, ev[i].complexity)
  }

  lemma {:induction false} RaisedReadings(ev: seq<Evidence>, ev': seq<Evidence>)
    requires Raised(ev, ev')
    ensures !MaxComplexity(ev).NaN? && !MaxComplexity(ev').NaN?
    ensures !Less(MaxComplexity(ev'), MaxComplexity(ev))
    ensures MinConfidence(ev') == MinConfidence(ev)
  {
    if ev != [] {
      RaisedReadings(ev[..|ev| - 1], ev'[..|ev'| - 1]);
    }
  }

  /** Tier of the chosen model, from the ceilings' tiers and whether tier 1 exists. */
  function ChoiceTier(unsure: int, high: int, hasOne: bool, c: F64, k: F64, threshold: F64): int {
    if AtLeast(c, VERY_HIGH_COMPLEXITY) then high
    else if threshold.NaN? || Less(k, threshold) then unsure
    else if Less(c, Fin(0.5)) then 0
    else if Less(c, Fin(0.75)) && hasOne then 1
    else high
  }

  lemma ChoiceTierIs(models: seq<Model>, c: F64, k: F64, threshold: F64)
    requires WellFormed(models) && DistinctIds(models) && !c.NaN?
    ensures UnsureCeiling(models).Some? && HighCeiling(models).Some?
    ensures TierFor(models, Choice(models, c, k, threshold).model) ==
      Some(ChoiceTier(UnsureCeiling(models).value.tier, HighCeiling(models).value.tier,
                      FirstAtTier(models, 1).Some?, c, k, threshold))
  {
    TargetsFound(models);
    if Less(c, Fin(0.25)) { BelowStays(c, 0.25, 0.5); }
    if Less(c, Fin(0.5)) { BelowStays(c, 0.5, 0.75); }
    if AtLeast(c, VERY_HIGH_COMPLEXITY) {
    } else if threshold.NaN? || Less(k, threshold) {
    } else if BandOf(c).Some? && BandOf(c).value.tier == 0 {
    } else {
    }
  }

  /** Every model Choice can name is found again by its id. */
  lemma TargetsFound(models: seq<Model>)
    requires WellFormed(models) && DistinctIds(models)
    ensures UnsureCeiling(models).Some? && HighCeiling(models).Some? && FirstAtTier(models, 0).Some?
    ensures TierFor(models, UnsureCeiling(models).value.id) == Some(UnsureCeiling(models).value.tier)
    ensures TierFor(models, HighCeiling(models).value.id) == Some(HighCeiling(models).value.tier)
    ensures TierFor(models, FirstAtTier(models, 0).value.id) == Some(0)
    ensures FirstAtTier(models, 1).Some? ==> TierFor(models, FirstAtTier(models, 1).value.id) == Some(1)
  {
    CeilingsExist(models);
    IdFinds(models, UnsureCeiling(models).value);
    IdFinds(models, HighCeiling(models).value);
    TierFound(models, 0);
    IdFinds(models, FirstAtTier(models, 0).value);
    TierFound(models, 1);
    if FirstAtTier(models, 1).Some? {
      IdFinds(models, FirstAtTier(models, 1).value);
    }
  }

  lemma BelowStays(c: F64, x: real, y: real)
    requires Less(c, Fin(x)) && x <= y
    ensures Less(c, Fin(y))
  {}

  lemma RaisedStays(c: F64, c': F64, x: real)
    requires !c.NaN? && !c'.NaN? && !Less(c', c)
    ensures Less(c', Fin(x)) ==> Less(c, Fin(x))
  {}

  lemma ChoiceRaised(models: seq<Model>, c: F64, c': F64, k: F64, threshold: F64)
    requires WellFormed(models) && DistinctIds(models) && CeilingsOrdered(models)
    requires !c.NaN? && !c'.NaN? && !Less(c', c)
    ensures NotLowered(models, Choice(models, c, k, threshold), Choice(models, c', k, threshold))
  {
    ChoiceTierIs(models, c, k, threshold);
    ChoiceTierIs(models, c', k, threshold);
    CeilingsExist(models);
    TierFound(models, 0);
    RaisedStays(c, c', 0.25);
    RaisedStays(c, c', 0.5);
    RaisedStays(c, c', 0.75);
    RaisedStays(c, c', 0.9);
    assert HighCeiling(models).value.tier >= 0 && UnsureCeiling(models).value.tier >= 0 by {
      assert EntryOk(HighCeiling(models).value) && EntryOk(UnsureCeiling(models).value);
    }
  }

  /** Raising complexities never lowers the tier or the effort, for every
      evidence and threshold, exactly when the ceilings are ordered. */
  lemma RaisingNeverLowers(models: seq<Model>)
    requires WellFormed(models) && DistinctIds(models)
    ensures CeilingsOrdered(models) <==>
      forall ev, ev', t :: Raised(ev, ev') ==> NotLowered(models, Routed(ev, models, t), Routed(ev', models, t))
  {
    CeilingsExist(models);
    if CeilingsOrdered(models) {
      forall ev, ev', t | Raised(ev, ev')
        ensures NotLowered(models, Routed(ev, models, t), Routed(ev', models, t)) {
        IdFinds(models, UnsureCeiling(models).value);
        if ev != [] {
          RaisedReadings(ev, ev');
          ChoiceRaised(models, MaxComplexity(ev), MaxComplexity(ev'), MinConfidence(ev), t);
        }
      }
    } else {
      var ev, ev', t := DisorderShows(models);
    }
  }

  /** The witness: with ceilings out of order some raised reading routes lower. */
  lemma DisorderShows(models: seq<Model>) returns (ev: seq<Evidence>, ev': seq<Evidence>, t: F64)
    requires WellFormed(models) && DistinctIds(models) && !CeilingsOrdered(models)
    ensures Raised(ev, ev') && !NotLowered(models, Routed(ev, models, t), Routed(ev', models, t))
  {
    CeilingsExist(models);
    var unsure, high := UnsureCeiling(models).value, HighCeiling(models).value;
    IdFinds(models, unsure);
    IdFinds(models, high);
    if high.tier < unsure.tier {
      ev, ev', t := [Evidence("p", Fin(0.8), ZERO)], [Evidence("p", Fin(0.9), ZERO)], ONE;
    } else {
      ev, ev', t := [Evidence("p", Fin(0.5), ONE)], [Evidence("p", Fin(0.75), ONE)], ZERO;
      TierFound(models, 1);
      IdFinds(models, FirstAtTier(models, 1).value);
    }
    Readings1(ev[0]);
    Readings1(ev'[0]);
  }

  lemma Readings1(e: Evidence)
    ensures MaxComplexity([e]) == (if Less(ZERO, e.complexity) then e.complexity else ZERO)
    ensures MinConfidence([e]) == (if Less(e.confidence, ONE) then e.confidence else ONE)
  {
    assert [e][..0] == [];
  }

  /** A catalog that passes the validity check and tags only the high ceiling,
      on its cheapest model, is out of order. */
  lemma OneRoleCanDisorder()
    ensures var models := [Model("a", "a", 1.0, 1.0, 0, HIGH_CEILING), Model("b", "b", 2.0, 2.0, 1, "")];
      WellFormed(models) && DistinctIds(models) && !CeilingsOrdered(models)
  {
    var models := [Model("a", "a", 1.0, 1.0, 0, HIGH_CEILING), Model("b", "b", 2.0, 2.0, 1, "")];
    assert models[0] in models && models[1] in models;
    RoleUnique(models, models[0]);
    RoleFound(models, UNSURE_CEILING);
    HighestFound(models, 1);
  }

  // ---- raising the threshold ----

  ghost predicate ThresholdRaised(t: F64, t': F64) { t'.NaN? || (!t.NaN? && !Less(t', t)) }

  /** A higher bar never turns a ceiling into a downshift, in any catalog. */
  lemma HigherBarAddsNoDownshift(ev: seq<Evidence>, models: seq<Model>, t: F64, t': F64)
    requires ThresholdRaised(t, t')
    ensures Routed(ev, models, t').reason.Downshift? ==> Routed(ev, models, t) == Routed(ev, models, t')
  {
    if ev != [] && !HasNaN(ev) {
      MinConfidenceIs(ev);
      BarStays(MinConfidence(ev), t, t');
    }
  }

  /** The evidence is below 0.9 and clears the one bar but not the other. */
  ghost predicate LosesBar(ev: seq<Evidence>, t: F64, t': F64) {
    && ev != [] && !HasNaN(ev) && Less(MaxComplexity(ev), VERY_HIGH_COMPLEXITY)
    && !t.NaN? && !Less(MinConfidence(ev), t)
    && (t'.NaN? || Less(MinConfidence(ev), t'))
  }

  /** For a reading this complex the unsure ceiling is a step down: from tier 1
      in [0.5, 0.75), from the high ceiling above, or where tier 1 is missing. */
  ghost predicate UnsureIsLower(models: seq<Model>, c: F64)
    requires UnsureCeiling(models).Some? && HighCeiling(models).Some?
  {
    var unsure, high := UnsureCeiling(models).value.tier, HighCeiling(models).value.tier;
    !Less(c, Fin(0.5)) &&
    if Less(c, Fin(0.75)) && FirstAtTier(models, 1).Some? then unsure < 1 else unsure < high
  }

  /** In every valid catalog with distinct ids, a higher bar lowers the tier
      exactly when the evidence loses the bar where the unsure ceiling is lower
      than what confident evidence gets. */
  lemma HigherBar(ev: seq<Evidence>, models: seq<Model>, t: F64, t': F64)
    requires WellFormed(models) && DistinctIds(models) && ThresholdRaised(t, t')
    ensures UnsureCeiling(models).Some? && HighCeiling(models).Some?
    ensures Routed(ev, models, t').reason.Downshift? ==> Routed(ev, models, t) == Routed(ev, models, t')
    ensures TierFor(models, Routed(ev, models, t).model).Some? && TierFor(models, Routed(ev, models, t').model).Some?
    ensures TierFor(models, Routed(ev, models, t').model).value < TierFor(models, Routed(ev, models, t).model).value <==>
      LosesBar(ev, t, t') && UnsureIsLower(models, MaxComplexity(ev))
  {
    CeilingsExist(models);
    HigherBarAddsNoDownshift(ev, models, t, t');
    if ev != [] && !HasNaN(ev) {
      MaxComplexityIs(ev);
      MinConfidenceIs(ev);
      ChoiceTierIs(models, MaxComplexity(ev), MinConfidence(ev), t);
      ChoiceTierIs(models, MaxComplexity(ev), MinConfidence(ev), t');
      BarStays(MinConfidence(ev), t, t');
      assert EntryOk(UnsureCeiling(models).value);
    } else {
      IdFinds(models, UnsureCeiling(models).value);
    }
  }

  lemma BarStays(k: F64, t: F64, t': F64)
    requires !k.NaN? && ThresholdRaised(t, t')
    ensures t.NaN? || Less(k, t) ==> t'.NaN? || Less(k, t')
  {}

  // ---- the decision in plain terms ----

  ghost predicate AllBelow(ev: seq<Evidence>, x: real) { forall e :: e in ev ==> Less(e.complexity, Fin(x)) }

  /** The bar is no number, above 1, or above some item's confidence. */
  ghost predicate Doubtful(ev: seq<Evidence>, t: F64) {
    t.NaN? || Less(Fin(1.0), t) || exists e :: e in ev && Less(e.confidence, t)
  }

  ghost predicate Names(d: Decision, m: Option<Model>, effort: Effort) {
    d.effort == effort && (m.Some? ==> d.model == m.value.id)
  }

  lemma {:induction false} PriciestFound(models: seq<Model>)
    ensures Priciest(models).None? <==> forall m :: m in models ==> m.tier < 0
    ensures var best := Priciest(models);
      best.Some? ==> best.value in models && best.value.tier >= 0 && forall m :: m in models ==> m.tier <= best.value.tier
  {
    if models != [] {
      PriciestFound(Init(models));
      assert models == Init(models) + [Last(models)];
    }
  }

  ghost predicate FirstOnTop(models: seq<Model>, i: nat) {
    && i < |models| && models[i].tier >= 0
    && (forall j :: 0 <= j < |models| ==> models[j].tier <= models[i].tier)
    && (forall j :: 0 <= j < i ==> models[j].tier != models[i].tier)
  }

  lemma {:induction false} PriciestIsFirst(models: seq<Model>, i: nat)
    requires FirstOnTop(models, i)
    ensures Priciest(models) == Some(models[i])
  {
    if i == |models| - 1 {
      PriciestFound(Init(models));
    } else {
      PriciestIsFirst(Init(models), i);
    }
  }

  /** With no ceiling to name, the decision names the first model of the highest
      tier, and none when the catalog has no tier from 0 on. */
  lemma CeilingMissing(models: seq<Model>, i: nat, reason: Reason, confidence: F64, effort: Effort, unsure: bool)
    ensures (forall m :: m in models ==> m.tier < 0) ==> Ceiling(models, reason, confidence, effort, None, unsure).model == ""
    ensures FirstOnTop(models, i) ==> Ceiling(models, reason, confidence, effort, None, unsure).model == models[i].id
  {
    PriciestFound(models);
    if FirstOnTop(models, i) { PriciestIsFirst(models, i); }
  }

  /** Item by item: no evidence or a NaN gives the unsure ceiling; one item at 0.9
      or more the high ceiling at the highest effort; doubt the unsure ceiling;
      and otherwise the tier and effort of the band below which every item lies,
      or the high ceiling when there is no such band or tier. */
  lemma DecisionTable(ev: seq<Evidence>, models: seq<Model>, t: F64)
    ensures var d := Routed(ev, models, t);
      if ev == [] || (exists e :: e in ev && (e.complexity.NaN? || e.confidence.NaN?)) then
        Names(d, UnsureCeiling(models), High) && d.unsure && d.confidence == Fin(0.0)
      else if !AllBelow(ev, 0.9) then
        Names(d, HighCeiling(models), XHigh) && !d.unsure && !d.reason.Downshift? && d.confidence == MinConfidence(ev)
      else if Doubtful(ev, t) then
        Names(d, UnsureCeiling(models), High) && d.unsure && !d.reason.Downshift? && d.confidence == Fin(0.0)
      else
        && !d.unsure && d.confidence == MinConfidence(ev)
        && if AllBelow(ev, 0.25) && FirstAtTier(models, 0).Some? then Names(d, FirstAtTier(models, 0), Low) && d.reason.Downshift?
           else if AllBelow(ev, 0.5) && FirstAtTier(models, 0).Some? then Names(d, FirstAtTier(models, 0), Medium) && d.reason.Downshift?
           else if !AllBelow(ev, 0.5) && AllBelow(ev, 0.75) && FirstAtTier(models, 1).Some? then
             Names(d, FirstAtTier(models, 1), Medium) && d.reason.Downshift?
           else Names(d, HighCeiling(models), High) && !d.reason.Downshift?
  {
    NaNItems(ev);
    if !HasNaN(ev) {
      MaxComplexityIs(ev);
      MaxBelow(ev, 0.25);
      MaxBelow(ev, 0.5);
      MaxBelow(ev, 0.75);
      MaxBelow(ev, 0.9);
      if !t.NaN? { MinReaches(ev, t); }
    }
  }

  lemma NaNItems(ev: seq<Evidence>)
    ensures HasNaN(ev) <==> exists e :: e in ev && (e.complexity.NaN? || e.confidence.NaN?)
  {
    if e :| e in ev && (e.complexity.NaN? || e.confidence.NaN?) {
      var i :| 0 <= i < |ev| && ev[i] == e;
    }
    if HasNaN(ev) {
      var i :| 0 <= i < |ev| && (ev[i].complexity.NaN? || ev[i].confidence.NaN?);
      assert ev[i] in ev;
    }
  }

  /** Which models the ceilings are: the one with the role, or where no model has
      it, one of the highest tier up to 1, or up to 2. */
  lemma CeilingsMean(models: seq<Model>)
    requires WellFormed(models)
    ensures UnsureCeiling(models).Some? && UnsureCeiling(models).value in models
    ensures HighCeiling(models).Some? && HighCeiling(models).value in models
    ensures forall m :: m in models && m.role == "unsure_ceiling" ==> UnsureCeiling(models).value == m
    ensures forall m :: m in models && m.role == "high_ceiling" ==> HighCeiling(models).value == m
    ensures (forall m :: m in models ==> m.role != "unsure_ceiling") ==>
      UnsureCeiling(models).value.tier <= 1 && forall m :: m in models && m.tier <= 1 ==> m.tier <= UnsureCeiling(models).value.tier
    ensures (forall m :: m in models ==> m.role != "high_ceiling") ==>
      HighCeiling(models).value.tier <= 2 && forall m :: m in models && m.tier <= 2 ==> m.tier <= HighCeiling(models).value.tier
  {
    CeilingsExist(models);
    RoleFound(models, UNSURE_CEILING);
    RoleFound(models, HIGH_CEILING);
    HighestFound(models, 1);
    HighestFound(models, 2);
    forall m | m in models && m.role != "" ensures FirstWithRole(models, m.role) == Some(m) {
      RoleUnique(models, m);
    }
    forall m | m in models ensures m.tier >= 0 {
      assert EntryOk(m);
    }
  }
}
