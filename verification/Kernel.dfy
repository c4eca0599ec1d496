/** The routing decision: evidence, a catalog and a confidence threshold in,
    one model and effort out. */
module Kernel {
  import opened Floats
  import opened Wrappers
  import opened Catalog

  datatype Evidence = Evidence(provider: string, complexity: F64, confidence: F64)

  datatype Effort = Low | Medium | High | XHigh

  datatype Reason = ThinEvidence | NaNEvidence | VeryHard | CatalogGap | Downshift | TooHardToDownshift

  datatype Decision = Decision(model: string, effort: Effort, reason: Reason, confidence: F64, unsure: bool)

  datatype Band = Band(maxComplexity: real, tier: int, effort: Effort)

  const VERY_HIGH_COMPLEXITY := Fin(0.9)
  const BANDS := [Band(0.25, 0, Low), Band(0.5, 0, Medium), Band(0.75, 1, Medium)]

  function EffortRank(e: Effort): nat {
    match e case Low => 0 case Medium => 1 case High => 2 case XHigh => 3
  }

  predicate HasNaN(ev: seq<Evidence>) {
    exists i :: 0 <= i < |ev| && (ev[i].complexity.NaN? || ev[i].confidence.NaN?)
  }

  /** Largest complexity, not below 0. */
  function MaxComplexity(ev: seq<Evidence>): F64 {
    if ev == [] then ZERO
    else
      var rest := MaxComplexity(ev[..|ev| - 1]);
      if Less(rest, ev[|ev| - 1].complexity) then ev[|ev| - 1].complexity else rest
  }

  /** Smallest confidence, not above 1. */
  function MinConfidence(ev: seq<Evidence>): F64 {
    if ev == [] then ONE
    else
      var rest := MinConfidence(ev[..|ev| - 1]);
      if Less(ev[|ev| - 1].confidence, rest) then ev[|ev| - 1].confidence else rest
  }

  /** First model of the highest tier of all; None when every tier is negative. */
  function Priciest(models: seq<Model>): Option<Model> {
    if models == [] then None
    else
      var best := Priciest(Init(models));
      if Last(models).tier > (if best.Some? then best.value.tier else -1) then Some(Last(models)) else best
  }

  function IdOf(m: Option<Model>): string { if m.Some? then m.value.id else "" }

  function Ceiling(models: seq<Model>, reason: Reason, confidence: F64, effort: Effort, m: Option<Model>, unsure: bool): Decision {
    Decision(IdOf(if m.Some? then m else Priciest(models)), effort, reason, confidence, unsure)
  }

  /** The band a complexity reading falls into; None above the last one. */
  function BandOf(c: F64): Option<Band> {
    if Less(c, Fin(0.25)) then Some(BANDS[0])
    else if Less(c, Fin(0.5)) then Some(BANDS[1])
    else if Less(c, Fin(0.75)) then Some(BANDS[2])
    else None
  }

  /** The decision as a function of the two readings alone. */
  function Choice(models: seq<Model>, c: F64, k: F64, threshold: F64): Decision {
    if AtLeast(c, VERY_HIGH_COMPLEXITY) then Ceiling(models, VeryHard, k, XHigh, HighCeiling(models), false)
    else if threshold.NaN? || Less(k, threshold) then
      Ceiling(models, ThinEvidence, ZERO, High, UnsureCeiling(models), true)
    else
      var band := BandOf(c);
      if band.None? then Ceiling(models, TooHardToDownshift, k, High, HighCeiling(models), false)
      else if FirstAtTier(models, band.value.tier).None? then
        Ceiling(models, CatalogGap, k, High, HighCeiling(models), false)
      else Decision(FirstAtTier(models, band.value.tier).value.id, band.value.effort, Downshift, k, false)
  }

  function Routed(ev: seq<Evidence>, models: seq<Model>, threshold: F64): Decision {
    if ev == [] then Ceiling(models, ThinEvidence, ZERO, High, UnsureCeiling(models), true)
    else if HasNaN(ev) then Ceiling(models, NaNEvidence, ZERO, High, UnsureCeiling(models), true)
    else Choice(models, MaxComplexity(ev), MinConfidence(ev), threshold)
  }

  // ---- the imperative form ----

  method CeilingDecision(models: seq<Model>, reason: Reason, confidence: F64, effort: Effort, m: Option<Model>)
    returns (d: Decision)
    ensures d == Ceiling(models, reason, confidence, effort, m, false)
  {
    var chosen := m;
    if m.None? {
      var best := -1;
      for i := 0 to |models|
        invariant chosen == Priciest(models[..i])
        invariant best == if chosen.Some? then chosen.value.tier else -1
      {
        assert Init(models[..i + 1]) == models[..i];
        if models[i].tier > best {
          best := models[i].tier;
          chosen := Some(models[i]);
        }
      }
      assert models[..|models|] == models;
    }
    return Decision(IdOf(chosen), effort, reason, confidence, false);
  }

  method ModelAtTier(models: seq<Model>, tier: int) returns (r: Option<Model>)
    ensures r == FirstAtTier(models, tier)
  {
    for i := 0 to |models|
      invariant FirstAtTier(models[..i], tier).None?
    {
      assert Init(models[..i + 1]) == models[..i];
      if models[i].tier == tier {
        TierStays(models, tier, i + 1);
        return Some(models[i]);
      }
    }
    assert models[..|models|] == models;
    return None;
  }

  lemma {:induction false} TierStays(models: seq<Model>, tier: int, n: nat)
    requires n <= |models| && FirstAtTier(models[..n], tier).Some?
    ensures FirstAtTier(models, tier) == FirstAtTier(models[..n], tier)
    decreases |models| - n
  {
    if n == |models| {
      assert models[..n] == models;
    } else {
      assert Init(models[..n + 1]) == models[..n];
      TierStays(models, tier, n + 1);
    }
  }

  method Decide(evidence: seq<Evidence>, models: seq<Model>, threshold: F64) returns (d: Decision)
    ensures d == Routed(evidence, models, threshold)
  {
    var unsureCeiling := ResolveUnsureCeiling(models);
    var highCeiling := ResolveHighCeiling(models);
    var ceiling := CeilingDecision(models, ThinEvidence, ZERO, High, unsureCeiling);
    ceiling := ceiling.(unsure := true);
    if |evidence| == 0 {
      return ceiling;
    }
    var maxComplexity, minConfidence := ZERO, ONE;
    for i := 0 to |evidence|
      invariant !HasNaN(evidence[..i])
      invariant maxComplexity == MaxComplexity(evidence[..i])
      invariant minConfidence == MinConfidence(evidence[..i])
    {
      assert evidence[..i + 1][..i] == evidence[..i];
      var e := evidence[i];
      if e.complexity.NaN? || e.confidence.NaN? {
        d := CeilingDecision(models, NaNEvidence, ZERO, High, unsureCeiling);
        return d.(unsure := true);
      }
      if Less(maxComplexity, e.complexity) {
        maxComplexity := e.complexity;
      }
      if Less(e.confidence, minConfidence) {
        minConfidence := e.confidence;
      }
    }
    assert evidence[..|evidence|] == evidence;
    if AtLeast(maxComplexity, VERY_HIGH_COMPLEXITY) {
      d := CeilingDecision(models, VeryHard, minConfidence, XHigh, highCeiling);
      return;
    }
    if threshold.NaN? || Less(minConfidence, threshold) {
      return ceiling;
    }
    for i := 0 to |BANDS|
      invariant forall k :: 0 <= k < i ==> !Less(maxComplexity, Fin(BANDS[k].maxComplexity))
    {
      if Less(maxComplexity, Fin(BANDS[i].maxComplexity)) {
        assert BandOf(maxComplexity) == Some(BANDS[i]);
        var m := ModelAtTier(models, BANDS[i].tier);
        if m.None? {
          d := CeilingDecision(models, CatalogGap, minConfidence, High, highCeiling);
          return;
        }
        return Decision(m.value.id, BANDS[i].effort, Downshift, minConfidence, false);
      }
    }
    d := CeilingDecision(models, TooHardToDownshift, minConfidence, High, highCeiling);
  }
}
