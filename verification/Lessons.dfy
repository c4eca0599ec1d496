/** How recorded escalations move the confidence bar for a task shape. */
module Lessons {
  import opened Floats
  import opened Wrappers
  import C = Catalog
  import K = Kernel
  import KernelLaws
  import Sequences

  const ROUTING := "routing"
  const ESCALATION := "escalation"
  const SMOOTHING := 3.0
  const RECENCY_WINDOW := 30 * 24 * 3600  // seconds
  const MAX_ACHIEVABLE_CONFIDENCE := 0.8

  /** `at`: the parsed timestamp in seconds, None when it does not parse. */
  datatype Outcome = Outcome(at: Option<int>, surface: string, taskShape: string, model: string,
                             effort: K.Effort, kind: string, weight: real)

  function EffectiveSurface(o: Outcome): string { if o.surface == "" then ROUTING else o.surface }

  predicate Matches(o: Outcome, taskShape: string) {
    EffectiveSurface(o) == ROUTING && o.taskShape == taskShape && o.kind == ESCALATION
  }

  predicate Recent(o: Outcome, now: int) { o.at.Some? ==> now - o.at.value <= RECENCY_WINDOW }

  function WeightOf(o: Outcome, taskShape: string, now: int): real {
    if Matches(o, taskShape) && Recent(o, now) then o.weight else 0.0
  }

  function EscalationWeight(outcomes: seq<Outcome>, taskShape: string, now: int): real {
    if outcomes == [] then 0.0
    else EscalationWeight(outcomes[..|outcomes| - 1], taskShape, now) + WeightOf(outcomes[|outcomes| - 1], taskShape, now)
  }

  /** The bar as a function of the base and the accumulated weight; a weight of
      exactly -3 divides by zero, giving an infinite negative bias. */
  function Adjusted(base: real, w: real): F64 {
    if base >= MAX_ACHIEVABLE_CONFIDENCE || w == 0.0 then Fin(base)
    else if w + SMOOTHING == 0.0 then NegInf
    else Fin(base + (MAX_ACHIEVABLE_CONFIDENCE - base) * (w / (w + SMOOTHING)))
  }

  function Bar(base: real, outcomes: seq<Outcome>, taskShape: string, now: int): F64 {
    Adjusted(base, EscalationWeight(outcomes, taskShape, now))
  }

  method AdjustedDownshiftThreshold(base: real, outcomes: seq<Outcome>, taskShape: string, now: int) returns (t: F64)
    ensures t == Bar(base, outcomes, taskShape, now)
  {
    if base >= MAX_ACHIEVABLE_CONFIDENCE {
      return Fin(base);
    }
    var escalationWeight := 0.0;
    for i := 0 to |outcomes|
      invariant escalationWeight == EscalationWeight(outcomes[..i], taskShape, now)
    {
      assert outcomes[..i + 1][..i] == outcomes[..i];
      var o := outcomes[i];
      if EffectiveSurface(o) != ROUTING || o.taskShape != taskShape || o.kind != ESCALATION {
        continue;
      }
      if o.at.Some? && now - o.at.value > RECENCY_WINDOW {
        continue;
      }
      escalationWeight := escalationWeight + o.weight;
    }
    assert outcomes[..|outcomes|] == outcomes;
    if escalationWeight == 0.0 {
      return Fin(base);
    }
    if escalationWeight + SMOOTHING == 0.0 {
      return NegInf;
    }
    var bias := escalationWeight / (escalationWeight + SMOOTHING);
    return Fin(base + (MAX_ACHIEVABLE_CONFIDENCE - base) * bias);
  }

  // ---- the weight is a sum over the outcomes, whatever their order ----

  lemma {:induction false} WeightAppends(a: seq<Outcome>, b: seq<Outcome>, taskShape: string, now: int)
    ensures EscalationWeight(a + b, taskShape, now) ==
      EscalationWeight(a, taskShape, now) + EscalationWeight(b, taskShape, now)
  {
    if b == [] {
      assert a + b == a;
    } else {
      var init := b[..|b| - 1];
      assert (a + b)[..|a + b| - 1] == a + init;
      WeightAppends(a, init, taskShape, now);
    }
  }

  lemma {:induction false} OrderIndependent(a: seq<Outcome>, b: seq<Outcome>, base: real, taskShape: string, now: int)
    requires multiset(a) == multiset(b)
    ensures Bar(base, a, taskShape, now) == Bar(base, b, taskShape, now)
  {
    WeightPermutes(a, b, taskShape, now);
  }

  lemma {:induction false} WeightPermutes(a: seq<Outcome>, b: seq<Outcome>, taskShape: string, now: int)
    requires multiset(a) == multiset(b)
    ensures EscalationWeight(a, taskShape, now) == EscalationWeight(b, taskShape, now)
  {
    if a == [] {
      assert |b| == |multiset(b)| == |multiset(a)|;
    } else {
      var x := a[|a| - 1];
      var left, right := Sequences.Rearranged(a, b);
      assert b == left + ([x] + right);
      WeightPermutes(a[..|a| - 1], left + right, taskShape, now);
      WeightAppends(left, [x] + right, taskShape, now);
      WeightAppends([x], right, taskShape, now);
      WeightAppends(left, right, taskShape, now);
      assert [x][..0] == [];
    }
  }

  ghost predicate NonNegative(outcomes: seq<Outcome>) { forall o :: o in outcomes ==> o.weight >= 0.0 }

  lemma {:induction false} WeightNonNegative(outcomes: seq<Outcome>, taskShape: string, now: int)
    requires NonNegative(outcomes)
    ensures EscalationWeight(outcomes, taskShape, now) >= 0.0
  {
    if outcomes != [] {
      WeightNonNegative(outcomes[..|outcomes| - 1], taskShape, now);
    }
  }

  lemma {:induction false} WeightFades(outcomes: seq<Outcome>, taskShape: string, now: int, later: int)
    requires NonNegative(outcomes) && now <= later
    ensures EscalationWeight(outcomes, taskShape, later) <= EscalationWeight(outcomes, taskShape, now)
  {
    if outcomes != [] {
      assert outcomes[|outcomes| - 1] in outcomes;
      WeightFades(outcomes[..|outcomes| - 1], taskShape, now, later);
    }
  }

  // ---- the bar as a function of the weight ----

  lemma BiasMonotone(w: real, w': real)
    requires w > -SMOOTHING && w' > -SMOOTHING
    ensures w / (w + SMOOTHING) <= w' / (w' + SMOOTHING) <==> w <= w'
    ensures w / (w + SMOOTHING) < 1.0
    ensures w / (w + SMOOTHING) >= 0.0 <==> w >= 0.0
  {
    var a, b := w + SMOOTHING, w' + SMOOTHING;
    var p, q := w / a, w' / b;
    assert p * a == w && q * b == w';
    assert (1.0 - p) * a == SMOOTHING && (1.0 - q) * b == SMOOTHING;
    ShareShrinks(1.0 - p, a, 1.0 - q, b);
    ShareShrinks(1.0 - q, b, 1.0 - p, a);
    SameSign(p, a);
    assert 1.0 - p > 0.0;
    assert p <= q <==> 1.0 - q <= 1.0 - p;
  }

  lemma SameSign(p: real, a: real)
    requires a > 0.0
    ensures p * a >= 0.0 <==> p >= 0.0
  {
    if p < 0.0 { assert (0.0 - p) * a > 0.0; }
  }

  lemma ShareShrinks(u: real, a: real, v: real, b: real)
    requires u * a == v * b == SMOOTHING && a > 0.0 && b > 0.0
    ensures u > 0.0 && v > 0.0
    ensures a <= b ==> v <= u
    ensures a < b ==> v < u
  {
    assert u > 0.0 && v > 0.0;
    if a <= b {
      assert u * (b - a) >= 0.0;
      assert u * b - u * a == u * (b - a);
      assert (u - v) * b == u * b - v * b;
      if a < b { assert u * (b - a) > 0.0; }
    }
  }

  lemma AdjustedMonotone(base: real, w: real, w': real)
    requires base < MAX_ACHIEVABLE_CONFIDENCE && w > -SMOOTHING && w' > -SMOOTHING
    ensures !Less(Adjusted(base, w'), Adjusted(base, w)) <==> w <= w'
    ensures Less(Adjusted(base, w), Fin(MAX_ACHIEVABLE_CONFIDENCE))
    ensures !Less(Adjusted(base, w), Fin(base)) <==> w >= 0.0
  {
    BiasMonotone(w, w');
    var room, p, q := MAX_ACHIEVABLE_CONFIDENCE - base, w / (w + SMOOTHING), w' / (w' + SMOOTHING);
    AdjustedIs(base, w);
    AdjustedIs(base, w');
    Scaled(room, p, q);
    Scaled(room, p, 1.0);
    Scaled(room, 0.0, p);
    assert room * 1.0 == room && room * 0.0 == 0.0;
    assert p != 1.0;
  }

  lemma AdjustedIs(base: real, w: real)
    requires base < MAX_ACHIEVABLE_CONFIDENCE && w + SMOOTHING != 0.0
    ensures Adjusted(base, w) == Fin(base + (MAX_ACHIEVABLE_CONFIDENCE - base) * (w / (w + SMOOTHING)))
  {
    if w == 0.0 { assert 0.0 / SMOOTHING == 0.0; }
  }

  lemma Scaled(room: real, p: real, q: real)
    requires room > 0.0
    ensures room * p <= room * q <==> p <= q
    ensures room * p == room * q <==> p == q
  {
    if p < q { assert room * (q - p) > 0.0; }
    if q < p { assert room * (p - q) > 0.0; }
  }

  /** The bar stays in [base, 0.8) and a later clock never raises it. */
  lemma BarInRange(base: real, outcomes: seq<Outcome>, taskShape: string, now: int, later: int)
    requires base < 0.8 && NonNegative(outcomes) && now <= later
    ensures !Less(Bar(base, outcomes, taskShape, now), Fin(base))
    ensures Less(Bar(base, outcomes, taskShape, now), Fin(0.8))
    ensures !Less(Bar(base, outcomes, taskShape, now), Bar(base, outcomes, taskShape, later))
  {
    WeightNonNegative(outcomes, taskShape, now);
    WeightNonNegative(outcomes, taskShape, later);
    WeightFades(outcomes, taskShape, now, later);
    AdjustedMonotone(base, EscalationWeight(outcomes, taskShape, later), EscalationWeight(outcomes, taskShape, now));
    AdjustedMonotone(base, EscalationWeight(outcomes, taskShape, now), EscalationWeight(outcomes, taskShape, later));
  }

  /** An escalation of routing, for this shape, no older than thirty days. */
  predicate Graded(o: Outcome, taskShape: string, now: int) {
    o.surface in {"", "routing"} && o.taskShape == taskShape && o.kind == "escalation" &&
    (o.at.Some? ==> now - o.at.value <= 2_592_000)
  }

  /** Any other outcome leaves the bar where it is. */
  lemma OthersLeaveBar(base: real, outcomes: seq<Outcome>, o: Outcome, taskShape: string, now: int)
    requires !Graded(o, taskShape, now)
    ensures Bar(base, outcomes + [o], taskShape, now) == Bar(base, outcomes, taskShape, now)
  {
    assert (outcomes + [o])[..|outcomes|] == outcomes;
  }

  function WeightSum(outcomes: seq<Outcome>): real {
    if outcomes == [] then 0.0 else WeightSum(outcomes[..|outcomes| - 1]) + outcomes[|outcomes| - 1].weight
  }

  lemma {:induction false} GradedWeights(outcomes: seq<Outcome>, taskShape: string, now: int)
    requires forall o :: o in outcomes ==> Graded(o, taskShape, now)
    ensures EscalationWeight(outcomes, taskShape, now) == WeightSum(outcomes)
  {
    if outcomes != [] {
      assert outcomes[|outcomes| - 1] in outcomes;
      GradedWeights(outcomes[..|outcomes| - 1], taskShape, now);
    }
  }

  lemma AdjustedMeans(base: real, w: real)
    requires base < 0.8
    ensures w + 3.0 != 0.0 ==> Adjusted(base, w) == Fin(base + (0.8 - base) * (w / (w + 3.0)))
    ensures w + 3.0 == 0.0 ==> Adjusted(base, w) == NegInf
  {
    if w + 3.0 != 0.0 { AdjustedIs(base, w); }
  }

  /** Escalations of total weight w put the bar w / (w + 3) of the way from the
      base to 0.8. */
  lemma BarAfter(base: real, outcomes: seq<Outcome>, taskShape: string, now: int, w: real)
    requires base < 0.8 && forall o :: o in outcomes ==> Graded(o, taskShape, now)
    requires w == WeightSum(outcomes)
    ensures w + 3.0 != 0.0 ==> Bar(base, outcomes, taskShape, now) == Fin(base + (0.8 - base) * (w / (w + 3.0)))
    ensures w + 3.0 == 0.0 ==> Bar(base, outcomes, taskShape, now) == NegInf
  {
    GradedWeights(outcomes, taskShape, now);
    AdjustedMeans(base, w);
  }

  /** That is n / (n + 3) for n escalations as the daemon records them. */
  lemma {:induction false} UnitWeights(outcomes: seq<Outcome>)
    requires forall o :: o in outcomes ==> o.weight == 1.0
    ensures WeightSum(outcomes) == |outcomes| as real
  {
    if outcomes != [] {
      assert outcomes[|outcomes| - 1] in outcomes;
      UnitWeights(outcomes[..|outcomes| - 1]);
    }
  }

  /** A base of 0.8 or more is left alone. */
  lemma HighBaseStays(base: real, outcomes: seq<Outcome>, taskShape: string, now: int)
    requires base >= 0.8
    ensures Bar(base, outcomes, taskShape, now) == Fin(base)
  {}

  /** A total below -3 makes the bias more than 1. */
  lemma FlippedBias(w: real) returns (over: real)
    requires w < -SMOOTHING
    ensures over == w / (w + SMOOTHING) - 1.0 && over > 0.0 && over * (-w - SMOOTHING) == SMOOTHING
  {
    var a := w + SMOOTHING;
    var p := w / a;
    assert p * a == w;
    over := p - 1.0;
    assert over * a == p * a - a;
    assert over * (-w - SMOOTHING) == -(over * a);
    SameSign(over, -a);
    assert over != 0.0;
  }

  /** So the bar lies above 0.8 there, and rises with the total. */
  lemma Flipped(base: real, w: real, w': real)
    requires base < MAX_ACHIEVABLE_CONFIDENCE && w < -SMOOTHING && w' < -SMOOTHING
    ensures Less(Fin(MAX_ACHIEVABLE_CONFIDENCE), Adjusted(base, w))
    ensures !Less(Adjusted(base, w'), Adjusted(base, w)) <==> w <= w'
  {
    var u := FlippedBias(w);
    var v := FlippedBias(w');
    var room := MAX_ACHIEVABLE_CONFIDENCE - base;
    ShareShrinks(u, -w - SMOOTHING, v, -w' - SMOOTHING);
    ShareShrinks(v, -w' - SMOOTHING, u, -w - SMOOTHING);
    Scaled(room, 1.0, 1.0 + u);
    Scaled(room, 1.0 + u, 1.0 + v);
    assert room * 1.0 == room;
    assert Adjusted(base, w) == Fin(base + room * (1.0 + u)) && Adjusted(base, w') == Fin(base + room * (1.0 + v));
  }

  /** Adding a weight to a total does not lower the bar: within one side of -3
      the weight is not negative; and from above -3 to below it the bar goes up,
      from below to above it comes down, at -3 itself it is lowest. */
  predicate Holds(total: real, weight: real) {
    if total > -SMOOTHING then weight >= 0.0 || total + weight < -SMOOTHING
    else total == -SMOOTHING || (weight >= 0.0 && total + weight < -SMOOTHING)
  }

  /** One more escalation of this shape does not lower the bar exactly when
      Holds says so, whatever the weights. */
  lemma OneMoreRaises(base: real, outcomes: seq<Outcome>, o: Outcome, now: int)
    requires base < MAX_ACHIEVABLE_CONFIDENCE && Matches(o, o.taskShape) && Recent(o, now)
    ensures !Less(Bar(base, outcomes + [o], o.taskShape, now), Bar(base, outcomes, o.taskShape, now)) <==>
      Holds(EscalationWeight(outcomes, o.taskShape, now), o.weight)
  {
    OneMoreWeighs(outcomes, o, now);
    MovesBar(base, EscalationWeight(outcomes, o.taskShape, now), o.weight);
  }

  lemma OneMoreWeighs(outcomes: seq<Outcome>, o: Outcome, now: int)
    requires Matches(o, o.taskShape) && Recent(o, now)
    ensures EscalationWeight(outcomes + [o], o.taskShape, now) == EscalationWeight(outcomes, o.taskShape, now) + o.weight
  {
    assert (outcomes + [o])[..|outcomes|] == outcomes;
  }

  lemma MovesBar(base: real, w: real, more: real)
    requires base < MAX_ACHIEVABLE_CONFIDENCE
    ensures !Less(Adjusted(base, w + more), Adjusted(base, w)) <==> Holds(w, more)
  {
    var w' := w + more;
    if w > -SMOOTHING { AdjustedMonotone(base, w, w); }
    if w' > -SMOOTHING { AdjustedMonotone(base, w', w'); }
    if w < -SMOOTHING { Flipped(base, w, w); }
    if w' < -SMOOTHING { Flipped(base, w', w'); }
    if w > -SMOOTHING && w' > -SMOOTHING { AdjustedMonotone(base, w, w'); }
    if w < -SMOOTHING && w' < -SMOOTHING { Flipped(base, w, w'); }
  }

  lemma AppendRaises(base: real, outcomes: seq<Outcome>, more: seq<Outcome>, taskShape: string, now: int)
    requires NonNegative(outcomes) && NonNegative(more)
    ensures KernelLaws.ThresholdRaised(Bar(base, outcomes, taskShape, now), Bar(base, outcomes + more, taskShape, now))
  {
    if base < MAX_ACHIEVABLE_CONFIDENCE {
      WeightNonNegative(outcomes, taskShape, now);
      WeightNonNegative(more, taskShape, now);
      WeightAppends(outcomes, more, taskShape, now);
      AdjustedMonotone(base, EscalationWeight(outcomes, taskShape, now), EscalationWeight(outcomes + more, taskShape, now));
    }
  }

  /** Learning only makes downshifting harder, in any catalog: after any further
      escalations every downshift is one the kernel gave before. */
  lemma LearningAddsNoDownshift(ev: seq<K.Evidence>, models: seq<C.Model>, base: real, outcomes: seq<Outcome>,
                                more: seq<Outcome>, taskShape: string, now: int)
    requires NonNegative(outcomes) && NonNegative(more)
    ensures var t, t' := Bar(base, outcomes, taskShape, now), Bar(base, outcomes + more, taskShape, now);
      K.Routed(ev, models, t').reason.Downshift? ==> K.Routed(ev, models, t) == K.Routed(ev, models, t')
  {
    AppendRaises(base, outcomes, more, taskShape, now);
    KernelLaws.HigherBarAddsNoDownshift(ev, models, Bar(base, outcomes, taskShape, now), Bar(base, outcomes + more, taskShape, now));
  }

  /** And in every valid catalog with distinct ids, learning lowers the tier
      exactly where confident evidence below 0.9 no longer clears the bar and
      the unsure ceiling is lower than what it got. */
  lemma LearningOnlyHardens(ev: seq<K.Evidence>, models: seq<C.Model>, base: real, outcomes: seq<Outcome>,
                            more: seq<Outcome>, taskShape: string, now: int)
    requires NonNegative(outcomes) && NonNegative(more)
    requires C.WellFormed(models) && C.DistinctIds(models)
    ensures C.UnsureCeiling(models).Some? && C.HighCeiling(models).Some?
    ensures var t, t' := Bar(base, outcomes, taskShape, now), Bar(base, outcomes + more, taskShape, now);
      var d, d' := K.Routed(ev, models, t), K.Routed(ev, models, t');
      && (d'.reason.Downshift? ==> d == d')
      && C.TierFor(models, d.model).Some? && C.TierFor(models, d'.model).Some?
      && (C.TierFor(models, d'.model).value < C.TierFor(models, d.model).value <==>
            KernelLaws.LosesBar(ev, t, t') && KernelLaws.UnsureIsLower(models, K.MaxComplexity(ev)))
  {
    AppendRaises(base, outcomes, more, taskShape, now);
    KernelLaws.HigherBar(ev, models, Bar(base, outcomes, taskShape, now), Bar(base, outcomes + more, taskShape, now));
  }
}
