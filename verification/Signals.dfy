/** Collecting evidence from providers, and the numbers the built-in providers
    can produce. What a provider reads from git or the file system is an input. */
module Signals {
  import opened Wrappers
  import opened Floats
  import C = Catalog
  import opened Kernel
  import KernelLaws

  /** One provider's answer; None is an error. A quiet provider is a bonus
      signal whose error is not a gap. */
  datatype Reading = Reading(name: string, quiet: bool, result: Option<Evidence>)

  const UNKNOWN := Evidence("unknown", ZERO, ZERO)

  function Succeeded(readings: seq<Reading>): seq<Evidence> {
    if readings == [] then []
    else
      var rest, r := Succeeded(readings[..|readings| - 1]), readings[|readings| - 1].result;
      if r.Some? then rest + [r.value] else rest
  }

  function Gaps(readings: seq<Reading>): seq<string> {
    if readings == [] then []
    else
      var rest, r := Gaps(readings[..|readings| - 1]), readings[|readings| - 1];
      if r.result.None? && !r.quiet then rest + [r.name] else rest
  }

  function Collected(readings: seq<Reading>): seq<Evidence> {
    Succeeded(readings) + (if Gaps(readings) == [] then [] else [UNKNOWN])
  }

  method AssessAll(readings: seq<Reading>) returns (out: seq<Evidence>, skipped: seq<string>)
    ensures out == Collected(readings) && skipped == Gaps(readings)
  {
    out, skipped := [], [];
    for i := 0 to |readings|
      invariant out == Succeeded(readings[..i]) && skipped == Gaps(readings[..i])
    {
      assert readings[..i + 1][..i] == readings[..i];
      var p := readings[i];
      if p.result.None? {
        if p.quiet {
          continue;
        }
        skipped := skipped + [p.name];
        continue;
      }
      out := out + [p.result.value];
    }
    assert readings[..|readings|] == readings;
    if |skipped| > 0 {
      out := out + [UNKNOWN];
    }
  }

  lemma {:induction false} SucceededJoins(a: seq<Reading>, b: seq<Reading>)
    ensures Succeeded(a + b) == Succeeded(a) + Succeeded(b)
    ensures Gaps(a + b) == Gaps(a) + Gaps(b)
  {
    if b == [] {
      assert a + b == a;
    } else {
      assert (a + b)[..|a + b| - 1] == a + b[..|b| - 1];
      SucceededJoins(a, b[..|b| - 1]);
    }
  }

  /** A quiet skip leaves the evidence exactly as it was. */
  lemma QuietSkipIsInvisible(a: seq<Reading>, r: Reading, b: seq<Reading>)
    requires r.quiet && r.result.None?
    ensures Collected(a + [r] + b) == Collected(a + b)
  {
    SucceededJoins(a + [r], b);
    SucceededJoins(a, [r]);
    SucceededJoins(a, b);
    assert [r][..0] == [];
  }

  /** Exactly the errors of providers that are not quiet are gaps. */
  lemma {:induction false} GapsAre(readings: seq<Reading>)
    ensures Gaps(readings) != [] <==> exists r :: r in readings && r.result.None? && !r.quiet
  {
    if readings != [] {
      assert readings == readings[..|readings| - 1] + [readings[|readings| - 1]];
      GapsAre(readings[..|readings| - 1]);
    }
  }

  lemma {:induction false} SucceededMembers(readings: seq<Reading>, e: Evidence)
    ensures e in Succeeded(readings) <==> exists r :: r in readings && r.result == Some(e)
  {
    if readings != [] {
      assert readings == readings[..|readings| - 1] + [readings[|readings| - 1]];
      SucceededMembers(readings[..|readings| - 1], e);
    }
  }

  // ---- when a downshift happens ----

  /** A downshift needs every item at or above the bar and below 0.75. */
  lemma DownshiftNeeds(ev: seq<Evidence>, models: seq<C.Model>, t: F64)
    ensures Routed(ev, models, t).reason.Downshift? <==>
      && ev != [] && !HasNaN(ev) && !t.NaN? && !Less(ONE, t)
      && (forall e :: e in ev ==> !Less(e.confidence, t) && Less(e.complexity, Fin(0.75)))
      && BandOf(MaxComplexity(ev)).Some? && C.FirstAtTier(models, BandOf(MaxComplexity(ev)).value.tier).Some?
  {
    if !HasNaN(ev) {
      KernelLaws.MaxComplexityIs(ev);
      KernelLaws.MaxBelow(ev, 0.75);
      if !t.NaN? { KernelLaws.MinReaches(ev, t); }
    }
  }

  /** A gap rules out every downshift at any threshold above zero. */
  lemma GapBlocksDownshift(readings: seq<Reading>, r: Reading, models: seq<C.Model>, t: F64)
    requires r in readings && r.result.None? && !r.quiet
    requires t.NaN? || Less(ZERO, t)
    ensures !Routed(Collected(readings), models, t).reason.Downshift?
  {
    GapsAre(readings);
    assert Collected(readings)[|Collected(readings)| - 1] == UNKNOWN;
    assert UNKNOWN in Collected(readings);
    DownshiftNeeds(Collected(readings), models, t);
  }

  /** And what the kernel does with one: the high ceiling at the highest effort
      when some reading is 0.9 or more, else the unsure ceiling. */
  lemma GapDecision(readings: seq<Reading>, r: Reading, models: seq<C.Model>, t: F64)
    requires r in readings && r.result.None? && !r.quiet
    requires t.NaN? || Less(Fin(0.0), t)
    requires forall q :: q in readings && q.result.Some? ==> !q.result.value.complexity.NaN? && !q.result.value.confidence.NaN?
    ensures var d := Routed(Collected(readings), models, t);
      if exists q :: q in readings && q.result.Some? && AtLeast(q.result.value.complexity, Fin(0.9))
      then KernelLaws.Names(d, C.HighCeiling(models), XHigh) && !d.unsure
      else KernelLaws.Names(d, C.UnsureCeiling(models), High) && d.unsure
  {
    var ev := Collected(readings);
    GapsAre(readings);
    assert ev[|ev| - 1] == UNKNOWN && UNKNOWN in ev;
    forall e ensures e in ev <==> e == UNKNOWN || exists q :: q in readings && q.result == Some(e) {
      SucceededMembers(readings, e);
    }
    KernelLaws.DecisionTable(ev, models, t);
    if q :| q in readings && q.result.Some? && AtLeast(q.result.value.complexity, Fin(0.9)) {
      assert q.result.value in ev;
    }
  }

  // ---- the built-in providers ----

  /** What the providers read: word hits and counts from the prompt, and what
      git and the file system answered. */
  datatype Scope = Scope(
    blankPrompt: bool, strongHits: nat, mildHits: nat, vagueHits: nat, questionMarks: nat, words: nat,
    files: nat, inRepo: bool, anyTracked: bool, commits: Option<nat>, covered: nat,
    strongAnchor: bool, vaguePhrase: bool, explore: bool)

  function Score(s: Scope): real {
    0.15 * (s.strongHits as real) + 0.1 * (s.mildHits as real) + 0.1 * (s.vagueHits as real)
    + 0.1 * (s.questionMarks as real) + (if s.words > 60 then 0.15 else 0.0)
  }

  function PromptShape(s: Scope): Option<Evidence> {
    if s.blankPrompt then None
    else Some(Evidence("promptshape", Fin(if Score(s) > 1.0 then 1.0 else Score(s)),
                       Fin(if s.strongHits > 0 || s.vagueHits > 0 then 0.35 else 0.85)))
  }

  function FileScope(s: Scope): Option<Evidence> {
    if s.files == 0 then None
    else Some(Evidence("filescope",
      Fin(if s.files == 1 then 0.15 else if s.files <= 3 then 0.4 else if s.files <= 8 then 0.65 else 0.85), Fin(0.85)))
  }

  function GitChurn(s: Scope): Option<Evidence> {
    if !s.inRepo || s.files == 0 || !s.anyTracked || s.commits.None? then None
    else
      var n := s.commits.value;
      Some(Evidence("gitchurn", Fin(if n == 0 then 0.1 else if n <= 3 then 0.3 else if n <= 10 then 0.55 else 0.8), Fin(0.82)))
  }

  function TestPresence(s: Scope): Option<Evidence>
    requires s.covered <= s.files
  {
    if s.files == 0 then None
    else Some(Evidence("testpresence", Fin(0.6 - 0.5 * (s.covered as real / s.files as real)), Fin(0.8)))
  }

  function TaskSpecificity(s: Scope): Option<Evidence> {
    if s.blankPrompt then None
    else Some(Evidence("taskspecificity", ZERO,
      Fin(if s.strongAnchor then 0.85 else if s.vaguePhrase || s.words < 6 then 0.2 else 0.5)))
  }

  function SubagentKind(s: Scope): Option<Evidence> {
    if s.explore then Some(Evidence("subagentkind", Fin(0.1), Fin(0.85))) else None
  }

  function Builtins(s: Scope): seq<Reading>
    requires s.covered <= s.files
  {
    [Reading("promptshape", false, PromptShape(s)), Reading("filescope", false, FileScope(s)),
     Reading("gitchurn", false, GitChurn(s)), Reading("testpresence", false, TestPresence(s)),
     Reading("taskspecificity", false, TaskSpecificity(s)), Reading("subagentkind", true, SubagentKind(s))]
  }

  lemma CollectedMembers(s: Scope, e: Evidence)
    requires s.covered <= s.files
    ensures e in Collected(Builtins(s)) <==>
      || Some(e) in {PromptShape(s), FileScope(s), GitChurn(s), TestPresence(s), TaskSpecificity(s), SubagentKind(s)}
      || (e == UNKNOWN && exists r :: r in Builtins(s) && r.result.None? && !r.quiet)
  {
    var b := Builtins(s);
    SucceededMembers(b, e);
    GapsAre(b);
    assert b[0] in b && b[1] in b && b[2] in b && b[3] in b && b[4] in b && b[5] in b;
  }

  ghost predicate NoGap(s: Scope) {
    !s.blankPrompt && s.files > 0 && s.inRepo && s.anyTracked && s.commits.Some?
  }

  lemma NoGapMeans(s: Scope)
    requires s.covered <= s.files
    ensures NoGap(s) <==> !exists r :: r in Builtins(s) && r.result.None? && !r.quiet
  {
    var b := Builtins(s);
    assert b[0] in b && b[1] in b && b[2] in b && b[3] in b;
  }

  /** Coverage only moves the test reading between 0.1 and 0.6. */
  lemma TestPresenceRange(s: Scope)
    requires s.covered <= s.files && s.files > 0
    ensures 0.1 <= TestPresence(s).value.complexity.r <= 0.6
  {
    var c, n := s.covered as real, s.files as real;
    assert (c / n) * n == c;
    assert 0.0 <= c / n <= 1.0;
  }

  ghost predicate In(e: Option<Evidence>, from: real, to: real) {
    e.Some? && e.value.complexity.Fin? && from <= e.value.complexity.r < to
  }

  /** Which of the kernel's bands a reading of files or commits falls in. */
  lemma CountsInBands(s: Scope)
    ensures In(FileScope(s), 0.0, 0.25) <==> s.files == 1
    ensures In(FileScope(s), 0.25, 0.5) <==> 2 <= s.files <= 3
    ensures In(FileScope(s), 0.5, 0.75) <==> 4 <= s.files <= 8
    ensures In(FileScope(s), 0.75, 0.9) <==> s.files >= 9
    ensures s.inRepo && s.files > 0 && s.anyTracked && s.commits.Some? ==>
      && (In(GitChurn(s), 0.0, 0.25) <==> s.commits.value == 0)
      && (In(GitChurn(s), 0.25, 0.5) <==> 1 <= s.commits.value <= 3)
      && (In(GitChurn(s), 0.5, 0.75) <==> 4 <= s.commits.value <= 10)
      && (In(GitChurn(s), 0.75, 0.9) <==> s.commits.value > 10)
  {}

  /** More tested files lower the reading, from 0.6 with none to 0.1 with all. */
  lemma TestsLower(s: Scope, s': Scope)
    requires s.covered <= s.files && s'.covered <= s'.files && s.files == s'.files > 0
    ensures TestPresence(s').value.complexity.r < TestPresence(s).value.complexity.r <==> s.covered < s'.covered
    ensures s.covered == 0 ==> TestPresence(s).value.complexity == Fin(0.6)
    ensures s.covered == s.files ==> TestPresence(s).value.complexity == Fin(0.1)
  {
    var n := s.files as real;
    var p, q := s.covered as real / n, s'.covered as real / n;
    assert p * n == s.covered as real && q * n == s'.covered as real;
    assert TestPresence(s).value.complexity == Fin(0.6 - 0.5 * p) && TestPresence(s').value.complexity == Fin(0.6 - 0.5 * q);
    Scales(p, q, n);
    Scales(p, 0.0, n);
    Scales(0.0, p, n);
    Scales(p, 1.0, n);
    Scales(1.0, p, n);
  }

  lemma Scales(p: real, q: real, n: real)
    requires n > 0.0
    ensures p < q <==> p * n < q * n
  {
    assert (q - p) * n == q * n - p * n;
    if p < q { assert (q - p) * n > 0.0; }
    if q < p { assert (p - q) * n > 0.0 && (p - q) * n == p * n - q * n; }
  }

  /** The prompt's reading is the weighted count of what it holds, at most 1; only
      strong and vague words make it doubtful. */
  lemma PromptReading(s: Scope)
    requires !s.blankPrompt
    ensures var sum := 0.15 * (s.strongHits as real) + 0.1 * (s.mildHits as real) + 0.1 * (s.vagueHits as real)
                       + 0.1 * (s.questionMarks as real) + (if s.words > 60 then 0.15 else 0.0);
      PromptShape(s).Some? && PromptShape(s).value.complexity == Fin(if sum < 1.0 then sum else 1.0)
    ensures PromptShape(s).value.confidence == Fin(if s.strongHits + s.vagueHits > 0 then 0.35 else 0.85)
  {}

  /** The built-in evidence is never empty or NaN, and its minimum confidence
      never exceeds the constant the threshold scaling relies on. */
  lemma BuiltinsCapConfidence(s: Scope, models: seq<C.Model>, t: F64)
    requires s.covered <= s.files
    ensures Collected(Builtins(s)) != [] && !HasNaN(Collected(Builtins(s)))
    ensures !Less(Fin(0.8), MinConfidence(Collected(Builtins(s))))
    ensures Less(Fin(0.8), t) ==> !Routed(Collected(Builtins(s)), models, t).reason.Downshift?
  {
    var ev := Collected(Builtins(s));
    forall e | e in ev ensures !e.complexity.NaN? && !e.confidence.NaN? { CollectedMembers(s, e); }
    var low := if TestPresence(s).Some? then TestPresence(s).value else UNKNOWN;
    CollectedMembers(s, low);
    NoGapMeans(s);
    assert low in ev;
    KernelLaws.MinConfidenceIs(ev);
    DownshiftNeeds(ev, models, t);
  }

  /** The least confident of the built-in items: a gap, a vague task, doubtful
      words, an unanchored task, or else the tests. */
  ghost function LowestConfidence(s: Scope): real {
    if !NoGap(s) then 0.0
    else if !s.strongAnchor && (s.vaguePhrase || s.words < 6) then 0.2
    else if s.strongHits + s.vagueHits > 0 then 0.35
    else if !s.strongAnchor then 0.5
    else 0.8
  }

  lemma LowestIs(s: Scope)
    requires s.covered <= s.files
    ensures MinConfidence(Collected(Builtins(s))) == Fin(LowestConfidence(s))
  {
    var ev := Collected(Builtins(s));
    BuiltinsCapConfidence(s, [], ZERO);
    KernelLaws.MinConfidenceIs(ev);
    NoGapMeans(s);
    forall e | e in ev ensures !Less(e.confidence, Fin(LowestConfidence(s))) { CollectedMembers(s, e); }
    var low := if !NoGap(s) then UNKNOWN
               else if LowestConfidence(s) == 0.35 then PromptShape(s).value
               else if LowestConfidence(s) == 0.8 then TestPresence(s).value
               else TaskSpecificity(s).value;
    CollectedMembers(s, low);
    assert low in ev;
  }

  /** No reading of the built-in providers reaches 0.75. */
  ghost predicate Moderate(s: Scope) {
    && (s.blankPrompt || Score(s) < 0.75) && s.files <= 8
    && (s.inRepo && s.files > 0 && s.anyTracked && s.commits.Some? ==> s.commits.value <= 10)
  }

  lemma ModerateIs(s: Scope)
    requires s.covered <= s.files
    ensures Moderate(s) <==> forall e :: e in Collected(Builtins(s)) ==> Less(e.complexity, Fin(0.75))
  {
    if Moderate(s) {
      if s.files > 0 { TestPresenceRange(s); }
      forall e | e in Collected(Builtins(s)) ensures Less(e.complexity, Fin(0.75)) { CollectedMembers(s, e); }
    }
    if forall e :: e in Collected(Builtins(s)) ==> Less(e.complexity, Fin(0.75)) {
      if PromptShape(s).Some? { CollectedMembers(s, PromptShape(s).value); }
      if FileScope(s).Some? { CollectedMembers(s, FileScope(s).value); }
      if GitChurn(s).Some? { CollectedMembers(s, GitChurn(s).value); }
    }
  }

  /** Exactly when the built-in providers allow a downshift, for every bar, in a
      catalog with models at tiers 0 and 1. */
  lemma BuiltinsDownshiftIff(s: Scope, models: seq<C.Model>, t: F64)
    requires s.covered <= s.files
    requires C.FirstAtTier(models, 0).Some? && C.FirstAtTier(models, 1).Some?
    ensures Routed(Collected(Builtins(s)), models, t).reason.Downshift? <==>
      !t.NaN? && !Less(Fin(LowestConfidence(s)), t) && Moderate(s)
  {
    var ev := Collected(Builtins(s));
    BuiltinsCapConfidence(s, models, t);
    DownshiftNeeds(ev, models, t);
    KernelLaws.MaxBelow(ev, 0.75);
    LowestIs(s);
    ModerateIs(s);
    if !t.NaN? { KernelLaws.MinReaches(ev, t); }
  }
}
