/** Agent calls of several connections at once: the handler reads the last
    recommendation in one step of the daemon's state and clears it in a later
    one, and other handlers' steps may fall between. */
module Overlap {
  import opened Wrappers
  import opened Catalog
  import opened Sessions
  import opened Escalation

  /** One step: call `id` reads the recommendation, and grades it there; it
      clears it; a call with no model asked for stores its own; anything else. */
  datatype Step =
    | Look(id: nat, call: Call)
    | Clear(id: nat, session: string)
    | Recommend(call: Call)
    | Pass(op: Op)

  predicate Allowed(s: Step) {
    && (s.Pass? ==> !s.op.SetRouting? && !s.op.ClearRouting?)
  }

  function Next(t: Table, models: seq<Model>, s: Step): Table {
    match s
    case Look(_, _) => t
    case Clear(_, session) => After(t, ClearRouting(session))
    case Recommend(c) => if Recommends(models, c) then After(t, SetRouting(c.session, Recommended(models, c))) else t
    case Pass(op) => After(t, op)
  }

  /** The table after the first n steps. */
  function TableAt(t: Table, models: seq<Model>, steps: seq<Step>, n: nat): Table
    requires n <= |steps|
  {
    if n == 0 then t else Next(TableAt(t, models, steps, n - 1), models, steps[n - 1])
  }

  // ---- a call, step by step ----

  function CallSteps(s: Session, models: seq<Model>, id: nat, c: Call): seq<Step> {
    [Look(id, c)]
    + (if Graded(s, models, c).Some? then [Clear(id, c.session), Pass(Log(c.session, None))] else [])
    + [Recommend(c), Pass(NoteAgent(c.session, c.toolUse, c.model)), Pass(Log(c.session, None))]
  }

  lemma TableAtNext(t: Table, models: seq<Model>, steps: seq<Step>, n: nat, s: Step)
    requires n < |steps| && steps[n] == s
    ensures TableAt(t, models, steps, n + 1) == Next(TableAt(t, models, steps, n), models, s)
  {}

  /** Taken without interruption, the steps are the call. */
  lemma CallIsItsSteps(t: Table, models: seq<Model>, id: nat, c: Call)
    requires !c.off
    ensures var steps := CallSteps(At(t, c.session), models, id, c);
      TableAt(t, models, steps, |steps|) == AfterCall(t, models, c)
  {
    var steps := CallSteps(At(t, c.session), models, id, c);
    var n: nat := 1;
    TableAtNext(t, models, steps, 0, Look(id, c));
    if Graded(At(t, c.session), models, c).Some? {
      TableAtNext(t, models, steps, 1, Clear(id, c.session));
      TableAtNext(t, models, steps, 2, Pass(Log(c.session, None)));
      n := 3;
    }
    TableAtNext(t, models, steps, n, Recommend(c));
    TableAtNext(t, models, steps, n + 1, Pass(NoteAgent(c.session, c.toolUse, c.model)));
    TableAtNext(t, models, steps, n + 2, Pass(Log(c.session, None)));
    assert |steps| == n + 3;
  }

  // ---- which recommendation a look finds ----

  predicate Stores(models: seq<Model>, s: Step, session: string) {
    s.Recommend? && s.call.session == session && Recommends(models, s.call)
  }

  /** The step replaces, clears or evicts what is stored for the session. */
  predicate Disturbs(models: seq<Model>, s: Step, session: string) {
    Stores(models, s, session) || (s.Clear? && s.session == session) || (s.Pass? && Evicts(s.op, session))
  }

  /** Step m stored the recommendation that step n finds. */
  ghost predicate Stands(models: seq<Model>, steps: seq<Step>, n: nat, session: string, m: nat)
    requires n <= |steps|
  {
    m < n && Stores(models, steps[m], session) && forall j :: m < j < n ==> !Disturbs(models, steps[j], session)
  }

  /** What is stored is the recommendation that stands, if one does. */
  ghost predicate Matches(models: seq<Model>, steps: seq<Step>, n: nat, session: string)
    requires n <= |steps|
  {
    var stored := At(TableAt(map[], models, steps, n), session).lastRouting;
    && (stored.Some? ==> exists m: nat :: Stands(models, steps, n, session, m))
    && (forall m: nat :: Stands(models, steps, n, session, m) ==> stored == Some(Recommended(models, steps[m].call)))
  }

  lemma StandsNext(models: seq<Model>, steps: seq<Step>, n: nat, session: string, m: nat)
    requires n < |steps|
    ensures Stores(models, steps[n], session) ==> (Stands(models, steps, n + 1, session, m) <==> m == n)
    ensures !Stores(models, steps[n], session) ==>
      (Stands(models, steps, n + 1, session, m) <==> Stands(models, steps, n, session, m) && !Disturbs(models, steps[n], session))
  {}

  lemma StoredNext(t: Table, models: seq<Model>, s: Step, session: string)
    requires Allowed(s)
    ensures At(Next(t, models, s), session).lastRouting ==
      if Stores(models, s, session) then Some(Recommended(models, s.call))
      else if Disturbs(models, s, session) then None
      else At(t, session).lastRouting
  {}

  lemma MatchesNext(models: seq<Model>, steps: seq<Step>, n: nat, session: string)
    requires n < |steps| && Matches(models, steps, n, session)
    requires At(TableAt(map[], models, steps, n + 1), session).lastRouting ==
      if Stores(models, steps[n], session) then Some(Recommended(models, steps[n].call))
      else if Disturbs(models, steps[n], session) then None
      else At(TableAt(map[], models, steps, n), session).lastRouting
    ensures Matches(models, steps, n + 1, session)
  {
    var stored := At(TableAt(map[], models, steps, n + 1), session).lastRouting;
    forall m: nat ensures Stands(models, steps, n + 1, session, m) ==> stored == Some(Recommended(models, steps[m].call)) {
      StandsNext(models, steps, n, session, m);
    }
    if stored.Some? {
      if Stores(models, steps[n], session) {
        StandsNext(models, steps, n, session, n);
      } else {
        var m: nat :| Stands(models, steps, n, session, m);
        StandsNext(models, steps, n, session, m);
      }
    }
  }

  lemma {:induction false} StoredStands(models: seq<Model>, steps: seq<Step>, n: nat, session: string)
    requires n <= |steps| && forall s :: s in steps ==> Allowed(s)
    ensures Matches(models, steps, n, session)
  {
    if n > 0 {
      StoredStands(models, steps, n - 1, session);
      StoredStep(models, steps, n - 1, session);
    }
  }

  lemma StoredStep(models: seq<Model>, steps: seq<Step>, n: nat, session: string)
    requires n < |steps| && Allowed(steps[n]) && Matches(models, steps, n, session)
    ensures Matches(models, steps, n + 1, session)
  {
    TableAtNext(map[], models, steps, n, steps[n]);
    StoredNext(TableAt(map[], models, steps, n), models, steps[n], session);
    MatchesNext(models, steps, n, session);
  }

  // ---- one recommendation graded twice ----

  /** The look at i records an escalation against the recommendation made at m. */
  ghost predicate GradesAt(models: seq<Model>, steps: seq<Step>, i: nat, m: nat) {
    && i < |steps| && steps[i].Look?
    && Graded(At(TableAt(map[], models, steps, i), steps[i].call.session), models, steps[i].call).Some?
    && Stands(models, steps, i, steps[i].call.session, m)
  }

  /** A look grades the recommendation that stands exactly when it asks for more. */
  lemma GradesIff(models: seq<Model>, steps: seq<Step>, i: nat, m: nat)
    requires forall s :: s in steps ==> Allowed(s)
    requires i < |steps| && steps[i].Look?
    ensures GradesAt(models, steps, i, m) <==>
      Stands(models, steps, i, steps[i].call.session, m)
      && AsksMore(models, steps[i].call, steps[m].call.shape, TierFor(models, steps[m].call.model).value)
  {
    StoredStands(models, steps, i, steps[i].call.session);
  }

  /** When one look has graded a recommendation, a later one grades it again
      exactly when it is of the same session, asks for more than the same
      recommendation gave, and nothing between the two looks replaced, cleared
      or evicted what is stored. */
  lemma GradedAgainIff(models: seq<Model>, steps: seq<Step>, i: nat, j: nat, m: nat)
    requires forall s :: s in steps ==> Allowed(s)
    requires i < j < |steps| && GradesAt(models, steps, i, m) && steps[j].Look?
    ensures GradesAt(models, steps, j, m) <==>
      && steps[j].call.session == steps[i].call.session
      && AsksMore(models, steps[j].call, steps[m].call.shape, TierFor(models, steps[m].call.model).value)
      && forall k :: i < k < j ==> !Disturbs(models, steps[k], steps[i].call.session)
  {
    GradesIff(models, steps, j, m);
    assert !Disturbs(models, steps[i], steps[i].call.session);
  }

  /** So it happens only in an overlap: the second look falls between the first
      call's look and its clear. */
  lemma TwiceOnlyInOverlap(models: seq<Model>, steps: seq<Step>, i: nat, j: nat, m: nat, k: nat)
    requires forall s :: s in steps ==> Allowed(s)
    requires i < j && GradesAt(models, steps, i, m) && GradesAt(models, steps, j, m)
    requires i < k < |steps| && steps[k] == Clear(steps[i].id, steps[i].call.session)
    ensures i < j < k
  {
    GradedAgainIff(models, steps, i, j, m);
    assert Disturbs(models, steps[k], steps[i].call.session) && !steps[k].Look?;
  }

  lemma TwoModels(a: Model, b: Model)
    requires a.id != b.id && a.family != b.family
    ensures TierFor([a, b], a.id) == Some(a.tier) && RequestedTier([a, b], b.family) == Some(b.tier)
  {
    assert Init([a, b]) == [a] && Init([a]) == [];
    assert FirstWithId([a], a.id) == Some(a) && FirstWithId([a], b.id) == None;
    assert FirstOfFamily([a], b.family) == None && FirstOfFamily([a, b], b.family) == Some(b);
  }

  /** And it does happen, with any two models: the cheaper one is recommended,
      two calls for the same kind of task ask for the dearer one, both look
      before either clears, and the one recommendation is graded twice. */
  lemma GradedTwice(a: Model, b: Model, first: Call, again: Call) returns (steps: seq<Step>)
    requires a.id != b.id && a.family != b.family && a.tier < b.tier
    requires !first.off && first.requested == "" && first.model == a.id
    requires !again.off && again.requested == b.family != "" && again.session == first.session && again.shape == first.shape
    ensures steps == [Recommend(first), Look(0, again), Look(1, again), Clear(0, first.session), Clear(1, first.session)]
    ensures forall s :: s in steps ==> Allowed(s)
    ensures GradesAt([a, b], steps, 1, 0) && GradesAt([a, b], steps, 2, 0)
  {
    steps := [Recommend(first), Look(0, again), Look(1, again), Clear(0, first.session), Clear(1, first.session)];
    TwoModels(a, b);
    GradesIff([a, b], steps, 1, 0);
    GradesIff([a, b], steps, 2, 0);
  }
}
