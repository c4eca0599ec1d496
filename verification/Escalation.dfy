/** Grading a recommendation: a later call of the session that asks for a
    higher-tier model for the same kind of task counts against the last
    recommendation that was in play. */
module Escalation {
  import opened Wrappers
  import opened Catalog
  import opened Sessions
  import DaemonState

  /** One Agent call as the handler sees it; `model` and `effort` are what the
      kernel decided, `requested` the family the caller asked for, if any. */
  datatype Call = Call(session: string, off: bool, shape: string, requested: string,
                       model: string, effort: string, toolUse: string)

  datatype Outcome = Outcome(session: string, shape: string, model: string, effort: string)

  function FirstOfFamily(models: seq<Model>, family: string): Option<Model> {
    if models == [] then None
    else if FirstOfFamily(Init(models), family).Some? then FirstOfFamily(Init(models), family)
    else if Last(models).family == family then Some(Last(models))
    else None
  }

  function RequestedTier(models: seq<Model>, family: string): Option<int> {
    var m := FirstOfFamily(models, family);
    TierFor(models, if m.Some? then m.value.id else "")
  }

  /** The call asks for more than the recommendation gave, for the same kind of task. */
  predicate AsksMore(models: seq<Model>, c: Call, shape: string, tier: int) {
    && !c.off && c.requested != "" && c.shape == shape
    && RequestedTier(models, c.requested).Some? && RequestedTier(models, c.requested).value > tier
  }

  function Graded(s: Session, models: seq<Model>, c: Call): Option<Outcome> {
    if s.lastRouting.Some? && AsksMore(models, c, s.lastRouting.value.taskShape, s.lastRouting.value.tier)
    then Some(Outcome(c.session, s.lastRouting.value.taskShape, s.lastRouting.value.model, s.lastRouting.value.effort))
    else None
  }

  /** The kernel's recommendation was in play, so the next call can grade it. */
  predicate Recommends(models: seq<Model>, c: Call) {
    !c.off && c.requested == "" && TierFor(models, c.model).Some?
  }

  function AfterCall(t: Table, models: seq<Model>, c: Call): Table {
    if c.off then t
    else
      var t1 := if Graded(At(t, c.session), models, c).Some?
                then After(After(t, ClearRouting(c.session)), Log(c.session, None)) else t;
      var t2 := if Recommends(models, c)
                then After(t1, SetRouting(c.session, Routing(c.shape, c.model, c.effort, TierFor(models, c.model).value)))
                else t1;
      After(After(t2, NoteAgent(c.session, c.toolUse, c.model)), Log(c.session, None))
  }

  // ---- the handler ----

  class Router {
    const models: seq<Model>
    const state: DaemonState.State
    var outcomes: seq<Outcome>

    constructor (models: seq<Model>, state: DaemonState.State)
      ensures this.models == models && this.state == state && outcomes == []
    {
      this.models, this.state, outcomes := models, state, [];
    }

    method FamilyToAnyModelID(family: string) returns (id: string)
      ensures var m := FirstOfFamily(models, family); id == if m.Some? then m.value.id else ""
    {
      for i := 0 to |models|
        invariant FirstOfFamily(models[..i], family) == None
      {
        assert models[..i + 1][..i] == models[..i];
        if models[i].family == family {
          FirstStays(models, family, i + 1);
          return models[i].id;
        }
      }
      assert models[..|models|] == models;
      return "";
    }

    method CheckEscalation(c: Call)
      requires !c.off
      modifies this`outcomes, state
      ensures var graded := Graded(At(old(state.sessions), c.session), models, c);
        && outcomes == old(outcomes) + (if graded.Some? then [graded.value] else [])
        && Same(state.sessions,
             if graded.Some? then After(After(old(state.sessions), ClearRouting(c.session)), Log(c.session, None))
             else old(state.sessions))
    {
      if c.requested == "" {
        return;
      }
      ghost var t := state.sessions;
      var prev := state.GetLastRouting(c.session);
      CreatedSame(t, c.session);
      if prev.None? || c.shape != prev.value.taskShape {
        return;
      }
      var id := FamilyToAnyModelID(c.requested);
      var requestedTier := TierFor(models, id);
      if requestedTier.None? || requestedTier.value <= prev.value.tier {
        return;
      }
      outcomes := outcomes + [Outcome(c.session, prev.value.taskShape, prev.value.model, prev.value.effort)];
      AfterSame(state.sessions, t, ClearRouting(c.session));
      state.ClearLastRouting(c.session);
      AfterSame(state.sessions, After(t, ClearRouting(c.session)), Log(c.session, None));
      state.LogRecord(c.session, None);
    }

    /** The state-changing part of one Agent call. */
    method DecideAgentRouting(c: Call)
      modifies this`outcomes, state
      ensures Same(state.sessions, AfterCall(old(state.sessions), models, c))
      ensures var graded := Graded(At(old(state.sessions), c.session), models, c);
        outcomes == old(outcomes) + (if graded.Some? then [graded.value] else [])
    {
      if c.off {
        return;
      }
      ghost var t := state.sessions;
      CheckEscalation(c);
      ghost var t1 := if Graded(At(t, c.session), models, c).Some?
                      then After(After(t, ClearRouting(c.session)), Log(c.session, None)) else t;
      ghost var t2 := t1;
      if c.requested == "" {
        var tier := TierFor(models, c.model);
        if tier.Some? {
          var routing := Routing(c.shape, c.model, c.effort, tier.value);
          AfterSame(state.sessions, t1, SetRouting(c.session, routing));
          state.SetLastRouting(c.session, routing);
          t2 := After(t1, SetRouting(c.session, routing));
        }
      }
      AfterSame(state.sessions, t2, NoteAgent(c.session, c.toolUse, c.model));
      state.NotePendingAgent(c.session, c.toolUse, c.model);
      AfterSame(state.sessions, After(t2, NoteAgent(c.session, c.toolUse, c.model)), Log(c.session, None));
      state.LogRecord(c.session, None);
    }
  }

  lemma {:induction false} FirstStays(models: seq<Model>, family: string, n: nat)
    requires n <= |models| && FirstOfFamily(models[..n], family).Some?
    ensures FirstOfFamily(models, family) == FirstOfFamily(models[..n], family)
  {
    if n == |models| {
      assert models[..n] == models;
    } else {
      assert Init(models)[..n] == models[..n];
      FirstStays(Init(models), family, n);
    }
  }

  // ---- one call, in plain terms ----

  ghost predicate FirstNamed(models: seq<Model>, id: string, i: nat) {
    i < |models| && models[i].id == id && forall j :: 0 <= j < i ==> models[j].id != id
  }

  ghost predicate FirstInFamily(models: seq<Model>, family: string, i: nat) {
    i < |models| && models[i].family == family && forall j :: 0 <= j < i ==> models[j].family != family
  }

  lemma {:induction false} FamilyFound(models: seq<Model>, family: string)
    ensures FirstOfFamily(models, family).None? <==> forall m :: m in models ==> m.family != family
    ensures forall i: nat :: FirstInFamily(models, family, i) ==> FirstOfFamily(models, family) == Some(models[i])
  {
    if models != [] {
      FamilyFound(Init(models), family);
      assert models == Init(models) + [Last(models)];
      forall i: nat | FirstInFamily(models, family, i) ensures FirstOfFamily(models, family) == Some(models[i]) {
        assert i < |models| - 1 ==> FirstInFamily(Init(models), family, i);
      }
    }
  }

  lemma NamedTier(models: seq<Model>, id: string)
    ensures TierFor(models, id).None? <==> forall m :: m in models ==> m.id != id
    ensures forall i: nat :: FirstNamed(models, id, i) ==> TierFor(models, id) == Some(models[i].tier)
  {
    IdMissing(models, id);
    forall i: nat | FirstNamed(models, id, i) ensures TierFor(models, id) == Some(models[i].tier) {
      FirstIs(models, i);
    }
  }

  /** An Agent call with no model asked for stores what the kernel decided, with
      the tier the catalog gives that model, or leaves what is stored when the
      catalog has no such model. */
  lemma UnsetStores(t: Table, models: seq<Model>, c: Call)
    requires !c.off && c.requested == ""
    ensures var before, after := At(t, c.session).lastRouting, At(AfterCall(t, models, c), c.session).lastRouting;
      && (forall i: nat :: FirstNamed(models, c.model, i) ==> after == Some(Routing(c.shape, c.model, c.effort, models[i].tier)))
      && ((forall m :: m in models ==> m.id != c.model) ==> after == before)
    ensures Graded(At(t, c.session), models, c) == None
  {
    RoutingAfterCall(t, models, c, c.session);
    NamedTier(models, c.model);
  }

  /** A call that asks for a family records the stored recommendation and
      forgets it exactly when the shape is the same and the first model of the
      family is of a higher tier; otherwise the recommendation stays. */
  lemma AskedGrades(t: Table, models: seq<Model>, c: Call, i: nat, k: nat)
    requires !c.off && c.requested != "" && FirstInFamily(models, c.requested, i) && FirstNamed(models, models[i].id, k)
    ensures var before, after := At(t, c.session).lastRouting, At(AfterCall(t, models, c), c.session).lastRouting;
      var more := before.Some? && before.value.taskShape == c.shape && models[k].tier > before.value.tier;
      && (more ==> after == None)
      && (more ==> Graded(At(t, c.session), models, c) ==
                   Some(Outcome(c.session, before.value.taskShape, before.value.model, before.value.effort)))
      && (!more ==> after == before && Graded(At(t, c.session), models, c) == None)
  {
    RoutingAfterCall(t, models, c, c.session);
    FamilyFound(models, c.requested);
    NamedTier(models, models[i].id);
  }

  /** A family the catalog does not have grades nothing, and a call with routing
      switched off changes nothing. */
  lemma UnknownFamily(t: Table, models: seq<Model>, c: Call)
    requires (forall m :: m in models ==> m.id != "") && c.requested != ""
    requires c.off || forall m :: m in models ==> m.family != c.requested
    ensures Graded(At(t, c.session), models, c) == None
    ensures At(AfterCall(t, models, c), c.session).lastRouting == At(t, c.session).lastRouting
    ensures c.off ==> AfterCall(t, models, c) == t
  {
    RoutingAfterCall(t, models, c, c.session);
    FamilyFound(models, c.requested);
    NamedTier(models, "");
  }

  /** Whatever it asks for, the call notes the kernel's model for its own id,
      counts one decision in its session, two when it grades, and leaves every
      other session alone. */
  lemma CallNotes(t: Table, models: seq<Model>, c: Call, other: string)
    requires !c.off && other != c.session
    ensures At(AfterCall(t, models, c), other) == At(t, other)
    ensures var before, after := At(t, c.session), At(AfterCall(t, models, c), c.session);
      var decisions := if Graded(before, models, c).Some? then 2 else 1;
      && (c.toolUse != "" ==> c.toolUse in after.pendingAgents && after.pendingAgents[c.toolUse] == c.model)
      && (c.session != "" ==> after.ledger.decisionCount == before.ledger.decisionCount + decisions)
      && after.ledger.bytesSaved == before.ledger.bytesSaved
  {
    var logged := Log(c.session, None);
    var t1 := if Graded(At(t, c.session), models, c).Some? then After(After(t, ClearRouting(c.session)), logged) else t;
    CountedOnce(t, ClearRouting(c.session), c.session, other);
    CountedOnce(After(t, ClearRouting(c.session)), logged, c.session, other);
    var t2 := t1;
    if Recommends(models, c) {
      var set' := SetRouting(c.session, Recommended(models, c));
      CountedOnce(t1, set', c.session, other);
      t2 := After(t1, set');
    }
    var note := NoteAgent(c.session, c.toolUse, c.model);
    CountedOnce(t2, note, c.session, other);
    CountedOnce(After(t2, note), logged, c.session, other);
  }

  lemma CountedOnce(t: Table, op: Op, session: string, other: string)
    requires (op.ClearRouting? || op.SetRouting? || op.NoteAgent? || op == Log(session, None)) && op.key == session != other
    ensures At(After(t, op), other) == At(t, other)
    ensures At(After(t, op), session).ledger ==
      if op.Log? && session != "" then At(t, session).ledger.(decisionCount := At(t, session).ledger.decisionCount + 1)
      else At(t, session).ledger
    ensures At(After(t, op), session).pendingAgents ==
      if op.NoteAgent? && op.toolUse != ""
      then (if |At(t, session).pendingAgents| >= 256 then map[] else At(t, session).pendingAgents)[op.toolUse := op.model]
      else At(t, session).pendingAgents
  {}

  // ---- runs ----

  /** What the daemon handles, one at a time: an Agent call of some session, or
      any other operation on its state. */
  datatype Event = Delegate(call: Call) | Other(op: Op)

  /** Only the Agent handler writes a session's last recommendation. */
  predicate Plain(e: Event) { e.Other? ==> !e.op.SetRouting? && !e.op.ClearRouting? }

  function Step(t: Table, models: seq<Model>, e: Event): Table {
    match e
    case Delegate(c) => AfterCall(t, models, c)
    case Other(op) => After(t, op)
  }

  function TableAfter(models: seq<Model>, events: seq<Event>): Table {
    if events == [] then map[] else Step(TableAfter(models, events[..|events| - 1]), models, events[|events| - 1])
  }

  /** What the n-th event records. */
  function RecordedAt(models: seq<Model>, events: seq<Event>, n: nat): Option<Outcome>
    requires n < |events|
  {
    match events[n]
    case Delegate(c) => Graded(At(TableAfter(models, events[..n]), c.session), models, c)
    case Other(_) => None
  }

  // ---- which recommendation a call can grade ----

  predicate Makes(models: seq<Model>, e: Event, session: string) {
    e.Delegate? && e.call.session == session && Recommends(models, e.call)
  }

  /** The event takes the session's recommendation out of play. */
  predicate Retires(models: seq<Model>, events: seq<Event>, j: nat, session: string)
    requires j < |events|
  {
    match events[j]
    case Delegate(c) => c.session == session && RecordedAt(models, events, j).Some?
    case Other(op) => Evicts(op, session)
  }

  /** The i-th event made the recommendation that is in play for the session
      after n events: nothing later has replaced, graded or evicted it. */
  ghost predicate InPlay(models: seq<Model>, events: seq<Event>, n: nat, session: string, i: nat)
    requires n <= |events|
  {
    && i < n && Makes(models, events[i], session)
    && (forall j :: i < j < n ==> !Makes(models, events[j], session) && !Retires(models, events, j, session))
  }

  function Recommended(models: seq<Model>, c: Call): Routing
    requires Recommends(models, c)
  {
    Routing(c.shape, c.model, c.effort, TierFor(models, c.model).value)
  }

  lemma RoutingAfterOp(t: Table, op: Op, session: string)
    requires !Ends(op)
    ensures At(After(t, op), session).lastRouting ==
      if Ignored(op) || op.key != session then At(t, session).lastRouting
      else if op.SetRouting? then Some(op.routing) else if op.ClearRouting? then None else At(t, session).lastRouting
  {}

  lemma RoutingAfterCall(t: Table, models: seq<Model>, c: Call, session: string)
    ensures At(AfterCall(t, models, c), session).lastRouting ==
      if c.session != session then At(t, session).lastRouting
      else if Recommends(models, c) then Some(Recommended(models, c))
      else if Graded(At(t, session), models, c).Some? then None
      else At(t, session).lastRouting
  {
    if !c.off {
      var t1 := if Graded(At(t, c.session), models, c).Some?
                then After(After(t, ClearRouting(c.session)), Log(c.session, None)) else t;
      RoutingAfterOp(t, ClearRouting(c.session), session);
      RoutingAfterOp(After(t, ClearRouting(c.session)), Log(c.session, None), session);
      var t2 := t1;
      if Recommends(models, c) {
        RoutingAfterOp(t1, SetRouting(c.session, Recommended(models, c)), session);
        t2 := After(t1, SetRouting(c.session, Recommended(models, c)));
      }
      RoutingAfterOp(t2, NoteAgent(c.session, c.toolUse, c.model), session);
      RoutingAfterOp(After(t2, NoteAgent(c.session, c.toolUse, c.model)), Log(c.session, None), session);
    }
  }

  lemma PrefixAgrees(models: seq<Model>, events: seq<Event>, n: nat, session: string, i: nat)
    requires n < |events|
    ensures InPlay(models, events[..n], n, session, i) <==> InPlay(models, events, n, session, i)
  {
    forall j | 0 <= j < n
      ensures events[..n][j] == events[j] && (Retires(models, events[..n], j, session) <==> Retires(models, events, j, session))
    {
      assert events[..n][..j] == events[..j];
    }
  }

  /** What the last event does to the recommendation in play. */
  lemma InPlayNext(models: seq<Model>, events: seq<Event>, n: nat, session: string, i: nat)
    requires n + 1 == |events|
    ensures Makes(models, events[n], session) ==> (InPlay(models, events, n + 1, session, i) <==> i == n)
    ensures !Makes(models, events[n], session) ==>
      (InPlay(models, events, n + 1, session, i) <==>
       InPlay(models, events[..n], n, session, i) && !Retires(models, events, n, session))
  {
    PrefixAgrees(models, events, n, session, i);
  }

  /** What the last event does to the stored recommendation. */
  lemma StoredNext(models: seq<Model>, events: seq<Event>, n: nat, session: string)
    requires n + 1 == |events| && Plain(events[n])
    ensures At(TableAfter(models, events), session).lastRouting ==
      if Makes(models, events[n], session) then Some(Recommended(models, events[n].call))
      else if Retires(models, events, n, session) then None
      else At(TableAfter(models, events[..n]), session).lastRouting
  {
    if events[n].Delegate? {
      RoutingAfterCall(TableAfter(models, events[..n]), models, events[n].call, session);
    }
  }

  /** What is stored is the recommendation in play, if there is one. */
  ghost predicate StoredMatches(models: seq<Model>, events: seq<Event>, session: string) {
    var stored := At(TableAfter(models, events), session).lastRouting;
    && (stored.Some? ==> exists i: nat :: InPlay(models, events, |events|, session, i))
    && (forall i: nat :: InPlay(models, events, |events|, session, i) ==> stored == Some(Recommended(models, events[i].call)))
  }

  /** The session's stored recommendation is the one in play, and there is none
      exactly when no event made one that still is. */
  lemma {:induction false} StoredIsInPlay(models: seq<Model>, events: seq<Event>, session: string)
    requires forall e :: e in events ==> Plain(e)
    ensures StoredMatches(models, events, session)
  {
    if events != [] {
      var n := |events| - 1;
      assert events[n] in events;
      StoredIsInPlay(models, events[..n], session);
      StoredNext(models, events, n, session);
      MatchesNext(models, events, n, session);
    }
  }

  lemma MatchesNext(models: seq<Model>, events: seq<Event>, n: nat, session: string)
    requires n + 1 == |events| && StoredMatches(models, events[..n], session)
    requires At(TableAfter(models, events), session).lastRouting ==
      if Makes(models, events[n], session) then Some(Recommended(models, events[n].call))
      else if Retires(models, events, n, session) then None
      else At(TableAfter(models, events[..n]), session).lastRouting
    ensures StoredMatches(models, events, session)
  {
    forall i: nat
      ensures InPlay(models, events, n + 1, session, i) ==>
        At(TableAfter(models, events), session).lastRouting == Some(Recommended(models, events[i].call))
    {
      InPlayNext(models, events, n, session, i);
    }
    var stored := At(TableAfter(models, events), session).lastRouting;
    if stored.Some? {
      if Makes(models, events[n], session) {
        InPlayNext(models, events, n, session, n);
      } else {
        var i: nat :| InPlay(models, events[..n], n, session, i);
        InPlayNext(models, events, n, session, i);
      }
    }
  }

  /** An Agent call records an escalation exactly when some earlier call of the
      same session left the model unset, its recommendation is still in play,
      the tasks have one shape, and the family asked for is of a higher tier
      than what was recommended; what is recorded is that recommendation. */
  lemma EscalationIff(models: seq<Model>, events: seq<Event>, n: nat)
    requires forall e :: e in events ==> Plain(e)
    requires n < |events| && events[n].Delegate?
    ensures var c := events[n].call;
      RecordedAt(models, events, n).Some? <==>
      exists i: nat :: InPlay(models, events, n, c.session, i)
        && AsksMore(models, c, events[i].call.shape, TierFor(models, events[i].call.model).value)
  {
    var c := events[n].call;
    forall e | e in events[..n] ensures Plain(e) {}
    StoredIsInPlay(models, events[..n], c.session);
    forall i: nat ensures InPlay(models, events[..n], n, c.session, i) <==> InPlay(models, events, n, c.session, i) {
      PrefixAgrees(models, events, n, c.session, i);
    }
  }

  ghost function SourceOf(models: seq<Model>, events: seq<Event>, n: nat): (i: nat)
    requires n < |events| && events[n].Delegate?
    requires exists i: nat :: InPlay(models, events, n, events[n].call.session, i)
    ensures InPlay(models, events, n, events[n].call.session, i)
  {
    var i: nat :| InPlay(models, events, n, events[n].call.session, i);
    i
  }

  /** What one recorded escalation says about the call whose advice it grades. */
  ghost predicate Grades(models: seq<Model>, events: seq<Event>, n: nat, made: nat) {
    && made < n < |events| && events[made].Delegate? && events[n].Delegate?
    && events[made].call.requested == "" && events[n].call.requested != ""
    && events[n].call.session == events[made].call.session && events[n].call.shape == events[made].call.shape
    && RecordedAt(models, events, n) ==
         Some(Outcome(events[n].call.session, events[made].call.shape, events[made].call.model, events[made].call.effort))
    && TierFor(models, events[made].call.model).Some? && RequestedTier(models, events[n].call.requested).Some?
    && RequestedTier(models, events[n].call.requested).value > TierFor(models, events[made].call.model).value
  }

  lemma GradesInPlay(models: seq<Model>, events: seq<Event>, n: nat) returns (made: nat)
    requires forall e :: e in events ==> Plain(e)
    requires n < |events| && RecordedAt(models, events, n).Some?
    ensures InPlay(models, events, n, events[n].call.session, made) && Grades(models, events, n, made)
  {
    EscalationIff(models, events, n);
    var c := events[n].call;
    made := SourceOf(models, events, n);
    forall e | e in events[..n] ensures Plain(e) {}
    StoredIsInPlay(models, events[..n], c.session);
    PrefixAgrees(models, events, n, c.session, made);
  }

  /** Recorded escalations map one-to-one to earlier calls that left the model
      unset: the same session and shape, that call's model, a strictly higher
      tier asked for, and no recommendation graded twice. */
  lemma GradedOnce(models: seq<Model>, events: seq<Event>) returns (source: map<nat, nat>)
    requires forall e :: e in events ==> Plain(e)
    ensures forall n: nat :: n in source <==> n < |events| && RecordedAt(models, events, n).Some?
    ensures forall n: nat :: n in source ==> Grades(models, events, n, source[n])
    ensures forall n: nat, m: nat :: n in source && m in source && n != m ==> source[n] != source[m]
  {
    forall n: nat | n < |events| && RecordedAt(models, events, n).Some?
      ensures exists i: nat :: InPlay(models, events, n, events[n].call.session, i) && Grades(models, events, n, i)
    {
      var made := GradesInPlay(models, events, n);
    }
    source := map n: nat | n < |events| && RecordedAt(models, events, n).Some? :: SourceOf(models, events, n);
    forall n: nat, m: nat | n in source && m in source && n < m ensures source[n] != source[m] {
      NotTwice(models, events, n, m, source[n]);
    }
  }

  /** A graded recommendation is not in play any more. */
  lemma NotTwice(models: seq<Model>, events: seq<Event>, n: nat, m: nat, made: nat)
    requires n < m < |events| && RecordedAt(models, events, n).Some? && events[m].Delegate?
    requires InPlay(models, events, n, events[n].call.session, made)
    ensures !InPlay(models, events, m, events[m].call.session, made)
  {
    assert Retires(models, events, n, events[n].call.session);
  }
}
