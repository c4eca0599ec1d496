/** The model catalog: its validity check and the two ceilings it resolves. */
module Catalog {
  import opened Wrappers

  const UNSURE_CEILING := "unsure_ceiling"
  const HIGH_CEILING := "high_ceiling"

  datatype Model = Model(id: string, family: string, inputPrice: real, outputPrice: real,
                         tier: int, role: string)

  function Last<T>(s: seq<T>): T requires s != [] { s[|s| - 1] }
  function Init<T>(s: seq<T>): seq<T> requires s != [] { s[..|s| - 1] }

  /** First model whose role is `role`. */
  function FirstWithRole(models: seq<Model>, role: string): Option<Model> {
    if models == [] then None
    else if FirstWithRole(Init(models), role).Some? then FirstWithRole(Init(models), role)
    else if Last(models).role == role then Some(Last(models))
    else None
  }

  function FirstAtTier(models: seq<Model>, tier: int): Option<Model> {
    if models == [] then None
    else if FirstAtTier(Init(models), tier).Some? then FirstAtTier(Init(models), tier)
    else if Last(models).tier == tier then Some(Last(models))
    else None
  }

  function FirstWithId(models: seq<Model>, id: string): Option<Model> {
    if models == [] then None
    else if FirstWithId(Init(models), id).Some? then FirstWithId(Init(models), id)
    else if Last(models).id == id then Some(Last(models))
    else None
  }

  function TierFor(models: seq<Model>, id: string): Option<int> {
    var m := FirstWithId(models, id);
    if m.Some? then Some(m.value.tier) else None
  }

  /** First model of the highest tier in 0..maxTier; None when no tier lies there. */
  function HighestUpTo(models: seq<Model>, maxTier: int): Option<Model> {
    if models == [] then None
    else
      var best := HighestUpTo(Init(models), maxTier);
      var m := Last(models);
      if m.tier <= maxTier && m.tier > (if best.Some? then best.value.tier else -1) then Some(m) else best
  }

  function UnsureCeiling(models: seq<Model>): Option<Model> {
    var tagged := FirstWithRole(models, UNSURE_CEILING);
    if tagged.Some? then tagged else HighestUpTo(models, 1)
  }

  function HighCeiling(models: seq<Model>): Option<Model> {
    var tagged := FirstWithRole(models, HIGH_CEILING);
    if tagged.Some? then tagged else HighestUpTo(models, 2)
  }

  // ---- what the scans mean ----

  lemma {:induction false} RoleFound(models: seq<Model>, role: string)
    ensures FirstWithRole(models, role).None? <==> forall m :: m in models ==> m.role != role
    ensures FirstWithRole(models, role).Some? ==>
      FirstWithRole(models, role).value in models && FirstWithRole(models, role).value.role == role
  {
    if models != [] {
      RoleFound(Init(models), role);
      assert models == Init(models) + [Last(models)];
    }
  }

  lemma {:induction false} TierFound(models: seq<Model>, tier: int)
    ensures FirstAtTier(models, tier).None? <==> forall m :: m in models ==> m.tier != tier
    ensures FirstAtTier(models, tier).Some? ==>
      FirstAtTier(models, tier).value in models && FirstAtTier(models, tier).value.tier == tier
  {
    if models != [] {
      TierFound(Init(models), tier);
      assert models == Init(models) + [Last(models)];
    }
  }

  lemma {:induction false} HighestFound(models: seq<Model>, maxTier: int)
    ensures HighestUpTo(models, maxTier).None? <==> forall m :: m in models ==> !(0 <= m.tier <= maxTier)
    ensures var best := HighestUpTo(models, maxTier);
      best.Some? ==>
        && best.value in models && 0 <= best.value.tier <= maxTier
        && forall m :: m in models && m.tier <= maxTier ==> m.tier <= best.value.tier
  {
    if models != [] {
      HighestFound(Init(models), maxTier);
      assert models == Init(models) + [Last(models)];
    }
  }

  /** The i-th model is the first one the scans by role, tier and id look for,
      each exactly when no earlier model will do. */
  lemma {:induction false} FirstIs(models: seq<Model>, i: nat)
    requires i < |models|
    ensures (forall j :: 0 <= j < i ==> models[j].role != models[i].role) ==> FirstWithRole(models, models[i].role) == Some(models[i])
    ensures (forall j :: 0 <= j < i ==> models[j].tier != models[i].tier) ==> FirstAtTier(models, models[i].tier) == Some(models[i])
    ensures (forall j :: 0 <= j < i ==> models[j].id != models[i].id) ==> TierFor(models, models[i].id) == Some(models[i].tier)
  {
    if i == |models| - 1 {
      RoleFound(Init(models), models[i].role);
      TierFound(Init(models), models[i].tier);
      IdMissing(Init(models), models[i].id);
    } else {
      FirstIs(Init(models), i);
    }
  }

  /** Of several models on the highest tier in range, the first is taken. */
  lemma {:induction false} HighestIsFirst(models: seq<Model>, maxTier: int, i: nat)
    requires i < |models| && 0 <= models[i].tier <= maxTier
    requires forall j :: 0 <= j < |models| && models[j].tier <= maxTier ==> models[j].tier <= models[i].tier
    requires forall j :: 0 <= j < i ==> models[j].tier != models[i].tier
    ensures HighestUpTo(models, maxTier) == Some(models[i])
  {
    if i == |models| - 1 {
      HighestFound(Init(models), maxTier);
    } else {
      HighestIsFirst(Init(models), maxTier, i);
    }
  }

  ghost predicate DistinctIds(models: seq<Model>) {
    forall i, j :: 0 <= i < j < |models| ==> models[i].id != models[j].id
  }

  lemma {:induction false} IdFinds(models: seq<Model>, m: Model)
    requires DistinctIds(models) && m in models
    ensures FirstWithId(models, m.id) == Some(m)
  {
    assert models == Init(models) + [Last(models)];
    if m in Init(models) {
      IdFinds(Init(models), m);
    } else {
      IdMissing(Init(models), m.id);
    }
  }

  lemma {:induction false} IdMissing(models: seq<Model>, id: string)
    ensures FirstWithId(models, id).None? <==> forall m :: m in models ==> m.id != id
  {
    if models != [] {
      IdMissing(Init(models), id);
      assert models == Init(models) + [Last(models)];
    }
  }

  // ---- validity ----

  ghost predicate EntryOk(m: Model) {
    m.id != "" && m.family != "" && m.inputPrice > 0.0 && m.outputPrice > 0.0 && m.tier >= 0 &&
    (m.role == "" || m.role == UNSURE_CEILING || m.role == HIGH_CEILING)
  }

  /** Sound rows, no tier and no role twice. */
  ghost predicate RowsDistinct(models: seq<Model>) {
    && (forall m :: m in models ==> EntryOk(m))
    && (forall i, j :: 0 <= i < j < |models| ==> models[i].tier != models[j].tier)
    && (forall i, j :: 0 <= i < j < |models| && models[i].role != "" ==> models[i].role != models[j].role)
  }

  /** A catalog safe to route on. */
  ghost predicate WellFormed(models: seq<Model>) {
    && |models| >= 2
    && RowsDistinct(models)
    && (exists m :: m in models && m.tier == 0)
    && (forall u, h :: u in models && h in models && u.role == UNSURE_CEILING && h.role == HIGH_CEILING
          ==> u.tier < h.tier)
  }

  method ModelWithRole(models: seq<Model>, role: string) returns (r: Option<Model>)
    ensures r == FirstWithRole(models, role)
  {
    for i := 0 to |models|
      invariant FirstWithRole(models[..i], role).None?
    {
      assert Init(models[..i + 1]) == models[..i];
      if models[i].role == role {
        RoleStays(models, role, i + 1);
        return Some(models[i]);
      }
    }
    assert models[..|models|] == models;
    return None;
  }

  lemma {:induction false} RoleStays(models: seq<Model>, role: string, n: nat)
    requires n <= |models| && FirstWithRole(models[..n], role).Some?
    ensures FirstWithRole(models, role) == FirstWithRole(models[..n], role)
    decreases |models| - n
  {
    if n == |models| {
      assert models[..n] == models;
    } else {
      assert Init(models[..n + 1]) == models[..n];
      RoleStays(models, role, n + 1);
    }
  }

  method ModelAtOrBelowTier(models: seq<Model>, maxTier: int) returns (r: Option<Model>)
    ensures r == HighestUpTo(models, maxTier)
  {
    var best := -1;
    r := None;
    for i := 0 to |models|
      invariant r == HighestUpTo(models[..i], maxTier)
      invariant best == if r.Some? then r.value.tier else -1
    {
      assert Init(models[..i + 1]) == models[..i];
      if models[i].tier <= maxTier && models[i].tier > best {
        best := models[i].tier;
        r := Some(models[i]);
      }
    }
    assert models[..|models|] == models;
  }

  method ResolveUnsureCeiling(models: seq<Model>) returns (r: Option<Model>)
    ensures r == UnsureCeiling(models)
  {
    r := ModelWithRole(models, UNSURE_CEILING);
    if r.None? {
      r := ModelAtOrBelowTier(models, 1);
    }
  }

  method ResolveHighCeiling(models: seq<Model>) returns (r: Option<Model>)
    ensures r == HighCeiling(models)
  {
    r := ModelWithRole(models, HIGH_CEILING);
    if r.None? {
      r := ModelAtOrBelowTier(models, 2);
    }
  }

  ghost function Tiers(models: seq<Model>): set<int> { set m | m in models :: m.tier }

  ghost function Roles(models: seq<Model>): set<string> { set m | m in models && m.role != "" :: m.role }

  /** The row-by-row half of the check, in the order the loop meets the rows. */
  ghost predicate RowsOk(models: seq<Model>) {
    models == [] ||
    (RowsOk(Init(models)) && EntryOk(Last(models)) && Last(models).tier !in Tiers(Init(models)) &&
     Last(models).role !in Roles(Init(models)))
  }

  lemma RowsDistinctNext(init: seq<Model>, last: Model)
    requires RowsDistinct(init) && EntryOk(last) && last.tier !in Tiers(init) && last.role !in Roles(init)
    ensures RowsDistinct(init + [last])
  {
    forall i | 0 <= i < |init| ensures init[i].tier != last.tier && (init[i].role != "" ==> init[i].role != last.role) {
      assert init[i] in init;
    }
  }

  lemma RowsDistinctInit(init: seq<Model>, last: Model)
    requires RowsDistinct(init + [last])
    ensures RowsDistinct(init) && EntryOk(last) && last.tier !in Tiers(init) && last.role !in Roles(init)
  {
    var models := init + [last];
    assert models[|init|] == last && last in models;
    forall m | m in init ensures EntryOk(m) && m.tier != last.tier && (m.role != "" ==> m.role != last.role) {
      var i :| 0 <= i < |init| && init[i] == m;
      assert models[i] == m && m in models;
    }
    forall i, j | 0 <= i < j < |init|
      ensures init[i].tier != init[j].tier && (init[i].role != "" ==> init[i].role != init[j].role) {
      assert models[i] == init[i] && models[j] == init[j];
    }
  }

  lemma {:induction false} RowsOkMeans(models: seq<Model>)
    ensures RowsOk(models) <==> RowsDistinct(models)
  {
    if models != [] {
      var init, last := Init(models), Last(models);
      assert models == init + [last];
      RowsOkMeans(init);
      if RowsOk(models) { RowsDistinctNext(init, last); }
      if RowsDistinct(models) { RowsDistinctInit(init, last); }
    }
  }

  lemma {:induction false} RowsOkPrefix(models: seq<Model>, n: nat)
    requires n <= |models| && RowsOk(models)
    ensures RowsOk(models[..n])
  {
    if n < |models| {
      assert Init(models)[..n] == models[..n];
      RowsOkPrefix(Init(models), n);
    } else {
      assert models[..n] == models;
    }
  }

  lemma RowAdds(models: seq<Model>)
    requires models != []
    ensures Tiers(models) == Tiers(Init(models)) + {Last(models).tier}
    ensures Roles(models) == Roles(Init(models)) + (if Last(models).role == "" then {} else {Last(models).role})
  {
    assert models == Init(models) + [Last(models)];
  }

  method ValidRows(models: seq<Model>) returns (ok: bool, hasTierZero: bool)
    ensures ok <==> RowsOk(models)
    ensures ok ==> (hasTierZero <==> 0 in Tiers(models))
  {
    var seenTier: set<int>, seenRole: set<string> := {}, {};
    hasTierZero := false;
    for i := 0 to |models|
      invariant RowsOk(models[..i])
      invariant seenTier == Tiers(models[..i]) && seenRole == Roles(models[..i])
      invariant hasTierZero <==> 0 in Tiers(models[..i])
    {
      var m := models[i];
      var rows := models[..i + 1];
      assert Init(rows) == models[..i] && Last(rows) == m;
      RowAdds(rows);
      ok := m.id != "" && m.family != "" && m.inputPrice > 0.0 && m.outputPrice > 0.0
        && m.tier >= 0 && m.tier !in seenTier;
      seenTier := seenTier + {m.tier};
      hasTierZero := hasTierZero || m.tier == 0;
      if m.role == UNSURE_CEILING || m.role == HIGH_CEILING {
        ok := ok && m.role !in seenRole;
        seenRole := seenRole + {m.role};
      } else {
        ok := ok && m.role == "";
      }
      if !ok {
        if RowsOk(models) { RowsOkPrefix(models, i + 1); }
        return;
      }
    }
    assert models[..|models|] == models;
    ok := true;
  }

  method Valid(models: seq<Model>) returns (ok: bool)
    ensures ok <==> WellFormed(models)
    ensures ok <==>
      && |models| >= 2
      && (forall m :: m in models ==>
            m.id != "" && m.family != "" && m.inputPrice > 0.0 && m.outputPrice > 0.0 && m.tier >= 0
            && m.role in {"", "unsure_ceiling", "high_ceiling"})
      && (forall i, j :: 0 <= i < j < |models| ==> models[i].tier != models[j].tier)
      && (forall i, j :: 0 <= i < j < |models| && models[i].role != "" ==> models[i].role != models[j].role)
      && (exists m :: m in models && m.tier == 0)
      && (forall u, h :: u in models && h in models && u.role == "unsure_ceiling" && h.role == "high_ceiling" ==> u.tier < h.tier)
  {
    if |models| < 2 {
      return false;
    }
    RowsOkMeans(models);
    var hasTierZero;
    ok, hasTierZero := ValidRows(models);
    if !ok || !hasTierZero {
      return false;
    }
    var unsure := ModelWithRole(models, UNSURE_CEILING);
    var high := ModelWithRole(models, HIGH_CEILING);
    RoleFound(models, UNSURE_CEILING);
    RoleFound(models, HIGH_CEILING);
    ok := !(unsure.Some? && high.Some? && high.value.tier < unsure.value.tier);
    forall m | m in models && m.role != "" ensures FirstWithRole(models, m.role) == Some(m) {
      RoleUnique(models, m);
    }
  }

  lemma {:induction false} RoleUnique(models: seq<Model>, m: Model)
    requires forall i, j :: 0 <= i < j < |models| && models[i].role != "" ==> models[i].role != models[j].role
    requires m in models && m.role != ""
    ensures FirstWithRole(models, m.role) == Some(m)
  {
    assert models == Init(models) + [Last(models)];
    if m in Init(models) {
      RoleUnique(Init(models), m);
    } else {
      RoleFound(Init(models), m.role);
    }
  }
}
