/** Ranking a seed price table into a catalog: tiers are positions in the
    stable order by blended price. */
module Ranking {
  import opened Wrappers
  import opened Floats
  import opened Catalog
  import opened Kernel

  datatype Seed = Seed(id: string, family: string, inputPrice: real, outputPrice: real, role: string)

  function Blended(m: Seed): real { m.inputPrice + 4.0 * m.outputPrice }

  /** Puts m after every row that costs no more. */
  function Insert(ranked: seq<Seed>, m: Seed): seq<Seed> {
    if ranked == [] then [m]
    else if Blended(ranked[|ranked| - 1]) <= Blended(m) then ranked + [m]
    else Insert(ranked[..|ranked| - 1], m) + [ranked[|ranked| - 1]]
  }

  function Rank(models: seq<Seed>): seq<Seed> {
    if models == [] then [] else Insert(Rank(models[..|models| - 1]), models[|models| - 1])
  }

  /** Tier is the rank. */
  function Number(ranked: seq<Seed>): seq<Model> {
    seq(|ranked|, i requires 0 <= i < |ranked| =>
      Model(ranked[i].id, ranked[i].family, ranked[i].inputPrice, ranked[i].outputPrice, i, ranked[i].role))
  }

  // ---- Rank is the stable sort ----

  ghost predicate Sorted(s: seq<Seed>) {
    forall i, j :: 0 <= i < j < |s| ==> Blended(s[i]) <= Blended(s[j])
  }

  /** x stands at some place before a place where y stands. */
  ghost predicate Before(s: seq<Seed>, x: Seed, y: Seed) {
    exists i, j :: 0 <= i < j < |s| && s[i] == x && s[j] == y
  }

  lemma BeforeAppend(s: seq<Seed>, last: Seed, x: Seed, y: Seed)
    ensures Before(s + [last], x, y) <==> Before(s, x, y) || (x in s && y == last)
  {
    var t := s + [last];
    if Before(t, x, y) {
      var i, j :| 0 <= i < j < |t| && t[i] == x && t[j] == y;
      assert s[i] == x;
      if j < |s| { assert s[j] == y; }
    }
    if Before(s, x, y) {
      var i, j :| 0 <= i < j < |s| && s[i] == x && s[j] == y;
      assert t[i] == x && t[j] == y;
    }
    if x in s && y == last {
      var i :| 0 <= i < |s| && s[i] == x;
      assert t[i] == x && t[|s|] == y;
    }
  }

  lemma {:induction false} InsertAdds(ranked: seq<Seed>, m: Seed)
    ensures multiset(Insert(ranked, m)) == multiset(ranked) + multiset{m}
    ensures forall x :: x in Insert(ranked, m) <==> x in ranked || x == m
  {
    if ranked != [] && Blended(ranked[|ranked| - 1]) > Blended(m) {
      assert ranked == ranked[..|ranked| - 1] + [ranked[|ranked| - 1]];
      InsertAdds(ranked[..|ranked| - 1], m);
    }
  }

  lemma SortedAppend(s: seq<Seed>, last: Seed)
    requires Sorted(s) && forall x :: x in s ==> Blended(x) <= Blended(last)
    ensures Sorted(s + [last])
  {}

  lemma {:induction false} InsertSorts(ranked: seq<Seed>, m: Seed)
    requires Sorted(ranked)
    ensures Sorted(Insert(ranked, m))
  {
    if ranked != [] {
      var init, last := ranked[..|ranked| - 1], ranked[|ranked| - 1];
      assert ranked == init + [last];
      if Blended(last) > Blended(m) {
        InsertSorts(init, m);
        InsertAdds(init, m);
        SortedAppend(Insert(init, m), last);
      } else {
        SortedAppend(ranked, m);
      }
    }
  }

  lemma {:induction false} InsertOrder(ranked: seq<Seed>, m: Seed, x: Seed, y: Seed)
    requires Sorted(ranked)
    ensures Before(Insert(ranked, m), x, y) <==>
      || Before(ranked, x, y)
      || (x in ranked && y == m && Blended(x) <= Blended(m))
      || (x == m && y in ranked && Blended(m) < Blended(y))
  {
    if ranked == [] {
    } else if Blended(ranked[|ranked| - 1]) <= Blended(m) {
      BeforeAppend(ranked, m, x, y);
    } else {
      var init, last := ranked[..|ranked| - 1], ranked[|ranked| - 1];
      assert ranked == init + [last];
      InsertAdds(init, m);
      InsertOrder(init, m, x, y);
      BeforeAppend(Insert(init, m), last, x, y);
      BeforeAppend(init, last, x, y);
    }
  }

  lemma {:induction false} RankSorts(models: seq<Seed>)
    ensures Sorted(Rank(models))
    ensures multiset(Rank(models)) == multiset(models)
    ensures |Rank(models)| == |models|
    ensures forall x :: x in Rank(models) <==> x in models
  {
    if models != [] {
      var init, last := models[..|models| - 1], models[|models| - 1];
      assert models == init + [last];
      RankSorts(init);
      InsertSorts(Rank(init), last);
      InsertAdds(Rank(init), last);
      assert |Rank(models)| == |multiset(Rank(models))|;
    }
  }

  /** The order is exactly price first, seed position second. */
  lemma {:induction false} RankIsStable(models: seq<Seed>, x: Seed, y: Seed)
    ensures Before(Rank(models), x, y) <==>
      (Before(models, x, y) && Blended(x) <= Blended(y)) || (Before(models, y, x) && Blended(x) < Blended(y))
  {
    if models != [] {
      var init, last := models[..|models| - 1], models[|models| - 1];
      assert models == init + [last];
      RankIsStable(init, x, y);
      RankSorts(init);
      InsertOrder(Rank(init), last, x, y);
      BeforeAppend(init, last, x, y);
      BeforeAppend(init, last, y, x);
    }
  }

  // ---- when the ranked table is a valid catalog ----

  ghost predicate RowOk(m: Seed) {
    m.id != "" && m.family != "" && m.inputPrice > 0.0 && m.outputPrice > 0.0 &&
    (m.role == "" || m.role == UNSURE_CEILING || m.role == HIGH_CEILING)
  }

  /** What must be true of the seed: at least two sound rows, each role at most
      once, and the unsure ceiling cheaper than the high one or, at one price,
      listed first. */
  ghost predicate SeedOk(models: seq<Seed>) {
    && |models| >= 2
    && (forall m :: m in models ==> RowOk(m))
    && (forall x, y :: Before(models, x, y) && x.role != "" ==> x.role != y.role)
    && (forall u, h :: u in models && h in models && u.role == UNSURE_CEILING && h.role == HIGH_CEILING ==>
          Blended(u) < Blended(h) || (Blended(u) == Blended(h) && Before(models, u, h)))
  }

  /** `ranked` holds the same rows, by price and then by seed position. */
  ghost predicate RankedFrom(models: seq<Seed>, ranked: seq<Seed>) {
    && |ranked| == |models|
    && (forall x :: x in ranked <==> x in models)
    && (forall x, y :: Before(ranked, x, y) <==>
          (Before(models, x, y) && Blended(x) <= Blended(y)) || (Before(models, y, x) && Blended(x) < Blended(y)))
  }

  lemma RankedIsValid(models: seq<Seed>)
    ensures WellFormed(Number(Rank(models))) <==> SeedOk(models)
  {
    var ranked := Rank(models);
    RankSorts(models);
    forall x, y
      ensures Before(ranked, x, y) <==>
        (Before(models, x, y) && Blended(x) <= Blended(y)) || (Before(models, y, x) && Blended(x) < Blended(y)) {
      RankIsStable(models, x, y);
    }
    assert RankedFrom(models, ranked);
    if SeedOk(models) {
      SeedMakesRows(models, ranked);
      SeedOrdersCeilings(models, ranked);
      assert Number(ranked)[0] in Number(ranked);
    }
    if WellFormed(Number(ranked)) {
      CatalogNeedsRows(models, ranked);
      CatalogNeedsRoles(models, ranked);
      forall u, h | u in models && h in models && u.role == UNSURE_CEILING && h.role == HIGH_CEILING
        ensures Before(ranked, u, h) {
        CeilingsRankedInOrder(ranked, u, h);
      }
    }
  }

  lemma SeedMakesRows(models: seq<Seed>, ranked: seq<Seed>)
    requires SeedOk(models) && RankedFrom(models, ranked)
    ensures RowsDistinct(Number(ranked))
  {
    var cat := Number(ranked);
    forall m | m in cat ensures EntryOk(m) {
      assert ranked[m.tier] in ranked && RowOk(ranked[m.tier]);
    }
    forall i, j | 0 <= i < j < |cat| && cat[i].role != "" ensures cat[i].role != cat[j].role {
      assert Before(ranked, ranked[i], ranked[j]);
    }
  }

  lemma SeedOrdersCeilings(models: seq<Seed>, ranked: seq<Seed>)
    requires SeedOk(models) && RankedFrom(models, ranked)
    ensures var cat := Number(ranked);
      forall u, h :: u in cat && h in cat && u.role == UNSURE_CEILING && h.role == HIGH_CEILING ==> u.tier < h.tier
  {
    var cat := Number(ranked);
    forall u, h | u in cat && h in cat && u.role == UNSURE_CEILING && h.role == HIGH_CEILING ensures u.tier < h.tier {
      var x, y := ranked[u.tier], ranked[h.tier];
      assert x in models && y in models;
      if Before(models, x, y) && Before(models, y, x) { TwiceBefore(models, x, y); }
      assert h.tier < u.tier ==> Before(ranked, y, x);
    }
  }

  lemma TwiceBefore(s: seq<Seed>, x: Seed, y: Seed)
    requires Before(s, x, y) && Before(s, y, x) && x != y
    ensures Before(s, x, x) || Before(s, y, y)
  {
    var i, j :| 0 <= i < j < |s| && s[i] == x && s[j] == y;
    var k, l :| 0 <= k < l < |s| && s[k] == y && s[l] == x;
    assert i == l || i < l || l < i;
  }

  lemma CatalogNeedsRows(models: seq<Seed>, ranked: seq<Seed>)
    requires WellFormed(Number(ranked)) && RankedFrom(models, ranked)
    ensures forall m :: m in models ==> RowOk(m)
  {
    forall m | m in models ensures RowOk(m) {
      var i :| 0 <= i < |ranked| && ranked[i] == m;
      assert Number(ranked)[i] in Number(ranked) && EntryOk(Number(ranked)[i]);
    }
  }

  lemma CatalogNeedsRoles(models: seq<Seed>, ranked: seq<Seed>)
    requires WellFormed(Number(ranked)) && RankedFrom(models, ranked)
    ensures forall x, y :: Before(models, x, y) && x.role != "" ==> x.role != y.role
  {
    forall x, y | Before(models, x, y) && x.role != "" ensures x.role != y.role {
      assert Before(ranked, x, y) || Before(ranked, y, x);
      if Before(ranked, x, y) { RolesApart(ranked, x, y); } else { RolesApart(ranked, y, x); }
    }
  }

  lemma RolesApart(ranked: seq<Seed>, x: Seed, y: Seed)
    requires RowsDistinct(Number(ranked)) && Before(ranked, x, y)
    ensures x.role != "" || y.role != "" ==> x.role != y.role
  {
    var cat := Number(ranked);
    var i, j :| 0 <= i < j < |ranked| && ranked[i] == x && ranked[j] == y;
    assert cat[i].role != "" ==> cat[i].role != cat[j].role;
  }

  lemma CeilingsRankedInOrder(ranked: seq<Seed>, u: Seed, h: Seed)
    requires WellFormed(Number(ranked)) && u in ranked && h in ranked
    requires u.role == UNSURE_CEILING && h.role == HIGH_CEILING
    ensures Before(ranked, u, h)
  {
    var cat := Number(ranked);
    var i :| 0 <= i < |ranked| && ranked[i] == u;
    var j :| 0 <= j < |ranked| && ranked[j] == h;
    assert cat[i] in cat && cat[j] in cat;
    assert i < j;
  }
}
