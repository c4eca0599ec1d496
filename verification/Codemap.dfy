/** Grouping tracked paths into directory rows, and each row's label. */
module Codemap {
  import opened Wrappers
  import opened Text
  import Ordering
  import Sequences

  const MAX_DIRS := 20
  const ROOT := "(root)"

  datatype Entry = Entry(dir: string, files: nat, ext: string)

  function Parts(path: string): (parts: seq<string>)
    ensures |parts| >= 1
  {
    Split(path, '/')
  }

  function GroupKey(path: string, containers: set<string>): string {
    var parts := Parts(path);
    if |parts| == 1 then ROOT
    else if |parts| == 2 || parts[0] !in containers then parts[0] + "/"
    else parts[0] + "/" + parts[1] + "/"
  }

  // ---- the extension of a path ----

  /** filepath.Ext: from the last dot of the last element. */
  function Ext(path: string): string {
    if path == "" || path[|path| - 1] == '/' then ""
    else if path[|path| - 1] == '.' then "."
    else
      var before := Ext(path[..|path| - 1]);
      if before == "" then "" else before + [path[|path| - 1]]
  }

  function Lower(s: string): string {
    seq(|s|, i requires 0 <= i < |s| => if 'A' <= s[i] <= 'Z' then s[i] + ('a' - 'A') else s[i])
  }

  function Label(path: string): string { Lower(Ext(path)) }

  // ---- which directories are pure containers ----

  function FirstLevel(paths: seq<string>): set<string> {
    set p | p in paths && p != "" && |Parts(p)| >= 2 :: Parts(p)[0]
  }

  function WithFiles(paths: seq<string>): set<string> {
    set p | p in paths && p != "" && |Parts(p)| == 2 :: Parts(p)[0]
  }

  /** The first-level directories that hold no file of their own. */
  function Containers(paths: seq<string>): set<string> { FirstLevel(paths) - WithFiles(paths) }

  lemma FirstLevelNext(paths: seq<string>, p: string)
    ensures FirstLevel(paths + [p]) == FirstLevel(paths) + if p != "" && |Parts(p)| >= 2 then {Parts(p)[0]} else {}
  {
    forall d | d in FirstLevel(paths) ensures d in FirstLevel(paths + [p]) {
      var q :| q in paths && q != "" && |Parts(q)| >= 2 && Parts(q)[0] == d;
      assert q in paths + [p];
    }
    assert p in paths + [p];
  }

  lemma WithFilesNext(paths: seq<string>, p: string)
    ensures WithFiles(paths + [p]) == WithFiles(paths) + if p != "" && |Parts(p)| == 2 then {Parts(p)[0]} else {}
  {
    forall d | d in WithFiles(paths) ensures d in WithFiles(paths + [p]) {
      var q :| q in paths && q != "" && |Parts(q)| == 2 && Parts(q)[0] == d;
      assert q in paths + [p];
    }
    assert p in paths + [p];
  }

  method FirstPass(paths: seq<string>) returns (firstLevel: set<string>, directFiles: set<string>)
    ensures firstLevel == FirstLevel(paths) && directFiles == WithFiles(paths)
  {
    firstLevel, directFiles := {}, {};
    for i := 0 to |paths|
      invariant firstLevel == FirstLevel(paths[..i]) && directFiles == WithFiles(paths[..i])
    {
      var p := paths[i];
      FirstLevelNext(paths[..i], p);
      WithFilesNext(paths[..i], p);
      assert paths[..i + 1] == paths[..i] + [p];
      if p != "" {
        var parts := Parts(p);
        if |parts| >= 2 {
          firstLevel := firstLevel + {parts[0]};
        }
        if |parts| == 2 {
          directFiles := directFiles + {parts[0]};
        }
      }
    }
    assert paths[..|paths|] == paths;
  }

  method Unfiled(firstLevel: set<string>, directFiles: set<string>) returns (containers: set<string>)
    ensures containers == firstLevel - directFiles
  {
    containers := {};
    var todo := firstLevel;
    while todo != {}
      invariant todo <= firstLevel
      invariant forall d :: d in containers <==> d in firstLevel && d !in todo && d !in directFiles
      decreases |todo|
    {
      var d :| d in todo;
      if d !in directFiles {
        containers := containers + {d};
      }
      todo := todo - {d};
    }
  }

  method ContainerDirs(paths: seq<string>) returns (containers: set<string>)
    ensures containers == Containers(paths)
  {
    var firstLevel, directFiles := FirstPass(paths);
    containers := Unfiled(firstLevel, directFiles);
  }

  // ---- counting ----

  /** The path belongs to the row and, where an extension is wanted, carries it. */
  predicate Falls(p: string, containers: set<string>, dir: string, want: Option<string>) {
    p != "" && GroupKey(p, containers) == dir && (want.Some? ==> Label(p) == want.value)
  }

  function Tally(paths: seq<string>, containers: set<string>, dir: string, want: Option<string>): nat {
    if paths == [] then 0
    else Tally(paths[..|paths| - 1], containers, dir, want) +
         if Falls(paths[|paths| - 1], containers, dir, want) then 1 else 0
  }

  lemma TallyNext(paths: seq<string>, p: string, containers: set<string>, dir: string, want: Option<string>)
    ensures Tally(paths + [p], containers, dir, want) ==
            Tally(paths, containers, dir, want) + if Falls(p, containers, dir, want) then 1 else 0
  {
    assert (paths + [p])[..|paths|] == paths;
  }

  lemma {:induction false} TallyJoin(a: seq<string>, b: seq<string>, containers: set<string>, dir: string, want: Option<string>)
    ensures Tally(a + b, containers, dir, want) == Tally(a, containers, dir, want) + Tally(b, containers, dir, want)
    decreases |b|
  {
    if b == [] {
      assert a + b == a;
    } else {
      var last := b[|b| - 1];
      assert a + b == (a + b[..|b| - 1]) + [last];
      TallyJoin(a, b[..|b| - 1], containers, dir, want);
      TallyNext(a + b[..|b| - 1], last, containers, dir, want);
    }
  }

  lemma {:induction false} TallyRearranged(a: seq<string>, b: seq<string>, containers: set<string>, dir: string, want: Option<string>)
    requires multiset(a) == multiset(b)
    ensures Tally(a, containers, dir, want) == Tally(b, containers, dir, want)
    decreases |a|
  {
    if a == [] {
      assert b == [] by { assert |multiset(b)| == |b|; }
    } else {
      var left, right := Sequences.Rearranged(a, b);
      var last := a[|a| - 1];
      TallyRearranged(a[..|a| - 1], left + right, containers, dir, want);
      TallyJoin(left, right, containers, dir, want);
      TallyJoin(left + [last], right, containers, dir, want);
      TallyNext(left, last, containers, dir, want);
    }
  }

  lemma {:induction false} TwoLabels(paths: seq<string>, containers: set<string>, dir: string, x: string, y: string)
    requires x != y
    ensures Tally(paths, containers, dir, Some(x)) + Tally(paths, containers, dir, Some(y)) <= Tally(paths, containers, dir, None)
    decreases |paths|
  {
    if paths != [] { TwoLabels(paths[..|paths| - 1], containers, dir, x, y); }
  }

  lemma {:induction false} TallyPositive(paths: seq<string>, containers: set<string>, dir: string, want: Option<string>)
    ensures Tally(paths, containers, dir, want) > 0 <==> exists p :: p in paths && Falls(p, containers, dir, want)
    decreases |paths|
  {
    if paths != [] {
      var n := |paths| - 1;
      TallyPositive(paths[..n], containers, dir, want);
      assert paths == paths[..n] + [paths[n]];
    }
  }

  // ---- the dominant extension ----

  /** e is alone at the top and held by more than half. */
  ghost predicate Dominates(byExt: map<string, nat>, total: nat, e: string) {
    e in byExt && byExt[e] * 2 > total && forall f :: f in byExt && f != e ==> byExt[f] < byExt[e]
  }

  /** Whatever order the map is walked in. */
  method DominantExt(byExt: map<string, nat>, total: nat) returns (r: string)
    ensures forall e :: Dominates(byExt, total, e) ==> r == e
    ensures r == "" || Dominates(byExt, total, r)
  {
    var best, bestN, tie := "", 0, false;
    var todo := byExt.Keys;
    while todo != {}
      invariant todo <= byExt.Keys
      invariant forall e :: e in byExt && e !in todo ==> byExt[e] <= bestN
      invariant bestN > 0 ==> best in byExt && best !in todo && byExt[best] == bestN
      invariant bestN > 0 && tie ==> exists e :: e in byExt && e !in todo && e != best && byExt[e] == bestN
      invariant bestN > 0 && !tie ==> forall e :: e in byExt && e !in todo && e != best ==> byExt[e] < bestN
      decreases |todo|
    {
      var e :| e in todo;
      var n := byExt[e];
      if n > bestN {
        best, bestN, tie := e, n, false;
      } else if n == bestN {
        tie := true;
      }
      todo := todo - {e};
    }
    if tie || bestN * 2 <= total {
      return "";
    }
    return best;
  }

  // ---- rows ----

  /** The label a strict majority of the row's files carries, or none. */
  ghost predicate IsLabel(paths: seq<string>, containers: set<string>, dir: string, ext: string) {
    && (forall x :: x != "" && 2 * Tally(paths, containers, dir, Some(x)) > Tally(paths, containers, dir, None) ==> ext == x)
    && (ext == "" || 2 * Tally(paths, containers, dir, Some(ext)) > Tally(paths, containers, dir, None))
  }

  ghost predicate IsRow(paths: seq<string>, e: Entry) {
    var containers := Containers(paths);
    e.files > 0 && e.files == Tally(paths, containers, e.dir, None) && IsLabel(paths, containers, e.dir, e.ext)
  }

  /** More files first; on equal counts, by directory name. */
  predicate Before(a: Entry, b: Entry) {
    a.files > b.files || (a.files == b.files && Ordering.Less(a.dir, b.dir))
  }

  ghost predicate Sorted(rows: seq<Entry>) {
    forall i, j :: 0 <= i < j < |rows| ==> Before(rows[i], rows[j])
  }

  /** All the rows of a list of paths, in order. */
  ghost predicate RowsOf(paths: seq<string>, rows: seq<Entry>) {
    && Sorted(rows)
    && (forall e :: e in rows ==> IsRow(paths, e))
    && (forall p :: p in paths && p != "" ==> HasDir(rows, GroupKey(p, Containers(paths))))
  }

  function Look(m: map<string, nat>, k: string): nat { if k in m then m[k] else 0 }

  function Inner(m: map<string, map<string, nat>>, k: string): map<string, nat> { if k in m then m[k] else map[] }

  /** The two maps hold the tallies. */
  ghost predicate Counted(paths: seq<string>, containers: set<string>, counts: map<string, nat>, exts: map<string, map<string, nat>>) {
    && (forall d :: Look(counts, d) == Tally(paths, containers, d, None))
    && (forall d :: d in counts ==> counts[d] > 0)
    && (forall d, x :: x != "" ==> Look(Inner(exts, d), x) == Tally(paths, containers, d, Some(x)))
    && (forall d :: "" !in Inner(exts, d))
  }

  lemma LookNext(m: map<string, nat>, key: string, k: string)
    ensures Look(m[key := Look(m, key) + 1], k) == Look(m, k) + if k == key then 1 else 0
  {}

  lemma InnerNext(m: map<string, map<string, nat>>, key: string, e: string, d: string, x: string)
    ensures Look(Inner(m[key := Inner(m, key)[e := Look(Inner(m, key), e) + 1]], d), x)
         == Look(Inner(m, d), x) + if d == key && x == e then 1 else 0
    ensures e != "" && "" !in Inner(m, d) && "" !in Inner(m, key)
      ==> "" !in Inner(m[key := Inner(m, key)[e := Look(Inner(m, key), e) + 1]], d)
  {}

  lemma CountedNext(paths: seq<string>, p: string, containers: set<string>, counts: map<string, nat>, exts: map<string, map<string, nat>>)
    requires Counted(paths, containers, counts, exts)
    ensures p == "" ==> Counted(paths + [p], containers, counts, exts)
    ensures p != "" ==>
      var key, e := GroupKey(p, containers), Label(p);
      Counted(paths + [p], containers, counts[key := Look(counts, key) + 1],
              if e == "" then exts else exts[key := Inner(exts, key)[e := Look(Inner(exts, key), e) + 1]])
  {
    forall d, want ensures Tally(paths + [p], containers, d, want) ==
                           Tally(paths, containers, d, want) + if Falls(p, containers, d, want) then 1 else 0
    {
      TallyNext(paths, p, containers, d, want);
    }
    if p != "" {
      var key, e := GroupKey(p, containers), Label(p);
      forall d ensures Look(counts[key := Look(counts, key) + 1], d) == Tally(paths + [p], containers, d, None) {
        LookNext(counts, key, d);
      }
      var exts' := if e == "" then exts else exts[key := Inner(exts, key)[e := Look(Inner(exts, key), e) + 1]];
      forall d, x | x != "" ensures Look(Inner(exts', d), x) == Tally(paths + [p], containers, d, Some(x)) {
        InnerNext(exts, key, e, d, x);
      }
      forall d ensures "" !in Inner(exts', d) {
        InnerNext(exts, key, e, d, "");
      }
    }
  }

  method CountRows(paths: seq<string>, containers: set<string>) returns (counts: map<string, nat>, exts: map<string, map<string, nat>>)
    ensures Counted(paths, containers, counts, exts)
  {
    counts, exts := map[], map[];
    for i := 0 to |paths|
      invariant Counted(paths[..i], containers, counts, exts)
    {
      var p := paths[i];
      assert paths[..i + 1] == paths[..i] + [p];
      CountedNext(paths[..i], p, containers, counts, exts);
      if p == "" {
        continue;
      }
      var key := GroupKey(p, containers);
      counts := counts[key := Look(counts, key) + 1];
      var e := Label(p);
      if e != "" {
        exts := exts[key := Inner(exts, key)[e := Look(Inner(exts, key), e) + 1]];
      }
    }
    assert paths[..|paths|] == paths;
  }

  lemma DominantIsLabel(paths: seq<string>, containers: set<string>, counts: map<string, nat>,
                        exts: map<string, map<string, nat>>, dir: string, r: string)
    requires Counted(paths, containers, counts, exts) && dir in counts
    requires forall e :: Dominates(Inner(exts, dir), counts[dir], e) ==> r == e
    requires r == "" || Dominates(Inner(exts, dir), counts[dir], r)
    ensures IsLabel(paths, containers, dir, r)
  {
    var byExt, total := Inner(exts, dir), counts[dir];
    assert Look(counts, dir) == total;
    forall x | x != "" && 2 * Tally(paths, containers, dir, Some(x)) > Tally(paths, containers, dir, None)
      ensures Dominates(byExt, total, x)
    {
      assert Look(byExt, x) == Tally(paths, containers, dir, Some(x));
      forall f | f in byExt && f != x ensures byExt[f] < byExt[x] {
        assert Look(byExt, f) == Tally(paths, containers, dir, Some(f));
        TwoLabels(paths, containers, dir, x, f);
      }
    }
    if r != "" { assert Look(byExt, r) == Tally(paths, containers, dir, Some(r)); }
  }

  // ---- sorting ----

  lemma BeforeTotal(a: Entry, b: Entry)
    ensures Before(a, b) || Before(b, a) || a.dir == b.dir
    ensures !Before(a, a) && !(Before(a, b) && Before(b, a))
  {
    Ordering.LessTotal(a.dir, b.dir);
    Ordering.LessTotal(a.dir, a.dir);
  }

  lemma BeforeTransitive(a: Entry, b: Entry, c: Entry)
    requires Before(a, b) && Before(b, c)
    ensures Before(a, c)
  {
    if a.files == b.files == c.files { Ordering.LessTransitive(a.dir, b.dir, c.dir); }
  }

  function Insert(rows: seq<Entry>, e: Entry): seq<Entry> {
    if rows == [] || Before(e, rows[0]) then [e] + rows else [rows[0]] + Insert(rows[1..], e)
  }

  lemma {:induction false} InsertSorts(rows: seq<Entry>, e: Entry)
    requires Sorted(rows) && forall f :: f in rows ==> f.dir != e.dir
    ensures Sorted(Insert(rows, e))
    ensures forall f :: f in Insert(rows, e) <==> f in rows || f == e
  {
    if rows != [] {
      BeforeTotal(e, rows[0]);
      if Before(e, rows[0]) {
        forall k | 0 <= k < |rows| ensures Before(e, rows[k]) {
          if k > 0 { BeforeTransitive(e, rows[0], rows[k]); }
        }
      } else {
        assert rows[0] in rows;
        InsertSorts(rows[1..], e);
        assert rows == [rows[0]] + rows[1..];
        forall f | f in Insert(rows[1..], e) ensures Before(rows[0], f) {}
      }
    }
  }

  ghost predicate HasDir(rows: seq<Entry>, dir: string) { exists e :: e in rows && e.dir == dir }

  lemma InsertHasDir(rows: seq<Entry>, e: Entry)
    requires Sorted(rows) && forall f :: f in rows ==> f.dir != e.dir
    ensures forall d :: HasDir(Insert(rows, e), d) <==> HasDir(rows, d) || d == e.dir
  {
    InsertSorts(rows, e);
    forall d ensures HasDir(Insert(rows, e), d) <==> HasDir(rows, d) || d == e.dir {
      if HasDir(rows, d) {
        var f :| f in rows && f.dir == d;
        assert f in Insert(rows, e);
      }
      assert e in Insert(rows, e);
    }
  }

  function Kept(rows: seq<Entry>): seq<Entry> { if |rows| > MAX_DIRS then rows[..MAX_DIRS] else rows }

  method Group(paths: seq<string>) returns (entries: seq<Entry>)
    ensures exists rows :: RowsOf(paths, rows) && entries == Kept(rows)
  {
    var containers := ContainerDirs(paths);
    var counts, exts := CountRows(paths, containers);
    var todo := counts.Keys;
    entries := [];
    while todo != {}
      invariant todo <= counts.Keys
      invariant Sorted(entries)
      invariant forall e :: e in entries ==> IsRow(paths, e)
      invariant forall d :: HasDir(entries, d) <==> d in counts.Keys - todo
      decreases |todo|
    {
      var dir :| dir in todo;
      var ext := DominantExt(Inner(exts, dir), counts[dir]);
      DominantIsLabel(paths, containers, counts, exts, dir, ext);
      assert Look(counts, dir) == counts[dir];
      var row := Entry(dir, counts[dir], ext);
      assert forall f :: f in entries ==> HasDir(entries, f.dir);
      InsertSorts(entries, row);
      InsertHasDir(entries, row);
      entries := Insert(entries, row);
      todo := todo - {dir};
    }
    forall p | p in paths && p != "" ensures HasDir(entries, GroupKey(p, containers)) {
      TallyPositive(paths, containers, GroupKey(p, containers), None);
      assert Falls(p, containers, GroupKey(p, containers), None);
      assert Look(counts, GroupKey(p, containers)) > 0;
    }
    ghost var rows := entries;
    assert RowsOf(paths, rows);
    if |entries| > MAX_DIRS {
      entries := entries[..MAX_DIRS];
    }
  }
}
