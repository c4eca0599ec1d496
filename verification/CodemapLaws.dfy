/** What the rows of a code map say about the paths they were made from. */
module CodemapLaws {
  import opened Wrappers
  import opened Text
  import opened Codemap
  import Ordering

  // ---- the rows are determined ----

  lemma LabelUnique(paths: seq<string>, containers: set<string>, dir: string, x: string, y: string)
    requires IsLabel(paths, containers, dir, x) && IsLabel(paths, containers, dir, y)
    ensures x == y
  {}

  lemma RowOfDir(paths: seq<string>, e: Entry, f: Entry)
    requires IsRow(paths, e) && IsRow(paths, f) && e.dir == f.dir
    ensures e == f
  {
    LabelUnique(paths, Containers(paths), e.dir, e.ext, f.ext);
  }

  lemma RowListed(paths: seq<string>, rows: seq<Entry>, e: Entry)
    requires RowsOf(paths, rows)
    ensures e in rows <==> IsRow(paths, e)
  {
    if IsRow(paths, e) {
      TallyPositive(paths, Containers(paths), e.dir, None);
      assert HasDir(rows, e.dir);
      var f :| f in rows && f.dir == e.dir;
      RowOfDir(paths, e, f);
    }
  }

  /** Two sorted listings of the same rows are the same sequence. */
  lemma {:induction false} SortedUnique(a: seq<Entry>, b: seq<Entry>)
    requires Sorted(a) && Sorted(b) && forall e :: e in a <==> e in b
    ensures a == b
  {
    Inhabited(a);
    Inhabited(b);
    if a != [] && b != [] {
      assert a[0] in b && b[0] in a;
      var i :| 0 <= i < |a| && a[i] == b[0];
      var j :| 0 <= j < |b| && b[j] == a[0];
      BeforeTotal(a[0], b[0]);
      assert a[0] == b[0];
      forall e ensures e in a[1..] <==> e in b[1..] {
        BeforeTotal(e, e);
        if e in a[1..] { assert e in a && e != a[0]; }
        if e in b[1..] { assert e in b && e != b[0]; }
      }
      SortedUnique(a[1..], b[1..]);
    }
  }

  lemma Inhabited(rows: seq<Entry>)
    ensures rows != [] ==> exists e :: e in rows
  {
    if rows != [] { assert rows[0] in rows; }
  }

  lemma RowsUnique(paths: seq<string>, a: seq<Entry>, b: seq<Entry>)
    requires RowsOf(paths, a) && RowsOf(paths, b)
    ensures a == b
  {
    forall e ensures e in a <==> e in b {
      RowListed(paths, a, e);
      RowListed(paths, b, e);
    }
    SortedUnique(a, b);
  }

  lemma SameContainers(paths: seq<string>, paths': seq<string>)
    requires forall p :: p in paths <==> p in paths'
    ensures Containers(paths) == Containers(paths')
  {}

  /** The order in which the paths are listed does not matter. */
  lemma OrderFree(paths: seq<string>, paths': seq<string>, rows: seq<Entry>, rows': seq<Entry>)
    requires multiset(paths) == multiset(paths') && RowsOf(paths, rows) && RowsOf(paths', rows')
    ensures rows == rows'
  {
    forall p ensures p in paths <==> p in paths' {
      assert p in paths <==> p in multiset(paths);
      assert p in paths' <==> p in multiset(paths');
    }
    SameContainers(paths, paths');
    forall dir, want ensures Tally(paths, Containers(paths), dir, want) == Tally(paths', Containers(paths'), dir, want) {
      TallyRearranged(paths, paths', Containers(paths), dir, want);
    }
    forall e | e in rows' ensures IsRow(paths, e) {
      assert IsRow(paths', e);
    }
    RowsUnique(paths, rows, rows');
  }

  /** The rows kept are the largest: each stands before every row left out. */
  lemma KeptAreLargest(paths: seq<string>, rows: seq<Entry>, kept: Entry, dropped: Entry)
    requires RowsOf(paths, rows) && kept in Kept(rows) && dropped in rows && dropped !in Kept(rows)
    ensures kept.files >= dropped.files && kept.dir != dropped.dir
    ensures kept.files == dropped.files ==> Ordering.Less(kept.dir, dropped.dir)
  {
    var i :| 0 <= i < MAX_DIRS && rows[..MAX_DIRS][i] == kept;
    assert rows == rows[..MAX_DIRS] + rows[MAX_DIRS..];
    var j :| 0 <= j < |rows| - MAX_DIRS && rows[MAX_DIRS..][j] == dropped;
    assert Before(rows[i], rows[MAX_DIRS + j]);
    if kept.dir == dropped.dir {
      assert kept in rows;
      RowOfDir(paths, kept, dropped);
    }
  }

  // ---- each path is in exactly one row ----

  lemma DirsDistinct(paths: seq<string>, rows: seq<Entry>)
    requires RowsOf(paths, rows)
    ensures forall i, j :: 0 <= i < j < |rows| ==> rows[i].dir != rows[j].dir
  {
    forall i, j | 0 <= i < j < |rows| ensures rows[i].dir != rows[j].dir {
      assert rows[i] in rows && rows[j] in rows && Before(rows[i], rows[j]);
      BeforeTotal(rows[i], rows[i]);
      if rows[i].dir == rows[j].dir { RowOfDir(paths, rows[i], rows[j]); }
    }
  }

  function NonEmpty(paths: seq<string>): nat {
    if paths == [] then 0 else NonEmpty(paths[..|paths| - 1]) + if paths[|paths| - 1] != "" then 1 else 0
  }

  function SumFiles(rows: seq<Entry>): nat {
    if rows == [] then 0 else rows[0].files + SumFiles(rows[1..])
  }

  /** The files of some rows, counted from the paths. */
  function SumTally(rows: seq<Entry>, paths: seq<string>, containers: set<string>): nat {
    if rows == [] then 0 else Tally(paths, containers, rows[0].dir, None) + SumTally(rows[1..], paths, containers)
  }

  /** One more path adds to one row only. */
  lemma {:induction false} SumTallyNext(rows: seq<Entry>, paths: seq<string>, p: string, containers: set<string>)
    requires forall i, j :: 0 <= i < j < |rows| ==> rows[i].dir != rows[j].dir
    ensures SumTally(rows, paths + [p], containers) ==
            SumTally(rows, paths, containers) + if p != "" && HasDir(rows, GroupKey(p, containers)) then 1 else 0
  {
    if rows != [] {
      SumTallyNext(rows[1..], paths, p, containers);
      TallyNext(paths, p, containers, rows[0].dir, None);
      HasDirSplit(rows, GroupKey(p, containers));
    }
  }

  lemma HasDirSplit(rows: seq<Entry>, dir: string)
    requires rows != [] && forall i, j :: 0 <= i < j < |rows| ==> rows[i].dir != rows[j].dir
    ensures HasDir(rows, dir) <==> rows[0].dir == dir || HasDir(rows[1..], dir)
    ensures !(rows[0].dir == dir && HasDir(rows[1..], dir))
  {
    assert rows == [rows[0]] + rows[1..];
    if HasDir(rows[1..], dir) {
      var k :| 0 <= k < |rows[1..]| && rows[1..][k].dir == dir;
      assert rows[k + 1] in rows;
    }
    assert rows[0] in rows;
  }

  lemma {:induction false} SumTallyAll(rows: seq<Entry>, paths: seq<string>, containers: set<string>)
    requires forall i, j :: 0 <= i < j < |rows| ==> rows[i].dir != rows[j].dir
    requires forall p :: p in paths && p != "" ==> HasDir(rows, GroupKey(p, containers))
    ensures SumTally(rows, paths, containers) == NonEmpty(paths)
    decreases |paths|
  {
    if paths == [] {
      SumTallyNone(rows, containers);
    } else {
      var init, p := paths[..|paths| - 1], paths[|paths| - 1];
      assert paths == init + [p];
      SumTallyAll(rows, init, containers);
      SumTallyNext(rows, init, p, containers);
    }
  }

  lemma {:induction false} SumTallyNone(rows: seq<Entry>, containers: set<string>)
    ensures SumTally(rows, [], containers) == 0
  {
    if rows != [] { SumTallyNone(rows[1..], containers); }
  }

  lemma {:induction false} SumFilesIsTally(rows: seq<Entry>, paths: seq<string>)
    requires forall e :: e in rows ==> IsRow(paths, e)
    ensures SumFiles(rows) == SumTally(rows, paths, Containers(paths))
  {
    if rows != [] {
      assert rows[0] in rows;
      SumFilesIsTally(rows[1..], paths);
    }
  }

  /** Every non-empty path falls in exactly one row, and the files of the rows
      before the cap add up to the non-empty paths. */
  lemma {:induction false} EveryPathCountedOnce(paths: seq<string>, rows: seq<Entry>)
    requires RowsOf(paths, rows)
    ensures forall p :: p in paths && p != "" ==> HasDir(rows, GroupKey(p, Containers(paths)))
    ensures forall i, j :: 0 <= i < j < |rows| ==> rows[i].dir != rows[j].dir
    ensures SumFiles(rows) == NonEmpty(paths)
  {
    DirsDistinct(paths, rows);
    SumTallyAll(rows, paths, Containers(paths));
    SumFilesIsTally(rows, paths);
  }

  // ---- no row lies inside another ----

  lemma DirParts(first: string, second: string)
    requires '/' !in first && '/' !in second
    ensures Split(first + "/", '/') == [first, ""]
    ensures Split(first + "/" + second + "/", '/') == [first, second, ""]
  {
    SplitHead(first, "", '/');
    assert first + "/" == first + ['/'] + "";
    SplitHead(second, "", '/');
    assert second + "/" == second + ['/'] + "";
    SplitHead(first, second + "/", '/');
    assert first + "/" + second + "/" == first + ['/'] + (second + "/");
  }

  lemma KeyParts(p: string, containers: set<string>)
    requires |Parts(p)| >= 2
    ensures var key, parts := GroupKey(p, containers), Parts(p);
      Split(key, '/') == if |parts| == 2 || parts[0] !in containers then [parts[0], ""] else [parts[0], parts[1], ""]
  {
    JoinSplit(p, '/');
    var parts := Parts(p);
    assert parts[0] in parts && parts[1] in parts;
    DirParts(parts[0], parts[1]);
  }

  /** Splitting past a leading part. */
  lemma AfterPart(part: string, s: string)
    requires '/' !in part && part + "/" <= s
    ensures Split(s, '/') == [part] + Split(s[|part| + 1..], '/')
  {
    SplitHead(part, s[|part| + 1..], '/');
    assert s == part + ['/'] + s[|part| + 1..];
  }

  /** A file puts its first directory outside the containers; a container has none. */
  lemma DirectFile(paths: seq<string>, p: string)
    requires p in paths && p != "" && |Parts(p)| == 2
    ensures Parts(p)[0] !in Containers(paths)
  {}

  /** The parts of a row's directory: two inside a container, else one. */
  function KeyFront(parts: seq<string>, containers: set<string>): seq<string>
    requires |parts| >= 2
  {
    if parts[0] in containers then [parts[0], parts[1]] else [parts[0]]
  }

  lemma RowParts(paths: seq<string>, p: string)
    requires p in paths && p != "" && |Parts(p)| >= 2
    ensures var front := KeyFront(Parts(p), Containers(paths));
      && Split(GroupKey(p, Containers(paths)), '/') == front + [""]
      && GroupKey(p, Containers(paths)) == (if |front| == 1 then front[0] + "/" else front[0] + "/" + front[1] + "/")
      && forall x :: x in front ==> '/' !in x
  {
    if |Parts(p)| == 2 { DirectFile(paths, p); }
    KeyParts(p, Containers(paths));
    JoinSplit(p, '/');
    assert Parts(p)[0] in Parts(p) && Parts(p)[1] in Parts(p);
  }

  /** A directory in front of a path takes the path's first parts. */
  lemma FrontOfPath(front: seq<string>, b: string)
    requires 1 <= |front| <= 2 && forall x :: x in front ==> '/' !in x
    requires (if |front| == 1 then front[0] + "/" else front[0] + "/" + front[1] + "/") <= b
    ensures front <= Split(b, '/')
  {
    assert front[0] in front;
    assert front[0] + "/" <= b;
    AfterPart(front[0], b);
    if |front| == 2 {
      assert front[1] in front;
      assert front[0] + "/" + front[1] + "/" == front[0] + "/" + (front[1] + "/");
      assert front[1] + "/" <= b[|front[0]| + 1..];
      AfterPart(front[1], b[|front[0]| + 1..]);
    }
  }

  /** No row's directory lies inside another row's. */
  lemma NoNesting(paths: seq<string>, p: string, q: string)
    requires p in paths && q in paths && p != "" && q != "" && |Parts(p)| >= 2 && |Parts(q)| >= 2
    ensures GroupKey(p, Containers(paths)) <= GroupKey(q, Containers(paths))
      ==> GroupKey(p, Containers(paths)) == GroupKey(q, Containers(paths))
  {
    RowParts(paths, p);
    RowParts(paths, q);
    var f, g := KeyFront(Parts(p), Containers(paths)), KeyFront(Parts(q), Containers(paths));
    if GroupKey(p, Containers(paths)) <= GroupKey(q, Containers(paths)) {
      FrontOfPath(f, GroupKey(q, Containers(paths)));
      assert f <= g + [""];
      assert f[0] == g[0];
      if |f| == 2 { assert f[1] == (g + [""])[1]; }
    }
  }

  /** A path below the top lies in its row's directory. */
  lemma KeyHoldsPath(p: string, containers: set<string>)
    requires |Parts(p)| >= 2
    ensures GroupKey(p, containers) <= p && GroupKey(p, containers) != ROOT
  {
    JoinSplit(p, '/');
    var parts := Parts(p);
    assert p == parts[0] + "/" + Join(parts[1..], '/');
    if |parts| > 2 {
      assert p == parts[0] + "/" + (parts[1] + "/" + Join(parts[2..], '/')) by { assert parts[1..][1..] == parts[2..]; }
      assert p == parts[0] + "/" + parts[1] + "/" + Join(parts[2..], '/');
    }
    KeyParts(p, containers);
    assert ROOT == "(root)";
    SplitHead(ROOT, "", '/');
  }

  /** The row of a path below the top is the only directory row that contains it. */
  lemma OnlyRowAbove(paths: seq<string>, p: string, q: string)
    requires p in paths && q in paths && p != "" && q != "" && |Parts(p)| >= 2 && |Parts(q)| >= 2
    ensures GroupKey(q, Containers(paths)) <= p <==> GroupKey(q, Containers(paths)) == GroupKey(p, Containers(paths))
  {
    var a, b := GroupKey(p, Containers(paths)), GroupKey(q, Containers(paths));
    KeyHoldsPath(p, Containers(paths));
    if b <= p {
      assert a <= b || b <= a;
      NoNesting(paths, p, q);
      NoNesting(paths, q, p);
    }
  }

  // ---- the rows in plain terms ----

  /** Some listed path is a file directly under the directory. */
  ghost predicate HasFileIn(paths: seq<string>, dir: string) {
    exists q :: q in paths && |Split(q, '/')| == 2 && Split(q, '/')[0] == dir
  }

  /** The row of a path: the top level; the first directory, when the path or any
      other listed one is a file directly under it; else the first two. */
  ghost function RowName(paths: seq<string>, p: string): string {
    var parts := Split(p, '/');
    if |parts| == 1 then "(root)"
    else if |parts| == 2 || HasFileIn(paths, parts[0]) then parts[0] + "/"
    else parts[0] + "/" + parts[1] + "/"
  }

  lemma RowNameIs(paths: seq<string>, p: string)
    requires p in paths && p != ""
    ensures GroupKey(p, Containers(paths)) == RowName(paths, p)
  {
    var parts := Split(p, '/');
    if |parts| >= 2 {
      assert parts[0] in FirstLevel(paths);
      assert Split("", '/') == [""];
      assert HasFileIn(paths, parts[0]) <==> parts[0] in WithFiles(paths);
    }
  }

  ghost predicate LiesIn(paths: seq<string>, p: string, dir: string, ext: Option<string>) {
    p != "" && RowName(paths, p) == dir && (ext.Some? ==> Label(p) == ext.value)
  }

  /** How many of the first n paths are in the row, with the extension if one is wanted. */
  ghost function InRow(paths: seq<string>, n: nat, dir: string, ext: Option<string>): nat
    requires n <= |paths|
  {
    if n == 0 then 0 else InRow(paths, n - 1, dir, ext) + if LiesIn(paths, paths[n - 1], dir, ext) then 1 else 0
  }

  lemma FallsIs(paths: seq<string>, p: string, dir: string, ext: Option<string>)
    requires p in paths
    ensures Falls(p, Containers(paths), dir, ext) <==> LiesIn(paths, p, dir, ext)
  {
    if p != "" { RowNameIs(paths, p); }
  }

  lemma {:induction false} TallyIs(paths: seq<string>, containers: set<string>, n: nat, dir: string, ext: Option<string>)
    requires n <= |paths| && forall p :: p in paths ==> (Falls(p, containers, dir, ext) <==> LiesIn(paths, p, dir, ext))
    ensures InRow(paths, n, dir, ext) == Tally(paths[..n], containers, dir, ext)
  {
    if n > 0 {
      var p := paths[n - 1];
      TallyIs(paths, containers, n - 1, dir, ext);
      assert paths[..n] == paths[..n - 1] + [p];
      TallyNext(paths[..n - 1], p, containers, dir, ext);
      assert p in paths;
    }
  }

  lemma InRowIs(paths: seq<string>, n: nat, dir: string, ext: Option<string>)
    requires n <= |paths|
    ensures InRow(paths, n, dir, ext) == Tally(paths[..n], Containers(paths), dir, ext)
  {
    forall p | p in paths ensures Falls(p, Containers(paths), dir, ext) <==> LiesIn(paths, p, dir, ext) {
      FallsIs(paths, p, dir, ext);
    }
    TallyIs(paths, Containers(paths), n, dir, ext);
  }

  /** The row's label is carried by more than half of its files, and when some
      extension is, it is the label. */
  ghost predicate MajorityLabel(paths: seq<string>, e: Entry) {
    && (e.ext != "" ==> 2 * InRow(paths, |paths|, e.dir, Some(e.ext)) > e.files)
    && forall x :: x != "" && 2 * InRow(paths, |paths|, e.dir, Some(x)) > e.files ==> x == e.ext
  }

  /** Larger rows first, then by name. */
  predicate InOrder(a: Entry, b: Entry) {
    a.files > b.files || (a.files == b.files && Ordering.Less(a.dir, b.dir))
  }

  /** All the rows, and nothing else: each row counts its own files, carries
      their majority label, and no path is without its row. */
  lemma RowsArePlain(paths: seq<string>, rows: seq<Entry>)
    requires RowsOf(paths, rows)
    ensures forall p :: p in paths && p != "" ==> exists e :: e in rows && e.dir == RowName(paths, p)
    ensures forall e :: e in rows ==> e.files == InRow(paths, |paths|, e.dir, None) > 0 && MajorityLabel(paths, e)
    ensures forall i, j :: 0 <= i < j < |rows| ==> InOrder(rows[i], rows[j]) && rows[i].dir != rows[j].dir
    ensures Kept(rows) == if |rows| <= 20 then rows else rows[..20]
  {
    assert paths[..|paths|] == paths;
    forall p | p in paths && p != "" ensures exists e :: e in rows && e.dir == RowName(paths, p) {
      RowNameIs(paths, p);
      assert HasDir(rows, GroupKey(p, Containers(paths)));
    }
    forall e | e in rows ensures e.files == InRow(paths, |paths|, e.dir, None) > 0 && MajorityLabel(paths, e) {
      RowIsPlain(paths, e);
    }
    DirsDistinct(paths, rows);
    forall i, j | 0 <= i < j < |rows| ensures InOrder(rows[i], rows[j]) {
      assert Before(rows[i], rows[j]);
    }
  }

  lemma RowIsPlain(paths: seq<string>, e: Entry)
    requires IsRow(paths, e)
    ensures e.files == InRow(paths, |paths|, e.dir, None) > 0 && MajorityLabel(paths, e)
  {
    assert paths[..|paths|] == paths;
    InRowIs(paths, |paths|, e.dir, None);
    forall x ensures InRow(paths, |paths|, e.dir, Some(x)) == Tally(paths, Containers(paths), e.dir, Some(x)) {
      InRowIs(paths, |paths|, e.dir, Some(x));
    }
  }

  /** A path of three parts or more lies in the row of its first two exactly when
      no listed path is a file directly under its first. */
  lemma DeepPathRow(paths: seq<string>, rows: seq<Entry>, p: string)
    requires RowsOf(paths, rows) && p in paths && |Split(p, '/')| >= 3
    ensures var parts := Split(p, '/');
      (exists e :: e in rows && e.dir == parts[0] + "/" + parts[1] + "/") <==> !HasFileIn(paths, parts[0])
    ensures var parts := Split(p, '/');
      (exists e :: e in rows && e.dir == parts[0] + "/") <==> HasFileIn(paths, parts[0])
  {
    var parts := Split(p, '/');
    assert p != "" by { assert Split("", '/') == [""]; }
    RowsArePlain(paths, rows);
    RowNameIs(paths, p);
    assert HasDir(rows, RowName(paths, p));
    forall e | e in rows
      ensures !HasFileIn(paths, parts[0]) ==> e.dir != parts[0] + "/"
      ensures HasFileIn(paths, parts[0]) ==> e.dir != parts[0] + "/" + parts[1] + "/"
    {
      TallyPositive(paths, Containers(paths), e.dir, None);
      var q :| q in paths && Falls(q, Containers(paths), e.dir, None);
      NotNested(paths, p, q);
    }
  }

  lemma NotNested(paths: seq<string>, p: string, q: string)
    requires p in paths && q in paths && p != "" && q != "" && |Split(p, '/')| >= 3
    ensures var parts := Split(p, '/');
      && (!HasFileIn(paths, parts[0]) ==> GroupKey(q, Containers(paths)) != parts[0] + "/")
      && (HasFileIn(paths, parts[0]) ==> GroupKey(q, Containers(paths)) != parts[0] + "/" + parts[1] + "/")
  {
    var parts := Split(p, '/');
    RowNameIs(paths, p);
    KeyHoldsPath(p, Containers(paths));
    if |Split(q, '/')| >= 2 {
      NoNesting(paths, p, q);
      NoNesting(paths, q, p);
      assert parts[0] + "/" <= parts[0] + "/" + parts[1] + "/";
    } else {
      RootIsNoDirectory(parts[0]);
      RootIsNoDirectory(parts[0] + "/" + parts[1]);
    }
  }

  lemma RootIsNoDirectory(dir: string)
    ensures "(root)" != dir + "/"
  {
    assert (dir + "/")[|dir + "/"| - 1] == '/' && "(root)"[5] == ')';
  }

  // ---- extensions ----

  lemma ExtNext(s: string, c: char)
    ensures Ext(s + [c]) == if c == '/' then "" else if c == '.' then "." else if Ext(s) == "" then "" else Ext(s) + [c]
  {
    assert (s + [c])[..|s|] == s;
  }

  lemma {:induction false} ExtGrows(s: string, tail: string)
    requires Ext(s) != "" && '.' !in tail && '/' !in tail
    ensures Ext(s + tail) == Ext(s) + tail
    decreases |tail|
  {
    if tail == "" {
      assert s + tail == s && Ext(s) + tail == Ext(s);
    } else {
      var init, c := tail[..|tail| - 1], tail[|tail| - 1];
      assert c in tail && tail == init + [c];
      ExtGrows(s, init);
      ExtNext(s + init, c);
      assert s + (init + [c]) == s + init + [c];
      assert Ext(s) + (init + [c]) == Ext(s) + init + [c];
    }
  }

  /** The extension of a path is what follows the last dot of its last element,
      the dot included. */
  lemma ExtIs(front: string, tail: string)
    requires '.' !in tail && '/' !in tail
    ensures Ext(front + "." + tail) == "." + tail
  {
    ExtNext(front, '.');
    ExtGrows(front + ".", tail);
  }

  /** An element without a dot has none. */
  lemma {:induction false} NoExt(front: string, tail: string)
    requires '.' !in tail && (front == "" || front[|front| - 1] == '/')
    ensures Ext(front + tail) == ""
    decreases |tail|
  {
    if tail == "" {
      assert front + tail == front;
    } else {
      var init, c := tail[..|tail| - 1], tail[|tail| - 1];
      NoExt(front, init);
      ExtNext(front + init, c);
      assert c in tail && front + tail == front + init + [c];
    }
  }

  /** Labels are compared without regard to ASCII case. */
  lemma LabelIgnoresCase(front: string, tail: string, other: string)
    requires '.' !in tail && '/' !in tail && '.' !in other && '/' !in other && |tail| == |other|
    requires forall i :: 0 <= i < |tail| ==>
      tail[i] == other[i] || ('A' <= tail[i] <= 'Z' && other[i] as int == tail[i] as int + 32)
    ensures Label(front + "." + tail) == Label(front + "." + other)
    ensures (forall i :: 0 <= i < |other| ==> !('A' <= other[i] <= 'Z')) ==> Label(front + "." + other) == "." + other
  {
    ExtIs(front, tail);
    ExtIs(front, other);
  }
}
