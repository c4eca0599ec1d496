/** Configuration documents as the decoder leaves them in memory: objects with
    an identity, updated in place by rawSet while it walks a path. */
module RawConfig {
  import opened Wrappers
  import opened Floats

  datatype Value = Str(text: string) | Boolean(flag: bool) | Whole(n: int) | Number(f: F64) | Other(json: string)

  /** A field of an object: a value, or a reference to another object. */
  datatype Cell = Leaf(value: Value) | Sub(at: nat)

  /** The objects by address; the document itself is at address 0. */
  type Memory = seq<map<string, Cell>>

  type Path = seq<string>

  /** References lead to objects. */
  ghost predicate Closed(mem: Memory) {
    mem != [] && forall a, k :: 0 <= a < |mem| && k in mem[a] && mem[a][k].Sub? ==> mem[a][k].at < |mem|
  }

  /** One field on from where a path has led so far. */
  function Follow(mem: Memory, cur: Option<Cell>, field: string): Option<Cell> {
    if cur.Some? && cur.value.Sub? && cur.value.at < |mem| && field in mem[cur.value.at]
    then Some(mem[cur.value.at][field])
    else None
  }

  function Get(mem: Memory, path: Path): Option<Cell> {
    if path == [] then Some(Sub(0)) else Follow(mem, Get(mem, path[..|path| - 1]), path[|path| - 1])
  }

  /** No two paths lead to one object: what the decoder builds is a tree. */
  ghost predicate Unshared(mem: Memory) {
    forall p, q :: Get(mem, p).Some? && Get(mem, p).value.Sub? && Get(mem, p) == Get(mem, q) ==> p == q
  }

  ghost predicate Valid(mem: Memory) { Closed(mem) && Unshared(mem) }

  function Put(mem: Memory, m: nat, path: Path, v: Value): Memory
    requires m < |mem| && path != []
    decreases |path|
  {
    var field := path[0];
    if |path| == 1 then mem[m := mem[m][field := Leaf(v)]]
    else if field in mem[m] && mem[m][field].Sub? then
      if mem[m][field].at < |mem| then Put(mem, mem[m][field].at, path[1..], v) else mem
    else Put(mem[m := mem[m][field := Sub(|mem|)]] + [map[]], |mem|, path[1..], v)
  }

  class Document {
    var mem: Memory

    constructor (mem: Memory)
      requires Valid(mem)
      ensures this.mem == mem
    {
      this.mem := mem;
    }

    method RawGet(path: Path) returns (r: Option<Cell>)
      requires Valid(mem)
      ensures r == Get(mem, path)
    {
      r := Some(Sub(0));
      for i := 0 to |path|
        invariant r.Some? && r == Get(mem, path[..i])
      {
        GetClosed(mem, path[..i]);
        assert path[..i + 1][..i] == path[..i];
        if !r.value.Sub? {
          GetStops(mem, path[..i + 1], path[i + 1..]);
          assert path[..i + 1] + path[i + 1..] == path;
          return None;
        }
        var mm := mem[r.value.at];
        if path[i] !in mm {
          GetStops(mem, path[..i + 1], path[i + 1..]);
          assert path[..i + 1] + path[i + 1..] == path;
          return None;
        }
        r := Some(mm[path[i]]);
      }
      assert path[..|path|] == path;
    }

    /** The source indexes the last element, so a path is never empty. */
    method RawSet(path: Path, v: Value)
      requires Valid(mem) && path != []
      modifies this
      ensures mem == Put(old(mem), 0, path, v)
    {
      var m: nat := 0;
      for i := 0 to |path| - 1
        invariant m < |mem| && Closed(mem)
        invariant Put(mem, m, path[i..], v) == Put(old(mem), 0, path, v)
      {
        assert path[i..][0] == path[i] && path[i..][1..] == path[i + 1..];
        if path[i] in mem[m] && mem[m][path[i]].Sub? {
          m := mem[m][path[i]].at;
        } else {
          ClosedNew(mem, m, path[i]);
          var next := |mem|;
          mem := mem[m := mem[m][path[i] := Sub(next)]] + [map[]];
          m := next;
        }
      }
      mem := mem[m := mem[m][path[|path| - 1] := Leaf(v)]];
    }
  }

  lemma ClosedNew(mem: Memory, m: nat, field: string)
    requires Closed(mem) && m < |mem|
    ensures Closed(mem[m := mem[m][field := Sub(|mem|)]] + [map[]])
  {}

  // ---- reading ----

  lemma {:induction false} GetClosed(mem: Memory, path: Path)
    requires Closed(mem)
    ensures Get(mem, path).Some? && Get(mem, path).value.Sub? ==> Get(mem, path).value.at < |mem|
  {
    if path != [] { GetClosed(mem, path[..|path| - 1]); }
  }

  /** Nothing is read beyond a path that leads to no field. */
  lemma {:induction false} GetStops(mem: Memory, path: Path, more: Path)
    requires Get(mem, path) == None
    ensures Get(mem, path + more) == None
    decreases |more|
  {
    if more == [] {
      assert path + more == path;
    } else {
      assert (path + more)[..|path + more| - 1] == path + more[..|more| - 1];
      GetStops(mem, path, more[..|more| - 1]);
    }
  }

  lemma GetNext(mem: Memory, path: Path, field: string)
    ensures Get(mem, path + [field]) == Follow(mem, Get(mem, path), field)
  {
    assert (path + [field])[..|path|] == path;
  }

  /** Nothing is read beyond a value either. */
  lemma GetPastValue(mem: Memory, path: Path, more: Path)
    requires more != [] && (Get(mem, path).None? || Get(mem, path).value.Leaf?)
    ensures Get(mem, path + more) == None
  {
    GetNext(mem, path, more[0]);
    GetStops(mem, path + [more[0]], more[1..]);
    assert path + more == path + [more[0]] + more[1..];
  }

  // ---- one store ----

  /** A field of the object at m set to a cell, with the new object it refers to, if any. */
  function Store(mem: Memory, m: nat, field: string, c: Cell): Memory
    requires m < |mem|
  {
    mem[m := mem[m][field := c]] + if c.Sub? then [map[]] else []
  }

  /** What a read of q gives after the store. */
  function AfterStore(mem: Memory, w: Path, field: string, c: Cell, q: Path): Option<Cell> {
    if w + [field] <= q then (if |q| == |w| + 1 then Some(c) else None) else Get(mem, q)
  }

  lemma StepBelow(mem: Memory, w: Path, m: nat, field: string, c: Cell, front: Path, last: string)
    requires Closed(mem) && m < |mem| && (c.Sub? ==> c.at == |mem|) && w + [field] <= front
    ensures Follow(Store(mem, m, field, c), AfterStore(mem, w, field, c, front), last) == None
    ensures w + [field] <= front + [last] && |front + [last]| != |w| + 1
  {}

  lemma StepBeside(mem: Memory, w: Path, m: nat, field: string, c: Cell, front: Path, last: string)
    requires Valid(mem) && Get(mem, w) == Some(Sub(m)) && m < |mem| && !(w + [field] <= front)
    ensures Follow(Store(mem, m, field, c), Get(mem, front), last) == AfterStore(mem, w, field, c, front + [last])
  {
    GetNext(mem, front, last);
    GetClosed(mem, front);
    var q := front + [last];
    if w + [field] <= q {
      assert |q| == |w| + 1 && front == w && last == field;
    } else if Get(mem, front) == Some(Sub(m)) {
      assert front == w;
      assert last == field ==> w + [field] == q;
    }
  }

  /** In a tree, a store shows at the path of the field and nowhere else. */
  lemma {:induction false} StoreShows(mem: Memory, w: Path, m: nat, field: string, c: Cell, q: Path)
    requires Valid(mem) && Get(mem, w) == Some(Sub(m)) && m < |mem| && (c.Sub? ==> c.at == |mem|)
    ensures Get(Store(mem, m, field, c), q) == AfterStore(mem, w, field, c, q)
    decreases |q|
  {
    if q != [] {
      var front, last := q[..|q| - 1], q[|q| - 1];
      assert q == front + [last];
      StoreShows(mem, w, m, field, c, front);
      if w + [field] <= front {
        StepBelow(mem, w, m, field, c, front, last);
      } else {
        StepBeside(mem, w, m, field, c, front, last);
      }
    }
  }

  lemma StoreKeepsTree(mem: Memory, w: Path, m: nat, field: string, c: Cell)
    requires Valid(mem) && Get(mem, w) == Some(Sub(m)) && m < |mem| && (c.Sub? ==> c.at == |mem|)
    ensures Valid(Store(mem, m, field, c))
  {
    var mem' := Store(mem, m, field, c);
    forall p, q | Get(mem', p).Some? && Get(mem', p).value.Sub? && Get(mem', p) == Get(mem', q) ensures p == q {
      StoreShows(mem, w, m, field, c, p);
      StoreShows(mem, w, m, field, c, q);
      GetClosed(mem, p);
      GetClosed(mem, q);
    }
  }

  // ---- one write ----

  predicate Related(p: Path, q: Path) { p <= q || q <= p }

  /** What is read after v is written at `path`, from what was read before. */
  ghost predicate Written(before: Memory, after: Memory, path: Path, v: Value) {
    && Valid(after)
    && Get(after, path) == Some(Leaf(v))
    && (forall q :: !Related(path, q) ==> Get(after, q) == Get(before, q))
    && (forall q :: path < q ==> Get(after, q) == None)
    && (forall q :: q < path ==> Get(after, q).Some? && Get(after, q).value.Sub?)
  }

  /** Every path above w leads to an object. */
  ghost predicate ObjectsAbove(mem: Memory, w: Path) {
    forall i :: 0 <= i < |w| ==> Get(mem, w[..i]).Some? && Get(mem, w[..i]).value.Sub?
  }

  lemma PrefixIsSlice(q: Path, w: Path)
    requires q < w
    ensures |q| < |w| && w[..|q|] == q
  {}

  lemma ObjectsAboveNext(mem: Memory, w: Path, field: string)
    requires ObjectsAbove(mem, w) && Get(mem, w).Some? && Get(mem, w).value.Sub?
    ensures ObjectsAbove(mem, w + [field])
  {
    forall i | 0 <= i <= |w| ensures (w + [field])[..i] == w[..i] {}
    assert w[..|w|] == w;
  }

  lemma LeafWrites(mem: Memory, w: Path, m: nat, field: string, v: Value)
    requires Valid(mem) && Get(mem, w) == Some(Sub(m)) && m < |mem| && ObjectsAbove(mem, w)
    ensures Written(mem, Store(mem, m, field, Leaf(v)), w + [field], v)
  {
    var after, path := Store(mem, m, field, Leaf(v)), w + [field];
    StoreKeepsTree(mem, w, m, field, Leaf(v));
    forall q ensures Get(after, q) == AfterStore(mem, w, field, Leaf(v), q) {
      StoreShows(mem, w, m, field, Leaf(v), q);
    }
    ObjectsAboveNext(mem, w, field);
    forall q | q < path ensures Get(after, q).Some? && Get(after, q).value.Sub? {
      PrefixIsSlice(q, path);
    }
  }

  /** A new object where there was none changes only what is read at its path. */
  lemma ObjectAdded(mem: Memory, w: Path, m: nat, field: string, q: Path)
    requires Valid(mem) && Get(mem, w) == Some(Sub(m)) && m < |mem|
    requires Get(mem, w + [field]).Some? ==> Get(mem, w + [field]).value.Leaf?
    ensures Get(Store(mem, m, field, Sub(|mem|)), q) == if q == w + [field] then Some(Sub(|mem|)) else Get(mem, q)
  {
    StoreShows(mem, w, m, field, Sub(|mem|), q);
    if w + [field] < q {
      var more := q[|w| + 1..];
      assert q == w + [field] + more;
      GetPastValue(mem, w + [field], more);
    }
  }

  lemma AboveStays(mem: Memory, after: Memory, w: Path)
    requires ObjectsAbove(mem, w) && forall q :: q != w ==> Get(after, q) == Get(mem, q)
    ensures ObjectsAbove(after, w)
  {
    forall i | 0 <= i < |w| ensures Get(after, w[..i]) == Get(mem, w[..i]) {
      assert |w[..i]| == i;
    }
  }

  lemma {:induction false} PutWrites(mem: Memory, w: Path, m: nat, rest: Path, v: Value)
    requires Valid(mem) && Get(mem, w) == Some(Sub(m)) && m < |mem| && rest != [] && ObjectsAbove(mem, w)
    ensures Written(mem, Put(mem, m, rest, v), w + rest, v)
    decreases |rest|
  {
    var field := rest[0];
    assert w + [field] + rest[1..] == w + rest;
    GetNext(mem, w, field);
    if |rest| == 1 {
      assert rest == [field];
      LeafWrites(mem, w, m, field, v);
      assert Store(mem, m, field, Leaf(v)) == Put(mem, m, rest, v);
    } else if field in mem[m] && mem[m][field].Sub? {
      ObjectsAboveNext(mem, w, field);
      PutWrites(mem, w + [field], mem[m][field].at, rest[1..], v);
    } else {
      var mem1 := Store(mem, m, field, Sub(|mem|));
      StoreKeepsTree(mem, w, m, field, Sub(|mem|));
      forall q ensures Get(mem1, q) == if q == w + [field] then Some(Sub(|mem|)) else Get(mem, q) {
        ObjectAdded(mem, w, m, field, q);
      }
      ObjectsAboveNext(mem, w, field);
      AboveStays(mem, mem1, w + [field]);
      PutWrites(mem1, w + [field], |mem|, rest[1..], v);
      WrittenFrom(mem, mem1, Put(mem, m, rest, v), w + [field], w + rest, v);
    }
  }

  lemma WrittenFrom(mem: Memory, mem1: Memory, after: Memory, w: Path, path: Path, v: Value)
    requires Written(mem1, after, path, v) && w <= path
    requires forall q :: q != w ==> Get(mem1, q) == Get(mem, q)
    ensures Written(mem, after, path, v)
  {}

  /** rawSet, then rawGet: the path reads as written, every unrelated path as
      before, nothing is left beyond the path, and objects lead up to it. */
  lemma SetThenGet(mem: Memory, path: Path, v: Value)
    requires Valid(mem) && path != []
    ensures Written(mem, Put(mem, 0, path, v), path, v)
  {
    assert Get(mem, []) == Some(Sub(0));
    PutWrites(mem, [], 0, path, v);
    assert [] + path == path;
  }

  // ---- runs of writes ----

  datatype Write = Write(path: Path, v: Value)

  function AfterWrites(mem: Memory, writes: seq<Write>): Memory
    requires mem != [] && forall w :: w in writes ==> w.path != []
    ensures |AfterWrites(mem, writes)| >= |mem|
    decreases |writes|
  {
    if writes == [] then mem
    else
      var before := AfterWrites(mem, writes[..|writes| - 1]);
      PutGrows(before, 0, writes[|writes| - 1].path, writes[|writes| - 1].v);
      Put(before, 0, writes[|writes| - 1].path, writes[|writes| - 1].v)
  }

  lemma {:induction false} PutGrows(mem: Memory, m: nat, path: Path, v: Value)
    requires m < |mem| && path != []
    ensures |Put(mem, m, path, v)| >= |mem|
    decreases |path|
  {
    var field := path[0];
    if |path| > 1 {
      if field in mem[m] && mem[m][field].Sub? {
        if mem[m][field].at < |mem| { PutGrows(mem, mem[m][field].at, path[1..], v); }
      } else {
        PutGrows(mem[m := mem[m][field := Sub(|mem|)]] + [map[]], |mem|, path[1..], v);
      }
    }
  }

  /** The last write that bears on a path. */
  function LastRelated(writes: seq<Write>, q: Path): Option<Write> {
    if writes == [] then None
    else if Related(writes[|writes| - 1].path, q) then Some(writes[|writes| - 1])
    else LastRelated(writes[..|writes| - 1], q)
  }

  /** After any run of writes, the last write bearing on a path says what is
      read there: its value at its own path, nothing beyond it, an object above
      it; and where no write bears, everything reads as at the start. */
  lemma {:induction false} RunOfWrites(mem: Memory, writes: seq<Write>, q: Path)
    requires Valid(mem) && forall w :: w in writes ==> w.path != []
    ensures Valid(AfterWrites(mem, writes))
    ensures var r, last := Get(AfterWrites(mem, writes), q), LastRelated(writes, q);
      if last.None? then r == Get(mem, q)
      else if last.value.path == q then r == Some(Leaf(last.value.v))
      else if last.value.path < q then r == None
      else r.Some? && r.value.Sub?
    decreases |writes|
  {
    if writes != [] {
      var w := writes[|writes| - 1];
      assert w in writes;
      RunOfWrites(mem, writes[..|writes| - 1], q);
      SetThenGet(AfterWrites(mem, writes[..|writes| - 1]), w.path, w.v);
    }
  }
}
