/** The byte order of strings and the sorted listing of a finite set of them. */
module Ordering {
  predicate Less(a: string, b: string) {
    if b == "" then false
    else if a == "" then true
    else a[0] < b[0] || (a[0] == b[0] && Less(a[1..], b[1..]))
  }

  lemma {:induction false} LessTotal(a: string, b: string)
    ensures Less(a, b) || a == b || Less(b, a)
    ensures !(Less(a, b) && Less(b, a)) && (a == b ==> !Less(a, b))
  {
    if a != "" && b != "" {
      LessTotal(a[1..], b[1..]);
      assert a == [a[0]] + a[1..] && b == [b[0]] + b[1..];
    }
  }

  lemma {:induction false} LessTransitive(a: string, b: string, c: string)
    requires Less(a, b) && Less(b, c)
    ensures Less(a, c)
  {
    if a != "" && a[0] == b[0] == c[0] {
      LessTransitive(a[1..], b[1..], c[1..]);
    }
  }

  /** A string comes before those it begins, and otherwise the first character
      in which two differ decides. */
  lemma {:induction false} LessIs(common: string, c: char, d: char, x: string, y: string)
    ensures c != d ==> (Less(common + [c] + x, common + [d] + y) <==> c < d)
    ensures Less(common, common + [c] + x) && !Less(common + [c] + x, common)
  {
    var a, b := common + [c] + x, common + [d] + y;
    if common != "" {
      LessIs(common[1..], c, d, x, y);
      assert a[1..] == common[1..] + [c] + x && b[1..] == common[1..] + [d] + y;
    }
  }

  ghost predicate Ascending(s: seq<string>) {
    forall i, j :: 0 <= i < j < |s| ==> Less(s[i], s[j])
  }

  lemma Inhabited(s: seq<string>)
    ensures s != [] ==> exists x :: x in s
  {
    if s != [] { assert s[0] in s; }
  }

  /** Two ascending listings of one set are the same sequence. */
  lemma {:induction false} ListingUnique(a: seq<string>, b: seq<string>)
    requires Ascending(a) && Ascending(b)
    requires forall x :: x in a <==> x in b
    ensures a == b
  {
    Inhabited(a);
    Inhabited(b);
    if a != [] && b != [] {
      assert a[0] in b && b[0] in a;
      LessTotal(a[0], b[0]);
      var i :| 0 <= i < |a| && a[i] == b[0];
      var j :| 0 <= j < |b| && b[j] == a[0];
      assert a[0] == b[0];
      forall x ensures x in a[1..] <==> x in b[1..] {
        LessTotal(x, x);
        if x in a[1..] { assert x in a && x != a[0]; }
        if x in b[1..] { assert x in b && x != b[0]; }
      }
      ListingUnique(a[1..], b[1..]);
    }
  }

  function Insert(s: seq<string>, x: string): seq<string> {
    if s == [] || Less(x, s[0]) then [x] + s else [s[0]] + Insert(s[1..], x)
  }

  lemma {:induction false} InsertAscends(s: seq<string>, x: string)
    requires Ascending(s) && x !in s
    ensures Ascending(Insert(s, x))
    ensures forall y :: y in Insert(s, x) <==> y in s || y == x
  {
    if s != [] {
      LessTotal(x, s[0]);
      if Less(x, s[0]) {
        forall k | 0 <= k < |s| ensures Less(x, s[k]) {
          if k > 0 { LessTransitive(x, s[0], s[k]); }
        }
      } else {
        InsertAscends(s[1..], x);
        assert s == [s[0]] + s[1..];
        forall y | y in Insert(s[1..], x) ensures Less(s[0], y) {}
      }
    }
  }

  /** sort.Strings over the members of a set. */
  method Listing(members: set<string>) returns (r: seq<string>)
    ensures Ascending(r)
    ensures forall x :: x in r <==> x in members
  {
    r := [];
    var todo := members;
    while todo != {}
      invariant todo <= members
      invariant Ascending(r)
      invariant forall x :: x in r <==> x in members - todo
      decreases |todo|
    {
      var x :| x in todo;
      InsertAscends(r, x);
      r := Insert(r, x);
      todo := todo - {x};
    }
  }
}
