/** Reading the new-side line ranges of a unified diff, and a printer it undoes. */
module Diff {
  import opened Wrappers
  import opened Text

  /** Inclusive, 1-based. */
  datatype Range = Range(start: int, end: int)

  /** A sum in the 64-bit int of the source. */
  function Wrap(n: int): int { (n + MAX_INT + 1) % (2 * MAX_INT + 2) - MAX_INT - 1 }

  /** Drops git's a/ or b/ prefix; "" when there is no file on that side. */
  function Unprefixed(s: string): string {
    if s == "/dev/null" || s == "" then ""
    else if "b/" <= s || "a/" <= s then s[2..]
    else s
  }

  function ParseDiffPath(text: string): string { Unprefixed(TrimSpace(UpTo(text, '\t'))) }

  function MakeRange(start: Option<int>, count: Option<int>): Option<Range> {
    if start.None? || count.None? || count.value <= 0 then None
    else Some(Range(start.value, Wrap(start.value + count.value - 1)))
  }

  /** "start,count" or "start". */
  function ParseSpan(spec: string): Option<Range> {
    MakeRange(Atoi(UpTo(spec, ',')), if ',' in spec then Atoi(AfterFirst(spec, ',')) else Some(1))
  }

  function ParseHunkNewSide(header: string): Option<Range> {
    if '+' !in header then None
    else ParseSpan(UpTo(UpTo(AfterFirst(header, '+'), ' '), '\t'))
  }

  /** The path in force and the ranges found so far. */
  datatype Scan = Scan(path: string, out: map<string, seq<Range>>)

  function RangesAt(out: map<string, seq<Range>>, path: string): seq<Range> {
    if path in out then out[path] else []
  }

  function Add(out: map<string, seq<Range>>, path: string, r: Option<Range>): map<string, seq<Range>> {
    if path == "" || r.None? then out else out[path := RangesAt(out, path) + [r.value]]
  }

  function ScanLine(st: Scan, line: string): Scan {
    if "+++ " <= line then st.(path := ParseDiffPath(line[4..]))
    else if "@@ " <= line then st.(out := Add(st.out, st.path, ParseHunkNewSide(line)))
    else st
  }

  function ScanFrom(st: Scan, lines: seq<string>): Scan
    decreases |lines|
  {
    if lines == [] then st else ScanFrom(ScanLine(st, lines[0]), lines[1..])
  }

  function Ranges(unified: string): map<string, seq<Range>> {
    ScanFrom(Scan("", map[]), Split(unified, '\n')).out
  }

  method AddedRanges(unified: string) returns (out: map<string, seq<Range>>)
    ensures out == Ranges(unified)
  {
    out := map[];
    var path := "";
    var lines := Split(unified, '\n');
    for i := 0 to |lines|
      invariant ScanFrom(Scan(path, out), lines[i..]) == ScanFrom(Scan("", map[]), lines)
    {
      assert lines[i..][0] == lines[i] && lines[i..][1..] == lines[i + 1..];
      var line := lines[i];
      if "+++ " <= line {
        path := ParseDiffPath(line[4..]);
      } else if "@@ " <= line {
        if path == "" {
          continue;
        }
        var r := ParseHunkNewSide(line);
        if r.Some? {
          out := out[path := RangesAt(out, path) + [r.value]];
        }
      }
    }
  }

  // ---- the printer: section headers, hunk headers and hunk bodies ----

  /** `body` holds the hunk's lines with their markers. */
  datatype Hunk = Hunk(oldStart: nat, oldCount: nat, start: nat, count: nat, heading: string, body: seq<string>)

  datatype NewSide = Kept(path: string) | Deleted

  /** `preamble`: everything git prints above the "+++" line. */
  datatype Section = Section(preamble: seq<string>, newSide: NewSide, hunks: seq<Hunk>)

  /** git marks a path containing a space with a trailing tab. */
  function PathText(path: string): string { "b/" + path + (if ' ' in path then "\t" else "") }

  function NewSideLine(side: NewSide): string {
    "+++ " + (match side case Kept(path) => PathText(path) case Deleted => "/dev/null")
  }

  /** A count of 1 is left out. */
  function Span(start: nat, count: nat): string {
    if count == 1 then Itoa(start) else Itoa(start) + [','] + Itoa(count)
  }

  function HunkHeader(h: Hunk): string {
    "@@ -" + Span(h.oldStart, h.oldCount) + " " + ['+'] + (Span(h.start, h.count) + [' '] + ("@@" + h.heading))
  }

  function HunkLines(hunks: seq<Hunk>): seq<string> {
    if hunks == [] then [] else [HunkHeader(hunks[0])] + hunks[0].body + HunkLines(hunks[1..])
  }

  function SectionLines(s: Section): seq<string> { s.preamble + [NewSideLine(s.newSide)] + HunkLines(s.hunks) }

  function DiffLines(sections: seq<Section>): seq<string> {
    if sections == [] then [] else SectionLines(sections[0]) + DiffLines(sections[1..])
  }

  function Unlines(lines: seq<string>): string {
    if lines == [] then "" else lines[0] + "\n" + Unlines(lines[1..])
  }

  function Print(sections: seq<Section>): string { Unlines(DiffLines(sections)) }

  /** What the diff says about the new side. */
  function HunkRange(h: Hunk): Option<Range> {
    if h.count == 0 then None else Some(Range(h.start, h.start + h.count - 1))
  }

  function AddHunks(out: map<string, seq<Range>>, path: string, hunks: seq<Hunk>): map<string, seq<Range>>
    decreases |hunks|
  {
    if hunks == [] then out else AddHunks(Add(out, path, HunkRange(hunks[0])), path, hunks[1..])
  }

  function Expected(out: map<string, seq<Range>>, sections: seq<Section>): map<string, seq<Range>>
    decreases |sections|
  {
    if sections == [] then out
    else
      Expected(match sections[0].newSide case Kept(path) => AddHunks(out, path, sections[0].hunks) case Deleted => out,
               sections[1..])
  }

  // ---- what can be printed ----

  /** Neither a "+++" line nor a hunk header. */
  predicate Plain(line: string) { '\n' !in line && !("+++ " <= line) && !("@@ " <= line) }

  predicate PathOk(path: string) {
    path != "" && '\t' !in path && !IsSpace(path[|path| - 1])
  }

  predicate HunkOk(h: Hunk) {
    h.start + h.count <= MAX_INT && '\n' !in h.heading && forall l :: l in h.body ==> Plain(l)
  }

  predicate SectionOk(s: Section) {
    (s.newSide.Kept? ==> PathOk(s.newSide.path) && '\n' !in s.newSide.path) &&
    (forall l :: l in s.preamble ==> Plain(l)) && forall h :: h in s.hunks ==> HunkOk(h)
  }

  /** A hunk with zero context: the lines it removes and the lines it adds. */
  datatype Change = Change(oldStart: nat, removed: seq<string>, start: nat, added: seq<string>, heading: string)

  function Marked(marker: char, lines: seq<string>): seq<string> {
    if lines == [] then [] else [[marker] + lines[0]] + Marked(marker, lines[1..])
  }

  function HunkOf(c: Change): Hunk {
    Hunk(c.oldStart, |c.removed|, c.start, |c.added|, c.heading, Marked('-', c.removed) + Marked('+', c.added))
  }

  predicate OneLine(s: string) { '\n' !in s }

  predicate ChangeOk(c: Change) {
    c.start + |c.added| <= MAX_INT && OneLine(c.heading)
    && (forall l :: l in c.removed ==> OneLine(l)) && forall l :: l in c.added ==> OneLine(l)
  }

  ghost predicate AllPlain(lines: seq<string>) { forall l :: l in lines ==> Plain(l) }

  /** No added line that reads as a file header. */
  ghost predicate NoHeader(marker: char, lines: seq<string>) {
    marker == '+' ==> forall l :: l in lines ==> !("++ " <= l)
  }

  /** An added line looks like a file header exactly when its content begins with "++ ". */
  lemma HeaderMark(l: string)
    ensures "+++ " <= ['+'] + l <==> "++ " <= l
  {
    var line := ['+'] + l;
    if "++ " <= l {
      assert l[..3] == "++ ";
      assert line[..4] == ['+'] + l[..3];
    }
    if "+++ " <= line {
      assert line[..4] == "+++ ";
      assert l[..3] == line[1..4];
    }
  }

  lemma PlainMarked(marker: char, l: string)
    requires marker in {'-', '+'}
    ensures Plain([marker] + l) <==> OneLine(l) && (marker == '+' ==> !("++ " <= l))
  {
    var line := [marker] + l;
    HeaderMark(l);
    assert line[0] == marker && "+++ "[0] == '+' && "@@ "[0] == '@';
    assert '\n' in line <==> '\n' in l;
  }

  lemma AllPlainJoin(a: seq<string>, b: seq<string>)
    ensures AllPlain(a + b) <==> AllPlain(a) && AllPlain(b)
  {
    forall l ensures l in a + b <==> l in a || l in b {}
  }

  lemma {:induction false} MarkedPlain(marker: char, lines: seq<string>)
    requires marker in {'-', '+'} && forall l :: l in lines ==> OneLine(l)
    ensures AllPlain(Marked(marker, lines)) <==> NoHeader(marker, lines)
  {
    if lines != [] {
      PlainMarked(marker, lines[0]);
      MarkedPlain(marker, lines[1..]);
      AllPlainJoin([[marker] + lines[0]], Marked(marker, lines[1..]));
      assert AllPlain([[marker] + lines[0]]) <==> Plain([marker] + lines[0]) by {
        assert ([marker] + lines[0]) in [[marker] + lines[0]];
      }
      forall l ensures l in lines <==> l == lines[0] || l in lines[1..] {
        assert lines == [lines[0]] + lines[1..];
      }
    }
  }

  /** A zero-context hunk is one the round trip covers exactly when no line it
      adds begins with "++ ". */
  lemma ChangePrints(c: Change)
    requires ChangeOk(c)
    ensures HunkOk(HunkOf(c)) <==> forall l :: l in c.added ==> !("++ " <= l)
    ensures HunkRange(HunkOf(c)) == if c.added == [] then None else Some(Range(c.start, c.start + |c.added| - 1))
  {
    MarkedPlain('-', c.removed);
    MarkedPlain('+', c.added);
    AllPlainJoin(Marked('-', c.removed), Marked('+', c.added));
  }

  // ---- reading back the pieces ----

  lemma PathCut(path: string)
    requires '\t' !in path
    ensures UpTo(PathText(path), '\t') == "b/" + path
  {
    CutAt("b/" + path, "", '\t');
    if ' ' in path {
      assert PathText(path) == "b/" + path + ['\t'] + "";
    } else {
      assert PathText(path) == "b/" + path;
    }
  }

  /** Whatever reads back holds no tab and does not end in space. */
  lemma ParsedPathIs(text: string)
    ensures '\t' !in ParseDiffPath(text)
    ensures ParseDiffPath(text) != "" ==> !IsSpace(ParseDiffPath(text)[|ParseDiffPath(text)| - 1])
  {
    var cut := UpTo(text, '\t');
    var path := TrimSpace(cut);
    UpToIs(text, '\t');
    TrimSpaceIs(cut);
    var i, j :| 0 <= i <= j <= |cut| && path == cut[i..j];
    assert forall k :: 0 <= k < |path| ==> path[k] == cut[i + k];
    assert '\t' !in path;
    UnprefixedEnds(path);
  }

  lemma UnprefixedEnds(s: string)
    ensures forall c :: c in Unprefixed(s) ==> c in s
    ensures Unprefixed(s) != "" ==> s != "" && Unprefixed(s)[|Unprefixed(s)| - 1] == s[|s| - 1]
  {}

  /** A printed path reads back exactly when it holds no tab and does not end in space. */
  lemma PathReadsBack(path: string)
    requires path != ""
    ensures ParseDiffPath(PathText(path)) == path <==> '\t' !in path && !IsSpace(path[|path| - 1])
  {
    ParsedPathIs(PathText(path));
    if '\t' !in path && !IsSpace(path[|path| - 1]) {
      PathCut(path);
      TrimSpaceKeeps("b/" + path);
      assert ("b/" + path)[2..] == path;
    }
  }

  lemma WrapFits(n: nat)
    requires n <= MAX_INT
    ensures Wrap(n) == n
  {}

  lemma SpanCharacters(start: nat, count: nat)
    ensures ',' !in Itoa(start)
    ensures '+' !in Span(start, count) && ' ' !in Span(start, count) && '\t' !in Span(start, count) && '\n' !in Span(start, count)
  {}

  lemma SpanReadsBack(start: nat, count: nat)
    requires start + count <= MAX_INT
    ensures ParseSpan(Span(start, count)) == if count == 0 then None else Some(Range(start, start + count - 1))
  {
    SpanCharacters(start, count);
    CutAt(Itoa(start), Itoa(count), ',');
    AtoiItoa(start);
    AtoiItoa(count);
    if count > 0 { WrapFits(start + count - 1); }
  }

  lemma HeaderCut(left: string, span: string, right: string)
    requires '+' !in left && ' ' !in span && '\t' !in span
    ensures ParseHunkNewSide(left + ['+'] + (span + [' '] + right)) == ParseSpan(span)
  {
    CutAt(left, span + [' '] + right, '+');
    CutAt(span, right, ' ');
    CutAt(span, "", '\t');
  }

  lemma HeaderIsOneLine(h: Hunk)
    requires HunkOk(h)
    ensures "@@ " <= HunkHeader(h) && '\n' !in HunkHeader(h)
  {
    SpanCharacters(h.oldStart, h.oldCount);
    SpanCharacters(h.start, h.count);
    assert HunkHeader(h)[..3] == "@@ ";
  }

  lemma HeaderReads(h: Hunk)
    ensures ParseHunkNewSide(HunkHeader(h)) == ParseSpan(Span(h.start, h.count))
  {
    SpanCharacters(h.oldStart, h.oldCount);
    SpanCharacters(h.start, h.count);
    HeaderCut("@@ -" + Span(h.oldStart, h.oldCount) + " ", Span(h.start, h.count), "@@" + h.heading);
  }

  lemma HunkReadsBack(h: Hunk)
    requires HunkOk(h)
    ensures ParseHunkNewSide(HunkHeader(h)) == HunkRange(h)
  {
    HeaderReads(h);
    SpanReadsBack(h.start, h.count);
  }

  // ---- the round trip ----

  lemma {:induction false} ScanJoins(st: Scan, a: seq<string>, b: seq<string>)
    ensures ScanFrom(st, a + b) == ScanFrom(ScanFrom(st, a), b)
    decreases |a|
  {
    if a == [] {
      assert a + b == b;
    } else {
      assert (a + b)[0] == a[0] && (a + b)[1..] == a[1..] + b;
      ScanJoins(ScanLine(st, a[0]), a[1..], b);
    }
  }

  lemma {:induction false} PlainSkipped(st: Scan, lines: seq<string>)
    requires forall l :: l in lines ==> Plain(l)
    ensures ScanFrom(st, lines) == st
  {
    if lines != [] {
      assert lines[0] in lines;
      PlainSkipped(st, lines[1..]);
    }
  }

  lemma HunkScanned(st: Scan, h: Hunk)
    requires HunkOk(h)
    ensures ScanFrom(st, [HunkHeader(h)] + h.body) == st.(out := Add(st.out, st.path, HunkRange(h)))
  {
    HunkReadsBack(h);
    HeaderIsOneLine(h);
    var st' := ScanLine(st, HunkHeader(h));
    assert !("+++ " <= HunkHeader(h)) by { assert HunkHeader(h)[0] == '@'; }
    ScanJoins(st, [HunkHeader(h)], h.body);
    assert ScanFrom(st, [HunkHeader(h)]) == st';
    PlainSkipped(st', h.body);
  }

  lemma {:induction false} HunksScanned(st: Scan, hunks: seq<Hunk>)
    requires forall h :: h in hunks ==> HunkOk(h)
    ensures ScanFrom(st, HunkLines(hunks)) == st.(out := if st.path == "" then st.out else AddHunks(st.out, st.path, hunks))
    decreases |hunks|
  {
    if hunks != [] {
      var h := hunks[0];
      ScanJoins(st, [HunkHeader(h)] + h.body, HunkLines(hunks[1..]));
      HunkScanned(st, h);
      HunksScanned(st.(out := Add(st.out, st.path, HunkRange(h))), hunks[1..]);
    }
  }

  lemma SectionScanned(st: Scan, s: Section)
    requires SectionOk(s)
    ensures ScanFrom(st, SectionLines(s)).out ==
      match s.newSide case Kept(path) => AddHunks(st.out, path, s.hunks) case Deleted => st.out
  {
    var line := NewSideLine(s.newSide);
    ScanJoins(st, s.preamble + [line], HunkLines(s.hunks));
    ScanJoins(st, s.preamble, [line]);
    PlainSkipped(st, s.preamble);
    var st' := ScanLine(st, line);
    assert ScanFrom(st, [line]) == st';
    NewSideReadsBack(s.newSide);
    HunksScanned(st', s.hunks);
  }

  lemma BarePathReads(s: string)
    requires s != "" && '\t' !in s && !IsSpace(s[0]) && !IsSpace(s[|s| - 1])
    ensures ParseDiffPath(s) == Unprefixed(s)
  {
    CutAt(s, "", '\t');
    TrimSpaceKeeps(s);
  }

  lemma NewSideReadsBack(side: NewSide)
    requires side.Kept? ==> PathOk(side.path)
    ensures "+++ " <= NewSideLine(side)
    ensures ParseDiffPath(NewSideLine(side)[4..]) == match side case Kept(path) => path case Deleted => ""
  {
    match side
    case Kept(path) =>
      assert NewSideLine(side)[4..] == PathText(path);
      PathReadsBack(path);
    case Deleted =>
      assert NewSideLine(side)[4..] == "/dev/null";
      BarePathReads("/dev/null");
  }

  lemma {:induction false} SectionsScanned(st: Scan, sections: seq<Section>)
    requires forall s :: s in sections ==> SectionOk(s)
    ensures ScanFrom(st, DiffLines(sections)).out == Expected(st.out, sections)
    decreases |sections|
  {
    if sections != [] {
      assert sections[0] in sections;
      ScanJoins(st, SectionLines(sections[0]), DiffLines(sections[1..]));
      SectionScanned(st, sections[0]);
      SectionsScanned(ScanFrom(st, SectionLines(sections[0])), sections[1..]);
    }
  }

  lemma {:induction false} SplitUnlines(lines: seq<string>)
    requires forall l :: l in lines ==> '\n' !in l
    ensures Split(Unlines(lines), '\n') == lines + [""]
  {
    if lines != [] {
      assert lines[0] in lines;
      SplitUnlines(lines[1..]);
      SplitHead(lines[0], Unlines(lines[1..]), '\n');
      assert lines[0] + "\n" + Unlines(lines[1..]) == lines[0] + ['\n'] + Unlines(lines[1..]);
    }
  }

  lemma {:induction false} HunkLinesOneLine(hunks: seq<Hunk>)
    requires forall h :: h in hunks ==> HunkOk(h)
    ensures forall l :: l in HunkLines(hunks) ==> '\n' !in l
  {
    if hunks != [] {
      HeaderIsOneLine(hunks[0]);
      HunkLinesOneLine(hunks[1..]);
    }
  }

  lemma {:induction false} LinesOneLine(sections: seq<Section>)
    requires forall s :: s in sections ==> SectionOk(s)
    ensures forall l :: l in DiffLines(sections) ==> '\n' !in l
  {
    if sections != [] {
      assert sections[0] in sections;
      HunkLinesOneLine(sections[0].hunks);
      LinesOneLine(sections[1..]);
    }
  }

  /** Printing and reading back gives, per path and in order, exactly the
      new-side range of every hunk that has one. */
  lemma RoundTrip(sections: seq<Section>)
    requires forall s :: s in sections ==> SectionOk(s)
    ensures Ranges(Print(sections)) == Expected(map[], sections)
  {
    LinesOneLine(sections);
    SplitUnlines(DiffLines(sections));
    var st := Scan("", map[]);
    ScanJoins(st, DiffLines(sections), [""]);
    SectionsScanned(st, sections);
  }

  // ---- the round trip, path by path ----

  /** The new-side lines of a hunk that has any. */
  function OwnRange(h: Hunk): seq<Range> {
    if h.count > 0 then [Range(h.start, h.start + h.count - 1)] else []
  }

  function HunkRanges(hunks: seq<Hunk>): seq<Range> {
    if hunks == [] then [] else OwnRange(hunks[0]) + HunkRanges(hunks[1..])
  }

  /** Those of the sections that name the path, in order. */
  function RangesOf(path: string, sections: seq<Section>): seq<Range> {
    if sections == [] then []
    else (if sections[0].newSide == Kept(path) then HunkRanges(sections[0].hunks) else []) + RangesOf(path, sections[1..])
  }

  ghost predicate NoneEmpty(out: map<string, seq<Range>>) { forall path :: path in out ==> out[path] != [] }

  lemma AddIs(out: map<string, seq<Range>>, path: string, h: Hunk, q: string)
    requires NoneEmpty(out) && path != ""
    ensures NoneEmpty(Add(out, path, HunkRange(h)))
    ensures RangesAt(Add(out, path, HunkRange(h)), q) == RangesAt(out, q) + if q == path then OwnRange(h) else []
  {}

  lemma {:induction false} AddHunksIs(out: map<string, seq<Range>>, path: string, hunks: seq<Hunk>, q: string)
    requires NoneEmpty(out) && path != ""
    ensures NoneEmpty(AddHunks(out, path, hunks))
    ensures RangesAt(AddHunks(out, path, hunks), q) == RangesAt(out, q) + if q == path then HunkRanges(hunks) else []
    decreases |hunks|
  {
    if hunks != [] {
      AddIs(out, path, hunks[0], q);
      AddHunksIs(Add(out, path, HunkRange(hunks[0])), path, hunks[1..], q);
    }
  }

  function AddSection(out: map<string, seq<Range>>, s: Section): map<string, seq<Range>> {
    match s.newSide case Kept(q) => AddHunks(out, q, s.hunks) case Deleted => out
  }

  lemma SectionAdds(out: map<string, seq<Range>>, s: Section, path: string)
    requires NoneEmpty(out) && SectionOk(s)
    ensures NoneEmpty(AddSection(out, s))
    ensures RangesAt(AddSection(out, s), path) == RangesAt(out, path) + if s.newSide == Kept(path) then HunkRanges(s.hunks) else []
  {
    if s.newSide.Kept? { AddHunksIs(out, s.newSide.path, s.hunks, path); }
  }

  lemma {:induction false} ExpectedIs(out: map<string, seq<Range>>, sections: seq<Section>, path: string)
    requires NoneEmpty(out) && forall s :: s in sections ==> SectionOk(s)
    ensures NoneEmpty(Expected(out, sections))
    ensures RangesAt(Expected(out, sections), path) == RangesAt(out, path) + RangesOf(path, sections)
    decreases |sections|
  {
    if sections != [] {
      assert sections[0] in sections;
      SectionAdds(out, sections[0], path);
      ExpectedIs(AddSection(out, sections[0]), sections[1..], path);
    }
  }

  /** Read back from what git prints, a path has exactly the lines
      [start, start + count - 1] of each non-empty hunk of the sections that name
      it, in order; and it is a key exactly when there is one. */
  lemma PathsReadBack(sections: seq<Section>, path: string)
    requires forall s :: s in sections ==> SectionOk(s)
    ensures path in Ranges(Print(sections)) <==> RangesOf(path, sections) != []
    ensures path in Ranges(Print(sections)) ==> Ranges(Print(sections))[path] == RangesOf(path, sections)
  {
    RoundTrip(sections);
    ExpectedIs(map[], sections, path);
  }

  lemma WrapPast(n: int)
    requires 0 <= n < 0x1_0000_0000_0000_0000
    ensures Wrap(n) == if n <= 0x7FFF_FFFF_FFFF_FFFF then n else n - 0x1_0000_0000_0000_0000
  {}

  lemma SpanWraps(start: nat, count: nat)
    requires start <= 0x7FFF_FFFF_FFFF_FFFF && 0 < count <= 0x7FFF_FFFF_FFFF_FFFF
    ensures ParseSpan(Span(start, count)) == Some(Range(start, Wrap(start + count - 1)))
  {
    SpanCharacters(start, count);
    CutAt(Itoa(start), Itoa(count), ',');
    AtoiItoa(start);
    AtoiItoa(count);
  }

  /** The end of a range is a 64-bit sum: past the largest int it wraps. */
  lemma EndWraps(h: Hunk)
    requires h.start <= 0x7FFF_FFFF_FFFF_FFFF && 0 < h.count <= 0x7FFF_FFFF_FFFF_FFFF
    ensures ParseHunkNewSide(HunkHeader(h)) ==
      var end := h.start + h.count - 1;
      Some(Range(h.start, if end <= 0x7FFF_FFFF_FFFF_FFFF then end else end - 0x1_0000_0000_0000_0000))
  {
    HeaderReads(h);
    SpanWraps(h.start, h.count);
    WrapPast(h.start + h.count - 1);
  }

  lemma UnprefixedIs(path: string)
    ensures Unprefixed("a/" + path) == path && Unprefixed("b/" + path) == path
    ensures path != "" && !("a/" <= path) && !("b/" <= path) && path != "/dev/null" ==> Unprefixed(path) == path
  {
    assert ("a/" + path)[2..] == path && ("b/" + path)[2..] == path;
    assert "/dev/null"[0] == '/' && ("a/" + path)[0] == 'a' && ("b/" + path)[0] == 'b';
  }

  /** A path reads back behind either prefix git prints, and as it is without
      one; the null device reads as no file. */
  lemma PrefixesDropped(path: string)
    requires path != "" && '\t' !in path && !IsSpace(path[|path| - 1])
    ensures ParseDiffPath("a/" + path) == path && ParseDiffPath("b/" + path) == path
    ensures !IsSpace(path[0]) && !("a/" <= path) && !("b/" <= path) && path != "/dev/null" ==> ParseDiffPath(path) == path
  {
    UnprefixedIs(path);
    BarePathReads("a/" + path);
    BarePathReads("b/" + path);
    if !IsSpace(path[0]) { BarePathReads(path); }
  }

  /** An added line is skipped, whatever the scan has found, exactly when its
      content does not begin with "++ ". */
  lemma AddedLineSkippedIff(content: string)
    ensures (forall st :: ScanLine(st, "+" + content) == st) <==> !("++ " <= content)
  {
    var line := "+" + content;
    HeaderMark(content);
    assert line == ['+'] + content && line[0] == '+' && "@@ "[0] == '@';
    if "++ " <= content {
      var st := Scan(ParseDiffPath(line[4..]) + "x", map[]);
      assert ScanLine(st, line) != st;
    }
  }
}
