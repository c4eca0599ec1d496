/** The exploration-notes log: headed sections appended to one file, split again
    on reading, and pruned to the newest five. */
module Notes {
  import opened Wrappers
  import opened Text

  const KEEP_NOTES := 5
  const MAX_NOTE := 2048

  // ---- splitting ----

  /** strings.SplitAfter(s, "\n"). */
  function Lines(s: string): (lines: seq<string>)
    ensures |lines| >= 1
  {
    if s == "" then [""] else Push(s[0], Lines(s[1..]))
  }

  /** One more character in front of some lines. */
  function Push(c: char, lines: seq<string>): seq<string>
    requires lines != []
  {
    if c == '\n' then ["\n"] + lines else [[c] + lines[0]] + lines[1..]
  }

  lemma PushFront(c: char, front: seq<string>, more: seq<string>)
    requires front != []
    ensures Push(c, front + more) == Push(c, front) + more
  {
    if c == '\n' {
      assert ["\n"] + (front + more) == ["\n"] + front + more;
    } else {
      assert (front + more)[1..] == front[1..] + more;
    }
  }

  function Concat(parts: seq<string>): string {
    if parts == [] then "" else parts[0] + Concat(parts[1..])
  }

  predicate Heading(line: string) { "## " <= line }

  /** The chunks of `cur` followed by the lines, cut before each heading. */
  function SplitFrom(cur: string, lines: seq<string>): seq<string>
    decreases |lines|
  {
    if lines == [] then (if TrimSpace(cur) == "" then [] else [cur])
    else if Heading(lines[0]) && cur != "" then [cur] + SplitFrom(lines[0], lines[1..])
    else SplitFrom(cur + lines[0], lines[1..])
  }

  function Sections(s: string): seq<string> { SplitFrom("", Lines(s)) }

  method SplitSections(s: string) returns (sections: seq<string>)
    ensures sections == Sections(s)
  {
    sections := [];
    var cur := "";
    var lines := Lines(s);
    for i := 0 to |lines|
      invariant sections + SplitFrom(cur, lines[i..]) == Sections(s)
    {
      var line := lines[i];
      assert lines[i..][0] == line && lines[i..][1..] == lines[i + 1..];
      ghost var before, rest := sections, SplitFrom(line, lines[i + 1..]);
      if Heading(line) && |cur| > 0 {
        assert before + ([cur] + rest) == before + [cur] + rest;
        sections := sections + [cur];
        cur := "";
        assert cur + line == line;
      }
      cur := cur + line;
    }
    if TrimSpace(cur) != "" {
      sections := sections + [cur];
    }
  }

  // ---- nothing is lost ----

  lemma {:induction false} ConcatLines(s: string)
    ensures Concat(Lines(s)) == s
  {
    if s != "" {
      ConcatLines(s[1..]);
      var rest := Lines(s[1..]);
      assert s == [s[0]] + s[1..];
      if s[0] == '\n' {
        assert (["\n"] + rest)[1..] == rest;
      } else {
        assert ([[s[0]] + rest[0]] + rest[1..])[1..] == rest[1..];
      }
    }
  }

  lemma BlankTrims(s: string)
    ensures TrimSpace(s) == "" <==> Blank(s)
  {
    TrimSpaceIs(s);
  }

  lemma HeadingNotBlank(cur: string, line: string, rest: string)
    requires Heading(line)
    ensures !Blank(line + rest) && !Blank(cur + (line + rest))
  {
    assert (line + rest)[0] == '#';
    assert (cur + (line + rest))[|cur|] == '#';
  }

  lemma ConcatCut(cur: string, line: string, rest: string, pieces: seq<string>)
    requires Heading(line) && Concat(pieces) == line + rest
    ensures Concat([cur] + pieces) == cur + (line + rest) && !Blank(cur + (line + rest))
  {
    HeadingNotBlank(cur, line, rest);
    assert ([cur] + pieces)[1..] == pieces;
  }

  lemma {:induction false} ConcatSplit(cur: string, lines: seq<string>)
    ensures Concat(SplitFrom(cur, lines)) == if Blank(cur + Concat(lines)) then "" else cur + Concat(lines)
    decreases |lines|
  {
    if lines == [] {
      BlankTrims(cur);
      assert cur + "" == cur;
    } else {
      var line, rest := lines[0], lines[1..];
      if Heading(line) && cur != "" {
        ConcatSplit(line, rest);
        HeadingNotBlank(cur, line, Concat(rest));
        ConcatCut(cur, line, Concat(rest), SplitFrom(line, rest));
      } else {
        ConcatSplit(cur + line, rest);
        assert cur + (line + Concat(rest)) == cur + line + Concat(rest);
      }
    }
  }

  /** Putting the sections together again gives the input back, exactly when it
      is empty or holds something other than white space. */
  lemma SectionsLoseNothing(s: string)
    ensures Concat(Sections(s)) == s <==> s == "" || !Blank(s)
  {
    ConcatLines(s);
    ConcatSplit("", Lines(s));
    assert "" + Concat(Lines(s)) == s;
  }

  // ---- sections split again as they are ----

  /** No line after the first is a heading. */
  ghost predicate OneSection(x: string) {
    forall i :: 1 <= i < |Lines(x)| ==> !Heading(Lines(x)[i])
  }

  predicate EndsLine(x: string) { x != "" && x[|x| - 1] == '\n' }

  lemma {:induction false} LinesEnd(a: string)
    requires EndsLine(a)
    ensures |Lines(a)| >= 2 && Lines(a)[|Lines(a)| - 1] == ""
  {
    if |a| > 1 { LinesEnd(a[1..]); }
  }

  function AllButLast(lines: seq<string>): seq<string>
    requires lines != []
  {
    lines[..|lines| - 1]
  }

  lemma {:induction false} LinesJoin(a: string, b: string)
    requires EndsLine(a)
    ensures Lines(a + b) == AllButLast(Lines(a)) + Lines(b)
  {
    assert a + b == [a[0]] + (a[1..] + b);
    if |a| == 1 {
      assert a[1..] + b == b && Lines(a) == ["\n", ""];
    } else {
      LinesEnd(a[1..]);
      LinesJoin(a[1..], b);
      PushSplits(a[0], Lines(a[1..]));
      PushFront(a[0], AllButLast(Lines(a[1..])), Lines(b));
    }
  }

  lemma PushSplits(c: char, lines: seq<string>)
    requires |lines| >= 2
    ensures AllButLast(Push(c, lines)) == Push(c, AllButLast(lines))
    ensures Push(c, lines)[|Push(c, lines)| - 1] == lines[|lines| - 1]
  {
    var last := lines[|lines| - 1];
    assert lines == AllButLast(lines) + [last];
    PushFront(c, AllButLast(lines), [last]);
  }

  lemma {:induction false} LinesWithoutHeading(cur: string, lines: seq<string>, more: seq<string>)
    requires forall l :: l in lines ==> !Heading(l)
    ensures SplitFrom(cur, lines + more) == SplitFrom(cur + Concat(lines), more)
    decreases |lines|
  {
    if lines == [] {
      assert lines + more == more && cur + "" == cur;
    } else {
      assert lines[0] in lines;
      assert (lines + more)[0] == lines[0] && (lines + more)[1..] == lines[1..] + more;
      LinesWithoutHeading(cur + lines[0], lines[1..], more);
      assert cur + lines[0] + Concat(lines[1..]) == cur + Concat(lines);
    }
  }

  lemma {:induction false} ConcatJoin(a: seq<string>, b: seq<string>)
    ensures Concat(a + b) == Concat(a) + Concat(b)
  {
    if a == [] {
      assert a + b == b;
    } else {
      assert (a + b)[1..] == a[1..] + b;
      ConcatJoin(a[1..], b);
    }
  }

  /** The lines a whole-line section is made of. */
  lemma OwnLines(x: string) returns (own: seq<string>)
    requires EndsLine(x) && OneSection(x)
    ensures own != [] && own == AllButLast(Lines(x)) && Concat(own) == x && own[0] + Concat(own[1..]) == x
    ensures Heading(own[0]) <==> Heading(x)
    ensures forall l :: l in own[1..] ==> !Heading(l)
  {
    LinesEnd(x);
    own := AllButLast(Lines(x));
    ConcatLines(x);
    assert Lines(x) == own + [""];
    ConcatJoin(own, [""]);
    assert Concat([""]) == "";
    FirstLine(x);
  }

  /** A whole-line section in front of more text is consumed as one piece. */
  lemma SectionConsumed(cur: string, x: string, rest: string)
    requires EndsLine(x) && OneSection(x)
    ensures cur == "" ==> SplitFrom(cur, Lines(x + rest)) == SplitFrom(x, Lines(rest))
    ensures cur != "" && Heading(x) ==> SplitFrom(cur, Lines(x + rest)) == [cur] + SplitFrom(x, Lines(rest))
  {
    var own := OwnLines(x);
    LinesJoin(x, rest);
    HeadAndTail(own, Lines(rest));
    RunConsumed(cur, own[0], own[1..], Lines(rest));
  }

  lemma HeadAndTail(own: seq<string>, more: seq<string>)
    requires own != []
    ensures own + more == [own[0]] + (own[1..] + more)
  {}

  lemma RunConsumed(cur: string, first: string, tail: seq<string>, more: seq<string>)
    requires forall l :: l in tail ==> !Heading(l)
    ensures cur == "" ==> SplitFrom(cur, [first] + (tail + more)) == SplitFrom(first + Concat(tail), more)
    ensures cur != "" && Heading(first) ==> SplitFrom(cur, [first] + (tail + more)) == [cur] + SplitFrom(first + Concat(tail), more)
  {
    LinesWithoutHeading(first, tail, more);
    assert ([first] + (tail + more))[1..] == tail + more;
    assert "" + first == first;
  }

  lemma {:induction false} FirstLine(x: string)
    ensures Lines(x)[0] <= x && (Heading(x) <==> Heading(Lines(x)[0]))
  {
    ConcatLines(x);
    var first := Lines(x)[0];
    assert first <= x;
    if Heading(x) { HeadingInFirst(x, 3); }
  }

  lemma {:induction false} HeadingInFirst(x: string, n: nat)
    requires n <= |x| && forall i :: 0 <= i < n ==> x[i] != '\n'
    ensures |Lines(x)[0]| >= n
  {
    if n > 0 { HeadingInFirst(x[1..], n - 1); }
  }

  /** A list of chunks as splitSections makes them: each one section, headed
      from the second on, whole lines up to the last. */
  ghost predicate Pieces(w: seq<string>) {
    (forall i :: 0 <= i < |w| ==> OneSection(w[i]))
    && (w != [] ==> !Blank(w[|w| - 1]))
    && (forall i :: 1 <= i < |w| ==> Heading(w[i]))
    && (forall i :: 0 <= i < |w| - 1 ==> EndsLine(w[i]))
  }

  lemma LastSection(cur: string, x: string)
    requires OneSection(x) && Heading(x) && cur != ""
    ensures SplitFrom(cur, Lines(x)) == [cur, x]
  {
    FirstLine(x);
    ConcatLines(x);
    var lines := Lines(x);
    LinesWithoutHeading(lines[0], lines[1..], []);
    assert lines[1..] + [] == lines[1..];
    BlankTrims(x);
    assert x[0] == '#';
  }

  lemma {:induction false} SplitAgainFrom(cur: string, w: seq<string>)
    requires cur != "" && w != [] && Pieces(w) && Heading(w[0])
    ensures SplitFrom(cur, Lines(Concat(w))) == [cur] + w
    decreases |w|
  {
    if |w| == 1 {
      assert Concat(w) == w[0];
      LastSection(cur, w[0]);
    } else {
      SectionConsumed(cur, w[0], Concat(w[1..]));
      SplitAgainFrom(w[0], w[1..]);
      assert w == [w[0]] + w[1..];
    }
  }

  lemma OnlySection(x: string)
    requires OneSection(x) && !Blank(x)
    ensures Sections(x) == [x]
  {
    ConcatLines(x);
    var lines := Lines(x);
    assert "" + lines[0] == lines[0];
    LinesWithoutHeading(lines[0], lines[1..], []);
    assert lines[1..] + [] == lines[1..];
    BlankTrims(x);
  }

  /** Joining chunks and splitting again gives the same chunks. */
  lemma {:induction false} SplitAgain(w: seq<string>)
    requires Pieces(w)
    ensures Sections(Concat(w)) == w
  {
    if w == [] {
      BlankTrims("");
      assert Lines("") == [""];
    } else if |w| == 1 {
      assert Concat(w) == w[0];
      OnlySection(w[0]);
    } else {
      SectionConsumed("", w[0], Concat(w[1..]));
      SplitAgainFrom(w[0], w[1..]);
      assert w == [w[0]] + w[1..];
    }
  }

  // ---- every split is such a list ----

  /** A line of strings.SplitAfter: one newline, at the end, except in the last. */
  ghost predicate IsLine(line: string, last: bool) {
    if last then '\n' !in line else EndsLine(line) && '\n' !in line[..|line| - 1]
  }

  lemma {:induction false} LinesAreLines(s: string)
    ensures forall i :: 0 <= i < |Lines(s)| ==> IsLine(Lines(s)[i], i == |Lines(s)| - 1)
  {
    if s != "" {
      LinesAreLines(s[1..]);
      var rest := Lines(s[1..]);
      if s[0] != '\n' {
        var first := [s[0]] + rest[0];
        assert first[..|first| - 1] == if rest[0] == "" then "" else [s[0]] + rest[0][..|rest[0]| - 1];
      }
    }
  }

  lemma {:induction false} LinesOfLine(line: string, last: bool)
    requires IsLine(line, last)
    ensures Lines(line) == if last then [line] else [line, ""]
  {
    if line != "" && line != "\n" {
      LinesOfLine(line[1..], last);
      assert line == [line[0]] + line[1..];
    }
  }

  lemma OneSectionGrows(cur: string, line: string, last: bool)
    requires cur == "" || (EndsLine(cur) && OneSection(cur) && !Heading(line))
    requires IsLine(line, last)
    ensures OneSection(cur + line)
  {
    LinesOfLine(line, last);
    if cur == "" {
      assert cur + line == line;
    } else {
      LinesEnd(cur);
      LinesJoin(cur, line);
    }
  }

  lemma PiecesPrepend(cur: string, w: seq<string>)
    requires EndsLine(cur) && OneSection(cur) && Pieces(w) && w != [] && Heading(w[0])
    ensures Pieces([cur] + w)
  {}

  lemma HeadingSplits(line: string, rest: seq<string>)
    requires Heading(line)
    ensures SplitFrom(line, rest) != []
  {
    ConcatSplit(line, rest);
    assert (line + Concat(rest))[0] == '#';
  }

  lemma {:induction false} SplitMakesPieces(cur: string, lines: seq<string>)
    requires forall i :: 0 <= i < |lines| ==> IsLine(lines[i], i == |lines| - 1)
    requires OneSection(cur) && (lines != [] && cur != "" ==> EndsLine(cur))
    ensures Pieces(SplitFrom(cur, lines))
    ensures SplitFrom(cur, lines) != [] ==> cur <= SplitFrom(cur, lines)[0]
    decreases |lines|
  {
    if lines == [] {
      BlankTrims(cur);
    } else {
      var line, rest := lines[0], lines[1..];
      if Heading(line) && cur != "" {
        OneSectionGrows("", line, rest == []);
        assert "" + line == line;
        SplitMakesPieces(line, rest);
        HeadingSplits(line, rest);
        PiecesPrepend(cur, SplitFrom(line, rest));
      } else {
        OneSectionGrows(cur, line, rest == []);
        assert rest != [] ==> (cur + line)[|cur + line| - 1] == '\n';
        SplitMakesPieces(cur + line, rest);
      }
    }
  }

  lemma SectionsArePieces(s: string)
    ensures Pieces(Sections(s))
  {
    LinesAreLines(s);
    SplitMakesPieces("", Lines(s));
  }

  /** A text stays in one piece exactly when no line after its first is a
      heading: a note whose body holds a heading comes apart. */
  lemma OnePieceIff(x: string)
    requires !Blank(x)
    ensures Sections(x) == [x] <==> OneSection(x)
  {
    SectionsArePieces(x);
    if Sections(x) == [x] {
      assert Pieces([x]) && OneSection([x][0]);
    }
    if OneSection(x) { OnlySection(x); }
  }

  // ---- the notes file ----

  /** At most the n newest. */
  function Newest<T>(notes: seq<T>, n: nat): seq<T> {
    if |notes| <= n then notes else notes[|notes| - n..]
  }

  function Pruned(content: string): string {
    if |Sections(content)| <= KEEP_NOTES then content else Concat(Newest(Sections(content), KEEP_NOTES))
  }

  /** Splitting the kept sections gives the same sections, whatever the file held. */
  lemma PruneKeepsNewest(content: string)
    ensures Sections(Pruned(content)) == var all := Sections(content); if |all| <= 5 then all else all[|all| - 5..]
    ensures Pruned(Pruned(content)) == Pruned(content)
  {
    SectionsArePieces(content);
    if |Sections(content)| > KEEP_NOTES {
      SplitAgain(Newest(Sections(content), KEEP_NOTES));
    }
  }

  /** The body a note keeps: trimmed, and cut at the size limit. */
  function KeptBody(body: string): string {
    var trimmed := TrimSpace(body);
    if |trimmed| > MAX_NOTE then trimmed[..MAX_NOTE] else trimmed
  }

  function NoteText(stamp: string, kind: string, body: string): string {
    "## " + stamp + " " + kind + "\n" + (KeptBody(body) + "\n\n")
  }

  /** A note is one headed line with its time and kind, the trimmed body, at most
      its first 2048 characters, and an empty line. */
  lemma NoteTextIs(stamp: string, kind: string, body: string, before: string, kept: string, after: string)
    requires body == before + kept + after && Blank(before) && Blank(after)
    requires kept != "" && !IsSpace(kept[0]) && !IsSpace(kept[|kept| - 1])
    ensures NoteText(stamp, kind, body) ==
      "## " + stamp + " " + kind + "\n" + ((if |kept| <= 2048 then kept else kept[..2048]) + "\n\n")
  {
    TrimmedIs(before, kept, after);
  }

  class NotesFile {
    var content: Option<string>  // None: no file yet

    constructor ()
      ensures content == None
    {
      content := None;
    }

    function Text(): string
      reads this
    {
      if content.Some? then content.value else ""
    }

    method AppendNote(stamp: string, kind: string, body: string)
      modifies this
      ensures content == if TrimSpace(body) == "" then old(content) else Some(old(Text()) + NoteText(stamp, kind, body))
    {
      var b := TrimSpace(body);
      if b == "" {
        return;
      }
      if |b| > MAX_NOTE {
        b := b[..MAX_NOTE];
      }
      content := Some(Text() + ("## " + stamp + " " + kind + "\n" + (b + "\n\n")));
    }

    method PruneNotes()
      modifies this
      ensures content == if old(content).None? then None else Some(Pruned(old(content).value))
    {
      if content.None? {
        return;
      }
      var sections := SplitSections(content.value);
      if |sections| <= KEEP_NOTES {
        return;
      }
      content := Some(Concat(sections[|sections| - KEEP_NOTES..]));
    }
  }

  // ---- runs of appends and prunes ----

  datatype Op = Append(stamp: string, kind: string, body: string) | Prune

  /** One-line stamps and kinds, and no heading line in what the body keeps. */
  ghost predicate OpOk(op: Op) {
    op.Append? ==>
      && '\n' !in op.stamp && '\n' !in op.kind
      && forall l :: l in Lines(TrimSpace(op.body)) ==> !Heading(l)
  }

  /** The text of the file after a run of operations, from an empty file. */
  function File(ops: seq<Op>): string {
    if ops == [] then ""
    else
      var text := File(ops[..|ops| - 1]);
      match ops[|ops| - 1]
      case Append(stamp, kind, body) => if TrimSpace(body) == "" then text else text + NoteText(stamp, kind, body)
      case Prune => Pruned(text)
  }

  /** Every note ever appended, in order. */
  function Appended(ops: seq<Op>): seq<string> {
    if ops == [] then []
    else
      var notes := Appended(ops[..|ops| - 1]);
      match ops[|ops| - 1]
      case Append(stamp, kind, body) => if TrimSpace(body) == "" then notes else notes + [NoteText(stamp, kind, body)]
      case Prune => notes
  }

  lemma PrefixKeepsLines(s: string, n: nat)
    requires n <= |s| && forall l :: l in Lines(s) ==> !Heading(l)
    ensures forall l :: l in Lines(s[..n]) ==> !Heading(l)
  {
    PrefixLines(s, n);
    forall l | l in Lines(s[..n]) ensures !Heading(l) {
      var i :| 0 <= i < |Lines(s[..n])| && Lines(s[..n])[i] == l;
      assert l <= Lines(s)[i] && !Heading(Lines(s)[i]);
    }
  }

  lemma {:induction false} PrefixLines(s: string, n: nat)
    requires n <= |s|
    ensures |Lines(s[..n])| <= |Lines(s)|
    ensures forall i :: 0 <= i < |Lines(s[..n])| ==> Lines(s[..n])[i] <= Lines(s)[i]
  {
    if n > 0 {
      assert s[..n][1..] == s[1..][..n - 1] && s[..n][0] == s[0];
      PrefixLines(s[1..], n - 1);
    }
  }

  lemma HeadingCut(s: string)
    ensures Heading(s + "\n") ==> Heading(s)
  {
    if |s| < 3 {
      assert |s| == 2 ==> (s + "\n")[2] == '\n';
    } else {
      assert (s + "\n")[..3] == s[..3];
    }
  }

  lemma AddNewline(s: string)
    requires forall l :: l in Lines(s) ==> !Heading(l)
    ensures forall l :: l in Lines(s + "\n") ==> !Heading(l)
  {
    LastLineGrows(s);
    var lines := Lines(s);
    assert lines[|lines| - 1] in lines;
    HeadingCut(lines[|lines| - 1]);
    forall l | l in Lines(s + "\n") ensures !Heading(l) {
      if l in AllButLast(lines) { assert l in lines; }
    }
  }

  lemma {:induction false} LastLineGrows(s: string)
    ensures Lines(s + "\n") == AllButLast(Lines(s)) + [Lines(s)[|Lines(s)| - 1] + "\n", ""]
  {
    if s == "" {
      assert s + "\n" == "\n";
      assert Lines("\n") == ["\n", ""];
    } else {
      assert (s + "\n")[1..] == s[1..] + "\n";
      LastLineGrows(s[1..]);
      var lines := Lines(s[1..]);
      if |lines| >= 2 {
        PushSplits(s[0], lines);
        PushFront(s[0], AllButLast(lines), [lines[|lines| - 1] + "\n", ""]);
      } else if s[0] != '\n' {
        assert [s[0]] + (lines[0] + "\n") == [s[0]] + lines[0] + "\n";
      }
    }
  }

  /** A note is one headed, whole-line section. */
  lemma NoteIsSection(stamp: string, kind: string, body: string)
    requires OpOk(Append(stamp, kind, body))
    ensures var x := NoteText(stamp, kind, body); Heading(x) && EndsLine(x) && OneSection(x)
  {
    var head, kept := "## " + stamp + " " + kind + "\n", KeptBody(body);
    var trimmed := TrimSpace(body);
    if |trimmed| > MAX_NOTE {
      PrefixKeepsLines(trimmed, MAX_NOTE);
    }
    LinesOfLine(head, false);
    LinesJoin(head, kept + "\n\n");
    AddNewline(kept);
    AddNewline(kept + "\n");
    assert kept + "\n\n" == kept + "\n" + "\n";
  }

  ghost predicate Notes(w: seq<string>) {
    forall x :: x in w ==> Heading(x) && EndsLine(x) && OneSection(x)
  }

  lemma NotesArePieces(w: seq<string>)
    requires Notes(w)
    ensures Pieces(w)
  {
    forall i | 0 <= i < |w| ensures Heading(w[i]) && EndsLine(w[i]) && OneSection(w[i]) {}
    if w != [] {
      var x := w[|w| - 1];
      assert x[0] == '#';
    }
  }

  /** The file holds the notes w, out of `all` ever appended. */
  ghost predicate Holds(w: seq<string>, text: string, all: seq<string>) {
    && Notes(w)
    && text == Concat(w)
    && |w| <= |all|
    && w == all[|all| - |w|..]
    && Newest(w, KEEP_NOTES) == Newest(all, KEEP_NOTES)
  }

  lemma HoldsAppended(w: seq<string>, text: string, all: seq<string>, x: string)
    requires Holds(w, text, all) && Heading(x) && EndsLine(x) && OneSection(x)
    ensures Holds(w + [x], text + x, all + [x])
  {
    ConcatJoin(w, [x]);
    assert Concat([x]) == x;
    assert (all + [x])[|all| - |w|..] == w + [x];
    SuffixNewest(w + [x], all + [x]);
    if |w| < KEEP_NOTES { assert |all| == |w| by { NewestLength(w, all); } }
  }

  lemma NewestLength(w: seq<string>, all: seq<string>)
    requires Newest(w, KEEP_NOTES) == Newest(all, KEEP_NOTES) && |w| < KEEP_NOTES
    ensures |all| == |w|
  {}

  lemma SuffixNewest(w: seq<string>, all: seq<string>)
    requires |w| <= |all| && w == all[|all| - |w|..]
    ensures |w| >= KEEP_NOTES || |w| == |all| ==> Newest(w, KEEP_NOTES) == Newest(all, KEEP_NOTES)
  {
    if |w| > KEEP_NOTES {
      assert w[|w| - KEEP_NOTES..] == all[|all| - KEEP_NOTES..];
    }
  }

  lemma HoldsPruned(w: seq<string>, text: string, all: seq<string>)
    requires Holds(w, text, all)
    ensures Holds(Newest(w, KEEP_NOTES), Pruned(text), all)
  {
    NotesArePieces(w);
    SplitAgain(w);
    if |w| > KEEP_NOTES {
      assert all[|all| - |w|..][|w| - KEEP_NOTES..] == all[|all| - KEEP_NOTES..];
    }
  }

  /** What a run leaves in the file, as a list of notes: a suffix of all the
      notes appended, holding at least the newest five. */
  lemma {:induction false} FileHoldsSuffix(ops: seq<Op>) returns (w: seq<string>)
    requires forall op :: op in ops ==> OpOk(op)
    ensures Holds(w, File(ops), Appended(ops))
    decreases |ops|
  {
    if ops == [] {
      w := [];
    } else {
      var before, op := ops[..|ops| - 1], ops[|ops| - 1];
      assert op in ops;
      var v := FileHoldsSuffix(before);
      match op
      case Append(stamp, kind, body) =>
        if TrimSpace(body) == "" {
          w := v;
        } else {
          NoteIsSection(stamp, kind, body);
          HoldsAppended(v, File(before), Appended(before), NoteText(stamp, kind, body));
          w := v + [NoteText(stamp, kind, body)];
        }
      case Prune =>
        HoldsPruned(v, File(before), Appended(before));
        w := Newest(v, KEEP_NOTES);
    }
  }

  /** After any run of appends and prunes from an empty file, the sections that
      a last prune leaves are exactly the five newest notes ever appended, in
      order, or all of them when there are fewer. */
  lemma {:induction false} PruneLeavesNewestFive(ops: seq<Op>)
    requires forall op :: op in ops ==> OpOk(op)
    ensures Sections(File(ops + [Prune])) == var all := Appended(ops); if |all| <= 5 then all else all[|all| - 5..]
  {
    var w := FileHoldsSuffix(ops);
    NotesArePieces(w);
    SplitAgain(w);
    assert (ops + [Prune])[..|ops|] == ops;
    PruneKeepsNewest(File(ops));
  }
}
