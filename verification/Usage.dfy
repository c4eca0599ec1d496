/** Token accounting over transcripts. One message is written as several lines,
    so a running total takes back what an earlier line of the same message put
    in; the laws say what that total is. */
module Usage {
  import opened Wrappers

  /** One figure for each of the four token dimensions. */
  datatype Tokens = Tokens(input: int, output: int, cacheRead: int, cacheCreation: int)

  const ZERO := Tokens(0, 0, 0, 0)

  function Plus(a: Tokens, b: Tokens): Tokens {
    Tokens(a.input + b.input, a.output + b.output, a.cacheRead + b.cacheRead, a.cacheCreation + b.cacheCreation)
  }

  function Minus(a: Tokens, b: Tokens): Tokens {
    Tokens(a.input - b.input, a.output - b.output, a.cacheRead - b.cacheRead, a.cacheCreation - b.cacheCreation)
  }

  // ---- int64 arithmetic ----

  const TWO_64 := 0x1_0000_0000_0000_0000
  const TWO_63 := 0x8000_0000_0000_0000

  function Wrap(n: int): int {
    (n + TWO_63) % TWO_64 - TWO_63
  }

  function WrapAll(t: Tokens): Tokens {
    Tokens(Wrap(t.input), Wrap(t.output), Wrap(t.cacheRead), Wrap(t.cacheCreation))
  }

  lemma WrapOnce(a: int, b: int)
    ensures Wrap(Wrap(a) + Wrap(b)) == Wrap(a + b)
  {}

  // ---- lines and files ----

  datatype Line = Line(kind: string, id: string, model: string, usage: Tokens)

  /** An assistant line of an identified message; None is a line that does not parse. */
  predicate Counts(l: Option<Line>) {
    l.Some? && l.value.kind == "assistant" && l.value.id != ""
  }

  function Counted(lines: seq<Option<Line>>): seq<Line> {
    if lines == [] then []
    else
      var l := lines[|lines| - 1];
      Counted(lines[..|lines| - 1]) + (if Counts(l) then [l.value] else [])
  }

  /** What a file holds; None is a file that does not open. */
  function Held(file: Option<seq<Option<Line>>>): seq<Line> {
    if file.None? then [] else Counted(file.value)
  }

  function Ids(lines: seq<Line>): set<string> { set l | l in lines :: l.id }

  /** What the last line of a message says. */
  function LastOf(lines: seq<Line>, id: string): Option<Tokens> {
    if lines == [] then None
    else
      var later := LastOf(lines[1..], id);
      if later.Some? then later else if lines[0].id == id then Some(lines[0].usage) else None
  }

  /** The sum over the lines that are the last of their message. */
  function SumOfLast(lines: seq<Line>): Tokens {
    if lines == [] then ZERO
    else Plus(if lines[0].id in Ids(lines[1..]) then ZERO else lines[0].usage, SumOfLast(lines[1..]))
  }

  lemma {:induction false} LastOfFound(lines: seq<Line>, id: string)
    ensures LastOf(lines, id).Some? <==> id in Ids(lines)
  {
    if lines != [] {
      LastOfFound(lines[1..], id);
      assert lines == [lines[0]] + lines[1..];
    }
  }

  lemma {:induction false} LastOfAppended(lines: seq<Line>, l: Line, id: string)
    ensures LastOf(lines + [l], id) == if l.id == id then Some(l.usage) else LastOf(lines, id)
  {
    if lines != [] {
      LastOfAppended(lines[1..], l, id);
      assert (lines + [l])[1..] == lines[1..] + [l];
    }
  }

  function Before(lines: seq<Line>, id: string): Tokens {
    var prev := LastOf(lines, id);
    if prev.Some? then prev.value else ZERO
  }

  /** One more line takes back what its message stood at and puts in its own. */
  lemma {:induction false} SumOfLastAppended(lines: seq<Line>, l: Line)
    ensures SumOfLast(lines + [l]) == Plus(Minus(SumOfLast(lines), Before(lines, l.id)), l.usage)
  {
    if lines == [] {
      assert lines + [l] == [l];
    } else {
      var rest := lines[1..];
      SumOfLastAppended(rest, l);
      assert (lines + [l])[1..] == rest + [l];
      assert Ids(rest + [l]) == Ids(rest) + {l.id};
      LastOfFound(rest, l.id);
    }
  }

  // ---- one total per message ----

  /** The sum of what is said last about each message listed. */
  function SumPerMessage(ids: seq<string>, lines: seq<Line>): Tokens {
    if ids == [] then ZERO else Plus(Before(lines, ids[0]), SumPerMessage(ids[1..], lines))
  }

  ghost predicate Lists(ids: seq<string>, lines: seq<Line>) {
    && (forall i, j :: 0 <= i < j < |ids| ==> ids[i] != ids[j])
    && (forall id :: id in ids <==> id in Ids(lines))
  }

  /** The listing without its k-th message. */
  function Without(ids: seq<string>, k: nat): seq<string>
    requires k < |ids|
  {
    ids[..k] + ids[k + 1..]
  }

  lemma Swapped(a: Tokens, b: Tokens, c: Tokens)
    ensures Plus(a, Plus(b, c)) == Plus(b, Plus(a, c))
  {}

  lemma {:induction false} TakeOut(ids: seq<string>, k: nat, lines: seq<Line>)
    requires k < |ids|
    ensures SumPerMessage(ids, lines) == Plus(Before(lines, ids[k]), SumPerMessage(Without(ids, k), lines))
  {
    if k == 0 {
      assert Without(ids, 0) == ids[1..];
    } else {
      var others := Without(ids, k);
      assert others[0] == ids[0] && others[1..] == Without(ids[1..], k - 1);
      TakeOut(ids[1..], k - 1, lines);
      Swapped(Before(lines, ids[0]), Before(lines, ids[k]), SumPerMessage(others[1..], lines));
    }
  }

  lemma {:induction false} SameSums(ids: seq<string>, a: seq<Line>, b: seq<Line>)
    requires forall id :: id in ids ==> LastOf(a, id) == LastOf(b, id)
    ensures SumPerMessage(ids, a) == SumPerMessage(ids, b)
  {
    if ids != [] {
      assert ids[0] in ids;
      SameSums(ids[1..], a, b);
    }
  }

  lemma Unlisted(ids: seq<string>)
    ensures ids == [] || ids[0] in ids
  {}

  /** Summing over the last lines is summing over the distinct messages, each by
      its last line, in whatever order they are listed. */
  lemma {:induction false} OneTotalPerMessage(lines: seq<Line>, ids: seq<string>)
    requires Lists(ids, lines)
    ensures SumOfLast(lines) == SumPerMessage(ids, lines)
    decreases |lines|
  {
    if lines == [] {
      assert Ids(lines) == {};
      Unlisted(ids);
    } else {
      var rest, x := lines[1..], lines[0].id;
      assert lines == [lines[0]] + rest && Ids(lines) == Ids(rest) + {x};
      LastOfFound(rest, x);
      if x in Ids(rest) {
        SameSums(ids, lines, rest);
        OneTotalPerMessage(rest, ids);
      } else {
        var k :| 0 <= k < |ids| && ids[k] == x;
        WithoutIs(ids, k);
        OneTotalPerMessage(rest, Without(ids, k));
        TakeOut(ids, k, lines);
        SameSums(Without(ids, k), lines, rest);
      }
    }
  }

  lemma WithoutIs(ids: seq<string>, k: nat)
    requires k < |ids| && forall i, j :: 0 <= i < j < |ids| ==> ids[i] != ids[j]
    ensures forall i, j :: 0 <= i < j < |Without(ids, k)| ==> Without(ids, k)[i] != Without(ids, k)[j]
    ensures forall id :: id in Without(ids, k) <==> id in ids && id != ids[k]
  {
    forall id ensures id in Without(ids, k) <==> id in ids && id != ids[k] {
      if id in ids && id != ids[k] {
        var i :| 0 <= i < |ids| && ids[i] == id;
        assert Without(ids, k)[if i < k then i else i - 1] == id;
      }
    }
  }

  // ---- the same totals, from the raw lines, one dimension at a time ----

  datatype Dimension = Input | Output | CacheRead | CacheCreation

  function Of(d: Dimension, u: Tokens): int {
    match d
    case Input => u.input
    case Output => u.output
    case CacheRead => u.cacheRead
    case CacheCreation => u.cacheCreation
  }

  /** The line parses and is an assistant line of the message. */
  predicate Says(l: Option<Line>, id: string) { l.Some? && l.value.kind == "assistant" && l.value.id == id }

  /** What the last line of the message says in one dimension. */
  function LastSaid(raw: seq<Option<Line>>, id: string, d: Dimension): int {
    if raw == [] then 0
    else if Says(raw[|raw| - 1], id) then Of(d, raw[|raw| - 1].value.usage)
    else LastSaid(raw[..|raw| - 1], id, d)
  }

  function SumSaid(ids: seq<string>, raw: seq<Option<Line>>, d: Dimension): int {
    if ids == [] then 0 else LastSaid(raw, ids[0], d) + SumSaid(ids[1..], raw, d)
  }

  ghost predicate Holds(raw: seq<Option<Line>>, id: string) { exists l :: l in raw && Says(l, id) }

  /** Every identified message, once. */
  ghost predicate ListsMessages(ids: seq<string>, raw: seq<Option<Line>>) {
    && (forall i, j :: 0 <= i < j < |ids| ==> ids[i] != ids[j])
    && (forall id :: id in ids <==> id != "" && Holds(raw, id))
  }

  /** Equal as 64-bit integers, and one of them. */
  predicate Is64(n: int, exact: int) {
    -0x8000_0000_0000_0000 <= n <= 0x7FFF_FFFF_FFFF_FFFF && (n - exact) % 0x1_0000_0000_0000_0000 == 0
  }

  /** Each of the four figures is the 64-bit sum, over the messages, of what the
      last line of each says. */
  ghost predicate TotalsOf(t: Tokens, raw: seq<Option<Line>>) {
    forall ids, d :: ListsMessages(ids, raw) ==> Is64(Of(d, t), SumSaid(ids, raw, d))
  }

  lemma CountedNext(raw: seq<Option<Line>>, l: Option<Line>)
    ensures Counted(raw + [l]) == Counted(raw) + if Counts(l) then [l.value] else []
  {
    assert (raw + [l])[..|raw|] == raw;
  }

  lemma {:induction false} CountedJoin(a: seq<Option<Line>>, b: seq<Option<Line>>)
    ensures Counted(a + b) == Counted(a) + Counted(b)
    decreases |b|
  {
    if b == [] {
      assert a + b == a;
    } else {
      var init, last := b[..|b| - 1], b[|b| - 1];
      assert a + b == (a + init) + [last];
      CountedJoin(a, init);
      CountedNext(a + init, last);
    }
  }

  lemma {:induction false} LastSaidIs(raw: seq<Option<Line>>, id: string, d: Dimension)
    requires id != ""
    ensures LastSaid(raw, id, d) == Of(d, Before(Counted(raw), id))
    ensures Holds(raw, id) <==> id in Ids(Counted(raw))
    decreases |raw|
  {
    if raw != [] {
      var init, last := raw[..|raw| - 1], raw[|raw| - 1];
      assert raw == init + [last];
      LastSaidIs(init, id, d);
      CountedNext(init, last);
      if Counts(last) {
        LastOfAppended(Counted(init), last.value, id);
        IdsNext(Counted(init), last.value);
      } else {
        assert Counted(init) + [] == Counted(init);
      }
      HoldsNext(init, last, id);
    }
  }

  lemma IdsNext(lines: seq<Line>, l: Line)
    ensures Ids(lines + [l]) == Ids(lines) + {l.id}
  {}

  lemma HoldsNext(init: seq<Option<Line>>, last: Option<Line>, id: string)
    ensures Holds(init + [last], id) <==> Holds(init, id) || Says(last, id)
  {
    assert last in init + [last];
    if Holds(init, id) {
      var l :| l in init && Says(l, id);
      assert l in init + [last];
    }
  }

  lemma {:induction false} SumSaidIs(ids: seq<string>, raw: seq<Option<Line>>, d: Dimension)
    requires forall id :: id in ids ==> id != ""
    ensures SumSaid(ids, raw, d) == Of(d, SumPerMessage(ids, Counted(raw)))
  {
    if ids != [] {
      assert ids[0] in ids;
      LastSaidIs(raw, ids[0], d);
      forall id | id in ids[1..] ensures id != "" { assert id in ids; }
      SumSaidIs(ids[1..], raw, d);
    }
  }

  lemma {:induction false} CountedHaveIds(raw: seq<Option<Line>>)
    ensures "" !in Ids(Counted(raw))
    decreases |raw|
  {
    if raw != [] { CountedHaveIds(raw[..|raw| - 1]); }
  }

  lemma WrapIs(n: int)
    ensures Is64(Wrap(n), n)
  {}

  lemma WrappedOf(d: Dimension, t: Tokens)
    ensures Of(d, WrapAll(t)) == Wrap(Of(d, t))
  {}

  /** The totals kept line by line are those sums. */
  lemma TotalsAre(raw: seq<Option<Line>>)
    ensures TotalsOf(WrapAll(SumOfLast(Counted(raw))), raw)
  {
    var lines := Counted(raw);
    forall ids, d | ListsMessages(ids, raw) ensures Is64(Of(d, WrapAll(SumOfLast(lines))), SumSaid(ids, raw, d)) {
      CountedHaveIds(raw);
      forall id ensures id in ids <==> id in Ids(lines) {
        if id != "" { LastSaidIs(raw, id, d); }
      }
      OneTotalPerMessage(lines, ids);
      SumSaidIs(ids, raw, d);
      WrapIs(Of(d, SumOfLast(lines)));
      WrappedOf(d, SumOfLast(lines));
    }
  }

  // ---- the scanner ----

  class Totals {
    var sessions: int
    var tokens: Tokens

    constructor ()
      ensures sessions == 0 && tokens == ZERO
    {
      sessions := 0;
      tokens := ZERO;
    }

    method Add(u: Tokens, sign: int)
      requires sign == 1 || sign == -1
      modifies this`tokens
      ensures tokens.input == Wrap(old(tokens.input) + Wrap(sign * u.input))
      ensures tokens.output == Wrap(old(tokens.output) + Wrap(sign * u.output))
      ensures tokens.cacheRead == Wrap(old(tokens.cacheRead) + Wrap(sign * u.cacheRead))
      ensures tokens.cacheCreation == Wrap(old(tokens.cacheCreation) + Wrap(sign * u.cacheCreation))
      ensures tokens == WrapAll(if sign == 1 then Plus(old(tokens), WrapAll(u)) else Plus(old(tokens), WrapAll(Minus(ZERO, u))))
    {
      assert sign * u.input == (if sign == 1 then u.input else 0 - u.input);
      assert sign * u.output == (if sign == 1 then u.output else 0 - u.output);
      assert sign * u.cacheRead == (if sign == 1 then u.cacheRead else 0 - u.cacheRead);
      assert sign * u.cacheCreation == (if sign == 1 then u.cacheCreation else 0 - u.cacheCreation);
      tokens := Tokens(Wrap(tokens.input + Wrap(sign * u.input)), Wrap(tokens.output + Wrap(sign * u.output)),
                       Wrap(tokens.cacheRead + Wrap(sign * u.cacheRead)), Wrap(tokens.cacheCreation + Wrap(sign * u.cacheCreation)));
    }
  }

  /** The usage map after some lines. */
  ghost predicate Knows(seen: map<string, Tokens>, lines: seq<Line>) {
    forall id :: (if id in seen then Some(seen[id]) else None) == LastOf(lines, id)
  }

  lemma KnowsMore(seen: map<string, Tokens>, lines: seq<Line>, l: Line)
    requires Knows(seen, lines)
    ensures Knows(seen[l.id := l.usage], lines + [l])
  {
    forall id ensures (if id in seen[l.id := l.usage] then Some(seen[l.id := l.usage][id]) else None) == LastOf(lines + [l], id) {
      LastOfAppended(lines, l, id);
    }
  }

  lemma Replaced(t: Tokens, prev: Tokens, now: Tokens)
    ensures WrapAll(Plus(WrapAll(Plus(WrapAll(t), WrapAll(Minus(ZERO, prev)))), WrapAll(now))) == WrapAll(Plus(Minus(t, prev), now))
  {
    WrapSums(t, Minus(ZERO, prev));
    assert Plus(t, Minus(ZERO, prev)) == Minus(t, prev);
    WrapSums(Minus(t, prev), now);
  }

  /** Subtract-old, add-new keeps the total of the last lines. */
  lemma OneMoreLine(seen: map<string, Tokens>, lines: seq<Line>, l: Line)
    requires Knows(seen, lines)
    ensures Knows(seen[l.id := l.usage], lines + [l])
    ensures l.id in seen <==> l.id in Ids(lines)
    ensures var was := WrapAll(SumOfLast(lines));
      var left := if l.id in seen then WrapAll(Plus(was, WrapAll(Minus(ZERO, seen[l.id])))) else was;
      WrapAll(Plus(left, WrapAll(l.usage))) == WrapAll(SumOfLast(lines + [l]))
  {
    KnowsMore(seen, lines, l);
    LastOfFound(lines, l.id);
    SumOfLastAppended(lines, l);
    var prev := Before(lines, l.id);
    if l.id in seen {
      assert prev == seen[l.id];
      Replaced(SumOfLast(lines), prev, l.usage);
    } else {
      assert Minus(SumOfLast(lines), prev) == SumOfLast(lines);
      WrapSums(SumOfLast(lines), l.usage);
    }
  }

  lemma WrapSums(a: Tokens, b: Tokens)
    ensures WrapAll(Plus(WrapAll(a), WrapAll(b))) == WrapAll(Plus(a, b))
  {
    WrapOnce(a.input, b.input);
    WrapOnce(a.output, b.output);
    WrapOnce(a.cacheRead, b.cacheRead);
    WrapOnce(a.cacheCreation, b.cacheCreation);
  }

  predicate NamesModel(l: Option<Line>) {
    l.Some? && l.value.kind == "assistant" && l.value.id != "" && l.value.model != ""
  }

  /** The last identified assistant line that names a model decides. */
  lemma {:induction false} LastModelIs(raw: seq<Option<Line>>, k: int, otherwise: string)
    requires -1 <= k < |raw| && (k >= 0 ==> NamesModel(raw[k]))
    requires forall j :: k < j < |raw| ==> !NamesModel(raw[j])
    ensures LastModel(Counted(raw), otherwise) == if k >= 0 then raw[k].value.model else otherwise
    decreases |raw|
  {
    if raw != [] {
      var init, last := raw[..|raw| - 1], raw[|raw| - 1];
      assert raw == init + [last];
      CountedNext(init, last);
      if Counts(last) {
        OneMoreModel(Counted(init), last.value, otherwise);
      } else {
        assert Counted(init) + [] == Counted(init);
      }
      if k != |raw| - 1 { LastModelIs(init, k, otherwise); }
    }
  }

  /** The model the last identified assistant line names. */
  function LastModel(lines: seq<Line>, otherwise: string): string {
    if lines == [] then otherwise
    else if lines[|lines| - 1].model != "" then lines[|lines| - 1].model
    else LastModel(lines[..|lines| - 1], otherwise)
  }

  lemma OneMoreModel(lines: seq<Line>, l: Line, otherwise: string)
    ensures LastModel(lines + [l], otherwise) == if l.model != "" then l.model else LastModel(lines, otherwise)
  {
    assert (lines + [l])[..|lines|] == lines;
  }

  /** Some line is of a message that the lines before do not have. */
  ghost predicate Introduces(own: seq<Line>, before: seq<Line>) {
    exists l :: l in own && l.id !in Ids(before)
  }

  lemma OneMoreIntroduced(before: seq<Line>, own: seq<Line>, l: Line)
    ensures Introduces(own + [l], before) <==> Introduces(own, before) || l.id !in Ids(before + own)
  {
    assert Ids(before + own) == Ids(before) + Ids(own);
    if Introduces(own, before) {
      var m :| m in own && m.id !in Ids(before);
      assert m in own + [l];
    }
    if l.id !in Ids(before) { assert l in own + [l]; }
    if l.id in Ids(own) && l.id !in Ids(before) {
      var m :| m in own && m.id == l.id;
    }
  }

  /** Folds one file into the totals. `before` is everything counted so far. */
  method ScanFile(file: Option<seq<Option<Line>>>, seen: map<string, Tokens>, t: Totals, model: string, ghost before: seq<Line>)
    returns (contributed: bool, seenAfter: map<string, Tokens>, modelAfter: string)
    requires Knows(seen, before) && t.tokens == WrapAll(SumOfLast(before))
    modifies t`tokens
    ensures var own := Held(file);
      && Knows(seenAfter, before + own)
      && t.tokens == WrapAll(SumOfLast(before + own))
      && (contributed <==> Introduces(own, before))
      && modelAfter == LastModel(own, model)
  {
    contributed, seenAfter, modelAfter := false, seen, model;
    if file.None? {
      assert before + [] == before;
      return;
    }
    var lines := file.value;
    assert before + Counted(lines[..0]) == before;
    for i := 0 to |lines|
      invariant Knows(seenAfter, before + Counted(lines[..i]))
      invariant t.tokens == WrapAll(SumOfLast(before + Counted(lines[..i])))
      invariant contributed <==> Introduces(Counted(lines[..i]), before)
      invariant modelAfter == LastModel(Counted(lines[..i]), model)
    {
      ghost var soFar := Counted(lines[..i]);
      assert lines[..i + 1][..i] == lines[..i];
      if !Counts(lines[i]) {
        assert Counted(lines[..i + 1]) == soFar;
        continue;
      }
      var l := lines[i].value;
      assert Counted(lines[..i + 1]) == soFar + [l];
      assert before + (soFar + [l]) == before + soFar + [l];
      OneMoreLine(seenAfter, before + soFar, l);
      OneMoreModel(soFar, l, model);
      OneMoreIntroduced(before, soFar, l);
      if l.model != "" {
        modelAfter := l.model;
      }
      if l.id in seenAfter {
        t.Add(seenAfter[l.id], -1);
      } else {
        contributed := true;
      }
      seenAfter := seenAfter[l.id := l.usage];
      t.Add(l.usage, 1);
    }
    assert lines[..|lines|] == lines;
  }

  /** The per-agent scan of one transcript. */
  method ScanTranscript(file: Option<seq<Option<Line>>>) returns (t: Totals, model: string, ok: bool)
    ensures fresh(t)
    ensures var own := Held(file);
      && t.tokens == WrapAll(SumOfLast(own))
      && model == LastModel(own, "")
      && (ok <==> own != [])
    ensures TotalsOf(t.tokens, if file.None? then [] else file.value)
  {
    t := new Totals();
    var seen: map<string, Tokens> := map[];
    ok, seen, model := ScanFile(file, seen, t, "", []);
    ghost var own := Held(file);
    assert [] + own == own;
    if own != [] { assert own[0] in own && own[0].id !in Ids([]); }
    TotalsAre(if file.None? then [] else file.value);
  }

  // ---- a project directory ----

  datatype Entry = Entry(dir: bool, name: string, file: Option<seq<Option<Line>>>)

  predicate IsTranscript(e: Entry) {
    !e.dir && |e.name| >= 6 && e.name[|e.name| - 6..] == ".jsonl"
  }

  function LinesOf(e: Entry): seq<Line> {
    if IsTranscript(e) then Held(e.file) else []
  }

  /** The lines of an entry that is a transcript and opens. */
  function RawLinesOf(e: Entry): seq<Option<Line>> {
    if !e.dir && |e.name| >= 6 && e.name[|e.name| - 6..] == ".jsonl" && e.file.Some? then e.file.value else []
  }

  function RawLines(entries: seq<Entry>, n: nat): seq<Option<Line>>
    requires n <= |entries|
  {
    if n == 0 then [] else RawLines(entries, n - 1) + RawLinesOf(entries[n - 1])
  }

  lemma {:induction false} RawLinesCounted(entries: seq<Entry>, n: nat)
    requires n <= |entries|
    ensures AllLines(entries, n) == Counted(RawLines(entries, n))
  {
    if n > 0 {
      RawLinesCounted(entries, n - 1);
      CountedJoin(RawLines(entries, n - 1), RawLinesOf(entries[n - 1]));
    }
  }

  lemma {:induction false} RawLinesHold(entries: seq<Entry>, n: nat, id: string)
    requires n <= |entries|
    ensures Holds(RawLines(entries, n), id) <==> exists m :: 0 <= m < n && Holds(RawLinesOf(entries[m]), id)
  {
    if n > 0 {
      RawLinesHold(entries, n - 1, id);
      HoldsJoin(RawLines(entries, n - 1), RawLinesOf(entries[n - 1]), id);
    }
  }

  lemma HoldsJoin(a: seq<Option<Line>>, b: seq<Option<Line>>, id: string)
    ensures Holds(a + b, id) <==> Holds(a, id) || Holds(b, id)
  {
    if Holds(a, id) {
      var l :| l in a && Says(l, id);
      assert l in a + b;
    }
    if Holds(b, id) {
      var l :| l in b && Says(l, id);
      assert l in a + b;
    }
  }

  /** A file counts as a session exactly when it holds a message that no earlier
      transcript holds. */
  lemma IntroducesIff(entries: seq<Entry>, n: nat)
    requires n < |entries|
    ensures Introduces(LinesOf(entries[n]), AllLines(entries, n)) <==>
      exists id :: id != "" && Holds(RawLinesOf(entries[n]), id) && forall m :: 0 <= m < n ==> !Holds(RawLinesOf(entries[m]), id)
  {
    var own, raw := RawLinesOf(entries[n]), RawLines(entries, n);
    RawLinesCounted(entries, n);
    CountedHaveIds(own);
    assert LinesOf(entries[n]) == Counted(own);
    forall id | id != ""
      ensures Holds(own, id) <==> id in Ids(Counted(own))
      ensures Holds(raw, id) <==> id in Ids(Counted(raw))
      ensures Holds(raw, id) <==> exists m :: 0 <= m < n && Holds(RawLinesOf(entries[m]), id)
    {
      LastSaidIs(own, id, Input);
      LastSaidIs(raw, id, Input);
      RawLinesHold(entries, n, id);
    }
    if Introduces(Counted(own), Counted(raw)) {
      var l :| l in Counted(own) && l.id !in Ids(Counted(raw));
      assert l.id in Ids(Counted(own));
    }
    if id :| id != "" && Holds(own, id) && forall m :: 0 <= m < n ==> !Holds(RawLinesOf(entries[m]), id) {
      var l :| l in Counted(own) && l.id == id;
      assert l.id !in Ids(Counted(raw));
    }
  }

  /** The counted lines of the first n entries. */
  function AllLines(entries: seq<Entry>, n: nat): seq<Line>
    requires n <= |entries|
  {
    if n == 0 then [] else AllLines(entries, n - 1) + LinesOf(entries[n - 1])
  }

  /** How many of the first n files have a message that no earlier file has. */
  ghost function Introducing(entries: seq<Entry>, n: nat): nat
    requires n <= |entries|
  {
    if n == 0 then 0
    else Introducing(entries, n - 1) + if Introduces(LinesOf(entries[n - 1]), AllLines(entries, n - 1)) then 1 else 0
  }

  lemma OneMoreEntry(entries: seq<Entry>, n: nat)
    requires n < |entries|
    ensures AllLines(entries, n + 1) == AllLines(entries, n) + LinesOf(entries[n])
    ensures Introducing(entries, n + 1) ==
      Introducing(entries, n) + if Introduces(LinesOf(entries[n]), AllLines(entries, n)) then 1 else 0
  {}

  /** One entry of the project's directory. */
  method ScanEntry(entry: Entry, seen: map<string, Tokens>, t: Totals, ghost before: seq<Line>) returns (seenAfter: map<string, Tokens>)
    requires Knows(seen, before) && t.tokens == WrapAll(SumOfLast(before))
    modifies t
    ensures Knows(seenAfter, before + LinesOf(entry))
    ensures t.tokens == WrapAll(SumOfLast(before + LinesOf(entry)))
    ensures t.sessions == old(t.sessions) + if Introduces(LinesOf(entry), before) then 1 else 0
  {
    seenAfter := seen;
    if !IsTranscript(entry) {
      assert before + [] == before;
      return;
    }
    var contributed, unused;
    contributed, seenAfter, unused := ScanFile(entry.file, seen, t, "", before);
    if contributed {
      t.sessions := t.sessions + 1;
    }
  }

  method ScanProject(entries: Option<seq<Entry>>) returns (t: Totals)
    ensures fresh(t)
    ensures entries.None? ==> t.tokens == ZERO && t.sessions == 0
    ensures entries.Some? ==> t.tokens == WrapAll(SumOfLast(AllLines(entries.value, |entries.value|)))
    ensures entries.Some? ==> t.sessions == Introducing(entries.value, |entries.value|)
    ensures entries.Some? ==> TotalsOf(t.tokens, RawLines(entries.value, |entries.value|))
  {
    t := new Totals();
    if entries.None? {
      return;
    }
    var es := entries.value;
    var seen: map<string, Tokens> := map[];
    for i := 0 to |es|
      invariant fresh(t)
      invariant Knows(seen, AllLines(es, i))
      invariant t.tokens == WrapAll(SumOfLast(AllLines(es, i)))
      invariant t.sessions == Introducing(es, i)
    {
      OneMoreEntry(es, i);
      seen := ScanEntry(es[i], seen, t, AllLines(es, i));
    }
    RawTotals(es, t.tokens);
  }

  lemma RawTotals(entries: seq<Entry>, tokens: Tokens)
    requires tokens == WrapAll(SumOfLast(AllLines(entries, |entries|)))
    ensures TotalsOf(tokens, RawLines(entries, |entries|))
  {
    RawLinesCounted(entries, |entries|);
    TotalsAre(RawLines(entries, |entries|));
  }
}
