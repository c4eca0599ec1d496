/** Joining coder receipts to commits by author time. */
module Attribution {
  import opened Wrappers
  import opened Text

  const SECOND := 1_000_000_000
  const WINDOW := 12 * 3600 * SECOND  // nanoseconds
  const NUL := '\0'

  /** `start` is the parsed time of the receipt in nanoseconds since the epoch,
      None when it does not parse; `log` is what git prints from its commit on. */
  datatype Receipt = Receipt(commit: string, start: Option<int>, level: string, log: string)

  datatype Claim = Claim(sha: string, subject: string, level: string)

  predicate Usable(r: Receipt) { r.commit != "" && r.start.Some? }

  /** Not before the start and not after the end: both ends count. */
  predicate InWindow(start: int, epoch: int) { start <= epoch * SECOND <= start + WINDOW }

  /** What a line of the log claims for a receipt. */
  function ClaimOf(r: Receipt, line: string): Option<Claim> {
    var parts := Split(line, NUL);
    if !Usable(r) || |parts| < 3 || parts[0] == "" then None
    else
      var epoch := Atoi(parts[1]);
      if epoch.None? || !InWindow(r.start.value, epoch.value) then None
      else Some(Claim(parts[0], parts[2], r.level))
  }

  function ClaimsOf(r: Receipt, lines: seq<string>): seq<Claim> {
    if lines == [] then []
    else
      var c := ClaimOf(r, lines[|lines| - 1]);
      ClaimsOf(r, lines[..|lines| - 1]) + if c.Some? then [c.value] else []
  }

  /** Every claim of the first n receipts, receipt by receipt. */
  function AllClaims(rs: seq<Receipt>, n: nat): seq<Claim>
    requires n <= |rs|
  {
    if n == 0 then [] else AllClaims(rs, n - 1) + ClaimsOf(rs[n - 1], Split(rs[n - 1].log, '\n'))
  }

  function Shas(cs: seq<Claim>): set<string> {
    if cs == [] then {} else Shas(cs[..|cs| - 1]) + {cs[|cs| - 1].sha}
  }

  /** The first claim of each commit, in order. */
  function Firsts(cs: seq<Claim>): seq<Claim> {
    if cs == [] then []
    else
      var before, c := Firsts(cs[..|cs| - 1]), cs[|cs| - 1];
      if c.sha in Shas(cs[..|cs| - 1]) then before else before + [c]
  }

  lemma FirstsNext(cs: seq<Claim>, c: Claim)
    ensures Firsts(cs + [c]) == if c.sha in Shas(cs) then Firsts(cs) else Firsts(cs) + [c]
    ensures Shas(cs + [c]) == Shas(cs) + {c.sha}
  {
    assert (cs + [c])[..|cs|] == cs;
  }

  /** One line of a receipt's log: the claim it makes, unless its commit is seen. */
  method ReadLine(r: Receipt, line: string, seen: set<string>) returns (c: Option<Claim>)
    requires Usable(r)
    ensures c == if ClaimOf(r, line).Some? && ClaimOf(r, line).value.sha !in seen then ClaimOf(r, line) else None
  {
    var parts := Split(line, NUL);
    if |parts| < 3 || parts[0] == "" || parts[0] in seen {
      return None;
    }
    var epoch := Atoi(parts[1]);
    if epoch.None? || epoch.value * SECOND < r.start.value || epoch.value * SECOND > r.start.value + WINDOW {
      return None;
    }
    return Some(Claim(parts[0], parts[2], r.level));
  }

  /** The lines of one receipt's log, after the claims of the receipts before it. */
  method ScanLog(r: Receipt, lines: seq<string>, seenBefore: set<string>, outBefore: seq<Claim>, ghost before: seq<Claim>)
    returns (seen: set<string>, out: seq<Claim>)
    requires Usable(r) && outBefore == Firsts(before) && seenBefore == Shas(before)
    ensures out == Firsts(before + ClaimsOf(r, lines)) && seen == Shas(before + ClaimsOf(r, lines))
  {
    seen, out := seenBefore, outBefore;
    assert before + ClaimsOf(r, lines[..0]) == before;
    for j := 0 to |lines|
      invariant out == Firsts(before + ClaimsOf(r, lines[..j])) && seen == Shas(before + ClaimsOf(r, lines[..j]))
    {
      LineCounts(before, r, lines, j);
      var c := ReadLine(r, lines[j], seen);
      if c.Some? {
        seen := seen + {c.value.sha};
        out := out + [c.value];
      }
    }
    assert lines[..|lines|] == lines;
  }

  method AttributeCommits(rs: seq<Receipt>) returns (out: seq<Claim>)
    ensures out == Firsts(AllClaims(rs, |rs|))
  {
    var seen: set<string> := {};
    out := [];
    for i := 0 to |rs|
      invariant out == Firsts(AllClaims(rs, i)) && seen == Shas(AllClaims(rs, i))
    {
      if !Usable(rs[i]) {
        NothingClaimed(rs[i], Split(rs[i].log, '\n'));
        assert AllClaims(rs, i) + [] == AllClaims(rs, i);
        continue;
      }
      seen, out := ScanLog(rs[i], Split(rs[i].log, '\n'), seen, out, AllClaims(rs, i));
    }
  }

  /** What one more line of the log does to the claims so far. */
  lemma LineCounts(before: seq<Claim>, r: Receipt, lines: seq<string>, j: nat)
    requires j < |lines|
    ensures var soFar, next, c := before + ClaimsOf(r, lines[..j]), before + ClaimsOf(r, lines[..j + 1]), ClaimOf(r, lines[j]);
      var counts := c.Some? && c.value.sha !in Shas(soFar);
      && Firsts(next) == (if counts then Firsts(soFar) + [c.value] else Firsts(soFar))
      && Shas(next) == (if counts then Shas(soFar) + {c.value.sha} else Shas(soFar))
  {
    ClaimsNext(before, r, lines, j);
    if ClaimOf(r, lines[j]).Some? { FirstsNext(before + ClaimsOf(r, lines[..j]), ClaimOf(r, lines[j]).value); }
  }

  lemma ClaimsNext(before: seq<Claim>, r: Receipt, lines: seq<string>, j: nat)
    requires j < |lines|
    ensures var soFar, c := before + ClaimsOf(r, lines[..j]), ClaimOf(r, lines[j]);
      before + ClaimsOf(r, lines[..j + 1]) == if c.Some? then soFar + [c.value] else soFar
  {
    assert lines[..j + 1][..j] == lines[..j];
  }

  lemma {:induction false} NothingClaimed(r: Receipt, lines: seq<string>)
    requires !Usable(r)
    ensures ClaimsOf(r, lines) == []
  {
    if lines != [] { NothingClaimed(r, lines[..|lines| - 1]); }
  }

  // ---- each commit once ----

  lemma {:induction false} ShaListed(cs: seq<Claim>, sha: string)
    ensures sha in Shas(cs) <==> exists i :: 0 <= i < |cs| && cs[i].sha == sha
    decreases |cs|
  {
    if cs != [] {
      ShaListed(cs[..|cs| - 1], sha);
      assert cs == cs[..|cs| - 1] + [cs[|cs| - 1]];
    }
  }

  ghost predicate Distinct(cs: seq<Claim>) {
    forall i, j :: 0 <= i < j < |cs| ==> cs[i].sha != cs[j].sha
  }

  lemma DistinctNext(cs: seq<Claim>, c: Claim)
    requires Distinct(cs) && c.sha !in Shas(cs)
    ensures Distinct(cs + [c])
  {
    ShaListed(cs, c.sha);
  }

  /** No commit twice, and none left out. */
  lemma {:induction false} FirstsDistinct(cs: seq<Claim>)
    ensures Distinct(Firsts(cs)) && Shas(Firsts(cs)) == Shas(cs)
    decreases |cs|
  {
    if cs != [] {
      var init, last := cs[..|cs| - 1], cs[|cs| - 1];
      FirstsDistinct(init);
      if last.sha !in Shas(init) {
        DistinctNext(Firsts(init), last);
        FirstsNext(Firsts(init), last);
      }
    }
  }

  lemma {:induction false} ShasJoin(a: seq<Claim>, b: seq<Claim>)
    ensures Shas(a + b) == Shas(a) + Shas(b)
    decreases |b|
  {
    if b == [] {
      assert a + b == a;
    } else {
      var init, last := b[..|b| - 1], b[|b| - 1];
      assert a + b == (a + init) + [last];
      ShasJoin(a, init);
      FirstsNext(a + init, last);
    }
  }

  /** Of two runs of claims, the second counts only for commits new to it. */
  lemma {:induction false} FirstsOfJoin(a: seq<Claim>, b: seq<Claim>, c: Claim)
    requires c in Firsts(a + b)
    ensures c in Firsts(a) || (c in b && c.sha !in Shas(a))
    decreases |b|
  {
    if b == [] {
      assert a + b == a;
    } else {
      var init, last := b[..|b| - 1], b[|b| - 1];
      assert a + b == (a + init) + [last] && b == init + [last];
      FirstsNext(a + init, last);
      ShasJoin(a, init);
      if c in Firsts(a + init) { FirstsOfJoin(a, init, c); }
    }
  }

  // ---- the logs git prints ----

  datatype Commit = Commit(sha: string, epoch: nat, subject: string)

  function LogLine(c: Commit): string { c.sha + [NUL] + (Itoa(c.epoch) + [NUL] + c.subject) }

  function LogLines(commits: seq<Commit>): seq<string> {
    if commits == [] then [] else LogLines(commits[..|commits| - 1]) + [LogLine(commits[|commits| - 1])]
  }

  function Log(commits: seq<Commit>): string { Join(LogLines(commits), '\n') }

  /** Hashes and subjects are one line each, without NUL; times fit 64 bits. */
  predicate Clean(c: Commit) {
    c.sha != "" && NUL !in c.sha && '\n' !in c.sha && NUL !in c.subject && '\n' !in c.subject && c.epoch <= MAX_INT
  }

  lemma DigitsPlain(n: nat)
    ensures NUL !in Itoa(n) && '\n' !in Itoa(n)
  {
    var s := Itoa(n);
    forall i | 0 <= i < |s| ensures s[i] != NUL && s[i] != '\n' {
      assert IsDigit(s[i]);
    }
  }

  lemma LineReadsBack(r: Receipt, c: Commit)
    requires Clean(c)
    ensures '\n' !in LogLine(c)
    ensures ClaimOf(r, LogLine(c)) ==
      if Usable(r) && InWindow(r.start.value, c.epoch) then Some(Claim(c.sha, c.subject, r.level)) else None
  {
    DigitsPlain(c.epoch);
    AtoiItoa(c.epoch);
    SplitHead(c.subject, "", NUL);
    SplitHead(Itoa(c.epoch), c.subject, NUL);
    SplitHead(c.sha, Itoa(c.epoch) + [NUL] + c.subject, NUL);
  }

  /** A line claims nothing without its three parts, a hash and a time that parses. */
  lemma OnlyFullLinesClaim(r: Receipt, sha: string, time: string, subject: string)
    requires NUL !in sha && NUL !in time && NUL !in subject
    ensures ClaimOf(r, sha) == None && ClaimOf(r, sha + [NUL] + time) == None
    ensures ClaimOf(r, sha + [NUL] + (time + [NUL] + subject)).Some? ==> sha != "" && Atoi(time).Some?
  {
    SplitHead(subject, "", NUL);
    SplitHead(time, subject, NUL);
    SplitHead(sha, time, NUL);
    SplitHead(sha, time + [NUL] + subject, NUL);
  }

  /** The commits of a receipt's log inside its window, as claims. */
  function InTime(r: Receipt, commits: seq<Commit>): seq<Claim> {
    if commits == [] then []
    else
      var c := commits[|commits| - 1];
      InTime(r, commits[..|commits| - 1]) +
        if Usable(r) && InWindow(r.start.value, c.epoch) then [Claim(c.sha, c.subject, r.level)] else []
  }

  lemma {:induction false} LinesReadBack(r: Receipt, commits: seq<Commit>)
    requires forall c :: c in commits ==> Clean(c)
    ensures forall l :: l in LogLines(commits) ==> '\n' !in l
    ensures ClaimsOf(r, LogLines(commits)) == InTime(r, commits)
    decreases |commits|
  {
    if commits != [] {
      var init, last := commits[..|commits| - 1], commits[|commits| - 1];
      assert last in commits;
      LinesReadBack(r, init);
      LineReadsBack(r, last);
      assert LogLines(commits)[..|LogLines(init)|] == LogLines(init);
    }
  }

  /** Reading a log git printed gives back its commits. */
  lemma LogReadsBack(r: Receipt, commits: seq<Commit>)
    requires forall c :: c in commits ==> Clean(c)
    ensures ClaimsOf(r, Split(Log(commits), '\n')) == InTime(r, commits)
  {
    LinesReadBack(r, commits);
    if LogLines(commits) == [] {
      NoLine(r);
    } else {
      SplitJoin(LogLines(commits), '\n');
    }
  }

  lemma NoLine(r: Receipt)
    ensures ClaimsOf(r, Split("", '\n')) == []
  {
    assert Split("", '\n') == [""] && [""][..0] == [] && Split("", NUL) == [""];
  }

  // ---- attribution ----

  /** The receipt can claim the commit: it names a base commit, its time parses,
      and the commit was authored no earlier and at most twelve hours later,
      in nanoseconds. */
  predicate Within(r: Receipt, d: Commit) {
    r.commit != "" && r.start.Some? && 0 <= d.epoch * 1_000_000_000 - r.start.value <= 43_200_000_000_000
  }

  lemma WithinIs(r: Receipt, d: Commit)
    ensures Within(r, d) <==> Usable(r) && InWindow(r.start.value, d.epoch)
  {}

  /** The receipt's log lists the commit, where the receipt can claim it. */
  ghost predicate Lists(r: Receipt, commits: seq<Commit>, sha: string) {
    exists i :: 0 <= i < |commits| && commits[i].sha == sha && Within(r, commits[i])
  }

  lemma ListsIf(r: Receipt, commits: seq<Commit>, d: Commit)
    requires d in commits && Within(r, d)
    ensures Lists(r, commits, d.sha)
  {
    var i :| 0 <= i < |commits| && commits[i] == d;
  }

  lemma ListedNext(r: Receipt, commits: seq<Commit>, sha: string)
    requires commits != []
    ensures var last := commits[|commits| - 1];
      Lists(r, commits, sha) <==> Lists(r, commits[..|commits| - 1], sha) || (last.sha == sha && Within(r, last))
  {
    var init := commits[..|commits| - 1];
    if Lists(r, init, sha) {
      var i :| 0 <= i < |init| && init[i].sha == sha && Within(r, init[i]);
      assert commits[i] == init[i];
    }
    if Lists(r, commits, sha) {
      var i :| 0 <= i < |commits| && commits[i].sha == sha && Within(r, commits[i]);
      assert i < |init| ==> init[i] == commits[i];
    }
  }

  lemma {:induction false} InTimeLists(r: Receipt, commits: seq<Commit>, sha: string)
    ensures sha in Shas(InTime(r, commits)) <==> Lists(r, commits, sha)
    decreases |commits|
  {
    if commits != [] {
      var init, last := commits[..|commits| - 1], commits[|commits| - 1];
      InTimeLists(r, init, sha);
      ListedNext(r, commits, sha);
      WithinIs(r, last);
      FirstsNext(InTime(r, init), Claim(last.sha, last.subject, r.level));
      assert InTime(r, init) + [] == InTime(r, init);
    }
  }

  lemma {:induction false} InTimeOwn(r: Receipt, commits: seq<Commit>, c: Claim) returns (d: Commit)
    requires c in InTime(r, commits)
    ensures d in commits && Within(r, d) && c == Claim(d.sha, d.subject, r.level)
    decreases |commits|
  {
    var init, last := commits[..|commits| - 1], commits[|commits| - 1];
    assert last in commits;
    WithinIs(r, last);
    if c in InTime(r, init) { d := InTimeOwn(r, init, c); } else { d := last; }
  }

  /** The logs are what git prints for these commits. */
  ghost predicate Printed(rs: seq<Receipt>, logs: seq<seq<Commit>>) {
    |logs| == |rs| && forall i :: 0 <= i < |rs| ==> PrintedAs(rs[i], logs[i])
  }

  ghost predicate PrintedAs(r: Receipt, commits: seq<Commit>) {
    r.log == Log(commits) && forall c :: c in commits ==> Clean(c)
  }

  /** Some of the first n receipts lists the commit. */
  ghost predicate ListedBefore(rs: seq<Receipt>, logs: seq<seq<Commit>>, n: int, sha: string)
    requires n <= |rs| == |logs|
  {
    exists i :: 0 <= i < n && Lists(rs[i], logs[i], sha)
  }

  lemma ListedBeforeNext(rs: seq<Receipt>, logs: seq<seq<Commit>>, n: nat, sha: string)
    requires 0 < n <= |rs| == |logs|
    ensures ListedBefore(rs, logs, n, sha) <==> ListedBefore(rs, logs, n - 1, sha) || Lists(rs[n - 1], logs[n - 1], sha)
  {}

  /** The claims of the first n receipts, read off the commits themselves. */
  function AllInTime(rs: seq<Receipt>, logs: seq<seq<Commit>>, n: nat): seq<Claim>
    requires n <= |rs| == |logs|
  {
    if n == 0 then [] else AllInTime(rs, logs, n - 1) + InTime(rs[n - 1], logs[n - 1])
  }

  lemma NextLogReadsBack(rs: seq<Receipt>, logs: seq<seq<Commit>>, n: nat)
    requires Printed(rs, logs) && n < |rs|
    ensures ClaimsOf(rs[n], Split(rs[n].log, '\n')) == InTime(rs[n], logs[n])
  {
    assert PrintedAs(rs[n], logs[n]);
    LogReadsBack(rs[n], logs[n]);
  }

  /** Reading the printed logs loses nothing and adds nothing. */
  lemma {:induction false} LogsReadBack(rs: seq<Receipt>, logs: seq<seq<Commit>>, n: nat)
    requires Printed(rs, logs) && n <= |rs|
    ensures AllClaims(rs, n) == AllInTime(rs, logs, n)
    decreases n
  {
    if n > 0 {
      LogsReadBack(rs, logs, n - 1);
      NextLogReadsBack(rs, logs, n - 1);
    }
  }

  lemma {:induction false} ClaimedIff(rs: seq<Receipt>, logs: seq<seq<Commit>>, n: nat, sha: string)
    requires n <= |rs| == |logs|
    ensures sha in Shas(AllInTime(rs, logs, n)) <==> ListedBefore(rs, logs, n, sha)
    decreases n
  {
    if n > 0 {
      ClaimedIff(rs, logs, n - 1, sha);
      InTimeLists(rs[n - 1], logs[n - 1], sha);
      ShasJoin(AllInTime(rs, logs, n - 1), InTime(rs[n - 1], logs[n - 1]));
      ListedBeforeNext(rs, logs, n, sha);
    }
  }

  /** The claim is receipt i's, of the commit d in its log; no earlier receipt
      can claim a commit of that hash in its own. */
  ghost predicate FirstToList(rs: seq<Receipt>, logs: seq<seq<Commit>>, c: Claim, i: int, d: Commit)
    requires |rs| == |logs|
  {
    && 0 <= i < |rs| && d in logs[i] && Within(rs[i], d) && c == Claim(d.sha, d.subject, rs[i].level)
    && forall k, e :: 0 <= k < i && e in logs[k] && Within(rs[k], e) ==> e.sha != c.sha
  }

  lemma NewlyClaimed(rs: seq<Receipt>, logs: seq<seq<Commit>>, i: nat, c: Claim) returns (d: Commit)
    requires i < |rs| == |logs|
    requires c in InTime(rs[i], logs[i]) && c.sha !in Shas(AllInTime(rs, logs, i))
    ensures FirstToList(rs, logs, c, i, d)
  {
    d := InTimeOwn(rs[i], logs[i], c);
    ClaimedIff(rs, logs, i, c.sha);
    forall k, e | 0 <= k < i && e in logs[k] && Within(rs[k], e) ensures e.sha != c.sha {
      ListsIf(rs[k], logs[k], e);
    }
  }

  lemma {:induction false} ClaimedByFirst(rs: seq<Receipt>, logs: seq<seq<Commit>>, n: nat, c: Claim) returns (i: int, d: Commit)
    requires n <= |rs| == |logs| && c in Firsts(AllInTime(rs, logs, n))
    ensures FirstToList(rs, logs, c, i, d)
    decreases n
  {
    FirstsOfJoin(AllInTime(rs, logs, n - 1), InTime(rs[n - 1], logs[n - 1]), c);
    if c in Firsts(AllInTime(rs, logs, n - 1)) {
      i, d := ClaimedByFirst(rs, logs, n - 1, c);
    } else {
      i := n - 1;
      d := NewlyClaimed(rs, logs, i, c);
    }
  }

  /** For logs as git prints them: each commit is attributed at most once, to
      the first receipt that lists it inside that receipt's twelve hours, with
      its subject and that receipt's level; and every commit that some receipt
      lists so is attributed. */
  lemma AttributedOnce(rs: seq<Receipt>, logs: seq<seq<Commit>>)
    requires Printed(rs, logs)
    ensures var out := Firsts(AllClaims(rs, |rs|));
      && (forall i, j :: 0 <= i < j < |out| ==> out[i].sha != out[j].sha)
      && (forall c :: c in out ==> exists i, d :: FirstToList(rs, logs, c, i, d))
      && (forall i, d :: 0 <= i < |rs| && d in logs[i] && Within(rs[i], d) ==> exists c :: c in out && c.sha == d.sha)
  {
    LogsReadBack(rs, logs, |rs|);
    var all := AllInTime(rs, logs, |rs|);
    FirstsDistinct(all);
    forall c | c in Firsts(all) ensures exists i, d :: FirstToList(rs, logs, c, i, d) {
      var i, d := ClaimedByFirst(rs, logs, |rs|, c);
    }
    forall i, d | 0 <= i < |rs| && d in logs[i] && Within(rs[i], d) ensures exists c :: c in Firsts(all) && c.sha == d.sha {
      ListsIf(rs[i], logs[i], d);
      ClaimedIff(rs, logs, |rs|, d.sha);
      ShaListed(Firsts(all), d.sha);
      var k :| 0 <= k < |Firsts(all)| && Firsts(all)[k].sha == d.sha;
      assert Firsts(all)[k] in Firsts(all);
    }
  }
}
