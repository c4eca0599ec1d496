/** Counters and flags as simple functions of a key's history, and what the
    answers of a whole trace can never do. */
module SessionLaws {
  import opened Wrappers
  import opened Keys
  import opened Sessions

  // ---- fields from the history ----

  datatype Cycle = Exploring | Arriving

  /** The operation that starts a cycle afresh. */
  predicate Restarts(op: Op, c: Cycle) {
    match c
    case Exploring => op.ResetExplore?
    case Arriving => op.ResetArrival?
  }

  /** The operations of the current cycle: those after the last restart. */
  function Tail(h: seq<Op>, c: Cycle): seq<Op> {
    if h == [] then []
    else if Restarts(h[|h| - 1], c) then []
    else Tail(h[..|h| - 1], c) + [h[|h| - 1]]
  }

  function Explores(h: seq<Op>): nat {
    if h == [] then 0 else Explores(h[..|h| - 1]) + (if h[|h| - 1].NoteExplore? then 1 else 0)
  }

  function ArrivedBytes(h: seq<Op>): nat {
    if h == [] then 0 else ArrivedBytes(h[..|h| - 1]) + (if h[|h| - 1].NoteArrival? then h[|h| - 1].bytes else 0)
  }

  /** Commands run since the last edit. */
  function SinceEdit(h: seq<Op>): (runs: seq<Op>)
    ensures forall k :: 0 <= k < |runs| ==> runs[k].NoteBash?
  {
    if h == [] || h[|h| - 1].ClearBash? then []
    else SinceEdit(h[..|h| - 1]) + (if h[|h| - 1].NoteBash? then [h[|h| - 1]] else [])
  }

  /** n is the length of the longest run of one non-empty retry key at the end. */
  ghost predicate IsTrailingRun(runs: seq<Op>, n: nat)
    requires forall k :: 0 <= k < |runs| ==> runs[k].NoteBash?
  {
    && n <= |runs|
    && (n == 0 <==> runs == [] || runs[|runs| - 1].retryKey == "")
    && (forall k :: |runs| - n <= k < |runs| ==> runs[k].retryKey == runs[|runs| - 1].retryKey)
    && (0 < n < |runs| ==> runs[|runs| - n - 1].retryKey != runs[|runs| - 1].retryKey)
  }

  ghost predicate LastRunIs(runs: seq<Op>, b: BashTrail)
    requires forall k :: 0 <= k < |runs| ==> runs[k].NoteBash?
  {
    if runs == [] then b.lastCommand == "" && b.lastRetryKey == ""
    else
      var last := runs[|runs| - 1];
      b.lastCommand == last.command && b.lastAt == last.now && b.lastRetryKey == last.retryKey
  }

  /** The operation at i is the last read of the path. */
  ghost predicate LastReadAt(h: seq<Op>, i: nat, path: string) {
    i < |h| && h[i].MarkRead? && h[i].path == path &&
    forall j :: i < j < |h| && h[j].MarkRead? ==> h[j].path != path
  }

  ghost predicate ReadLast(h: seq<Op>, path: string, mtime: int) {
    exists i: nat :: LastReadAt(h, i, path) && h[i].mtime == mtime
  }

  lemma ReplayAppends(h: seq<Op>, op: Op)
    ensures Replay(h + [op]) == Update(Replay(h), op)
  {
    assert (h + [op])[..|h|] == h;
  }

  lemma CountsAppend(h: seq<Op>, op: Op)
    ensures Explores(h + [op]) == Explores(h) + (if op.NoteExplore? then 1 else 0)
    ensures ArrivedBytes(h + [op]) == ArrivedBytes(h) + (if op.NoteArrival? then op.bytes else 0)
  {
    assert (h + [op])[..|h|] == h;
  }

  lemma StreakStep(cycle: seq<Op>, s: Session, op: Op)
    requires s.exploreStreak == Explores(cycle)
    ensures Update(s, op).exploreStreak == Explores(if Restarts(op, Exploring) then [] else cycle + [op])
  {
    CountsAppend(cycle, op);
  }

  /** The exploration streak counts from the last reset. */
  lemma {:induction false} StreakFromHistory(h: seq<Op>)
    ensures Replay(h).exploreStreak == Explores(Tail(h, Exploring))
  {
    if h != [] {
      var init, op := h[..|h| - 1], h[|h| - 1];
      StreakFromHistory(init);
      StreakStep(Tail(init, Exploring), Replay(init), op);
    }
  }

  lemma ArrivalsStep(cycle: seq<Op>, a: Arrivals, op: Op)
    requires a.bytes == ArrivedBytes(cycle)
    ensures NextArrivals(a, op).bytes == ArrivedBytes(if Restarts(op, Arriving) then [] else cycle + [op])
  {
    CountsAppend(cycle, op);
  }

  /** Arrivals add up from the last reset. */
  lemma {:induction false} ArrivalsFromHistory(h: seq<Op>)
    ensures Replay(h).arrivals.bytes == ArrivedBytes(Tail(h, Arriving))
  {
    if h != [] {
      var init, op := h[..|h| - 1], h[|h| - 1];
      ArrivalsFromHistory(init);
      ArrivalsStep(Tail(init, Arriving), Replay(init).arrivals, op);
    }
  }

  /** The retry count is the trailing run since the last edit; the previous
      command is the last one since the last edit. */
  lemma {:induction false} BashFromHistory(h: seq<Op>)
    ensures IsTrailingRun(SinceEdit(h), Replay(h).bash.retryCount)
    ensures LastRunIs(SinceEdit(h), Replay(h).bash)
  {
    if h != [] {
      var init, op := h[..|h| - 1], h[|h| - 1];
      BashFromHistory(init);
      BashStep(SinceEdit(init), Replay(init).bash, op);
    }
  }

  lemma BashStep(runs: seq<Op>, b: BashTrail, op: Op)
    requires forall k :: 0 <= k < |runs| ==> runs[k].NoteBash?
    requires IsTrailingRun(runs, b.retryCount) && LastRunIs(runs, b)
    ensures var runs' := if op.ClearBash? then [] else if op.NoteBash? then runs + [op] else runs;
      && (forall k :: 0 <= k < |runs'| ==> runs'[k].NoteBash?)
      && IsTrailingRun(runs', NextBash(b, op).retryCount) && LastRunIs(runs', NextBash(b, op))
  {}

  /** The flag and the count a command gets: same command as the previous one,
      no edit between, at most 30 s ago; and the run its retry key now ends. */
  lemma BashAnswer(trace: seq<Op>, i: nat)
    requires i < |trace| && trace[i].NoteBash?
    ensures AnswerAt(trace, i).Retry?
    ensures var runs, op := SinceEdit(Since(trace[..i], trace[i].key)), trace[i];
      && (AnswerAt(trace, i).repeat <==>
            runs != [] && op.command != "" && runs[|runs| - 1].command == op.command &&
            op.now - runs[|runs| - 1].now <= 30_000_000_000)
      && IsTrailingRun(runs + [op], AnswerAt(trace, i).count)
  {
    var h, op := Since(trace[..i], trace[i].key), trace[i];
    StateIsOwnHistory(trace[..i], op.key);
    BashFromHistory(h);
    BashStep(SinceEdit(h), Replay(h).bash, op);
  }

  lemma ReadLastStep(h: seq<Op>, op: Op, path: string, mtime: int)
    ensures ReadLast(h + [op], path, mtime) <==>
      if op.MarkRead? && op.path == path then op.mtime == mtime else ReadLast(h, path, mtime)
  {
    var h' := h + [op];
    assert op.MarkRead? && op.path == path ==> LastReadAt(h', |h|, path);
    forall i: nat | i < |h| ensures LastReadAt(h', i, path) <==> LastReadAt(h, i, path) && !(op.MarkRead? && op.path == path) {
      assert h'[i] == h[i] && h'[|h|] == op;
      assert forall j :: i < j < |h| ==> h'[j] == h[j];
    }
    assert forall i: nat :: LastReadAt(h', i, path) ==> i <= |h| && (i < |h| ==> h'[i] == h[i]);
  }

  lemma {:induction false} ReadsFromHistory(h: seq<Op>, path: string, mtime: int)
    ensures path in Replay(h).readFiles && Replay(h).readFiles[path] == mtime <==> ReadLast(h, path, mtime)
  {
    if h != [] {
      var init, op := h[..|h| - 1], h[|h| - 1];
      assert h == init + [op];
      ReadsFromHistory(init, path, mtime);
      ReadLastStep(init, op, path, mtime);
    }
  }

  lemma {:induction false} TagsFromHistory(h: seq<Op>, tag: string)
    ensures tag in Replay(h).suggested <==> exists i :: 0 <= i < |h| && h[i].MarkSuggested? && h[i].tag == tag
  {
    if h != [] {
      TagsFromHistory(h[..|h| - 1], tag);
    }
  }

  /** Some compact-timing check of the cycle found its threshold reached. */
  function Fired(cycle: seq<Op>): bool {
    if cycle == [] then false
    else
      var init, op := cycle[..|cycle| - 1], cycle[|cycle| - 1];
      Fired(init) || (op.AdviseCompact? && ArrivedBytes(init) >= op.threshold)
  }

  lemma AdvisedStep(cycle: seq<Op>, a: Arrivals, op: Op)
    requires a == Arrivals(ArrivedBytes(cycle), Fired(cycle))
    ensures NextArrivals(a, op).advised == Fired(if Restarts(op, Arriving) then [] else cycle + [op])
  {
    assert (cycle + [op])[..|cycle|] == cycle;
  }

  lemma {:induction false} AdvisedFromHistory(h: seq<Op>)
    ensures Replay(h).arrivals.advised == Fired(Tail(h, Arriving))
  {
    if h != [] {
      var init, op := h[..|h| - 1], h[|h| - 1];
      AdvisedFromHistory(init);
      ArrivalsFromHistory(init);
      AdvisedStep(Tail(init, Arriving), Replay(init).arrivals, op);
    }
  }

  /** What the rewrites of the history are estimated to have saved. */
  function SavedBytes(h: seq<Op>): int {
    if h == [] then 0
    else
      var op := h[|h| - 1];
      SavedBytes(h[..|h| - 1]) + if op.Log? && op.saved.Some? then op.saved.value else 0
  }

  lemma {:induction false} SavingsFromHistory(h: seq<Op>)
    ensures Replay(h).ledger.bytesSaved == SavedBytes(h)
  {
    if h != [] { SavingsFromHistory(h[..|h| - 1]); }
  }

  /** The largest total a Stop has shown. */
  function LastShown(h: seq<Op>): int {
    if h == [] then 0
    else
      var before, saved := LastShown(h[..|h| - 1]), SavedBytes(h[..|h| - 1]);
      if h[|h| - 1].ShowSavings? && saved > before then saved else before
  }

  lemma {:induction false} ShownFromHistory(h: seq<Op>)
    ensures Replay(h).ledger.lastShown == LastShown(h)
  {
    if h != [] {
      ShownFromHistory(h[..|h| - 1]);
      SavingsFromHistory(h[..|h| - 1]);
    }
  }

  /** The rule noted last for a command and not measured since, or none. */
  function PendingRule(h: seq<Op>, command: string): string {
    if h == [] then ""
    else
      var op := h[|h| - 1];
      if op.NoteRewrite? && op.command == command then op.rule
      else if op.TakeRewrite? && op.command == command then ""
      else PendingRule(h[..|h| - 1], command)
  }

  lemma {:induction false} RewritesFromHistory(h: seq<Op>, command: string)
    ensures (if command in Replay(h).pendingRewrites then Replay(h).pendingRewrites[command] else "") == PendingRule(h, command)
  {
    if h != [] { RewritesFromHistory(h[..|h| - 1], command); }
  }

  lemma {:induction false} FetchedFromHistory(h: seq<Op>, url: string)
    ensures url in Replay(h).fetched <==> exists i :: 0 <= i < |h| && h[i].MarkFetched? && h[i].url == url
  {
    if h != [] { FetchedFromHistory(h[..|h| - 1], url); }
  }

  function Decisions(h: seq<Op>): nat {
    if h == [] then 0 else Decisions(h[..|h| - 1]) + if h[|h| - 1].Log? then 1 else 0
  }

  function Rewrites(h: seq<Op>): nat {
    if h == [] then 0 else Rewrites(h[..|h| - 1]) + if h[|h| - 1].Log? && h[|h| - 1].saved.Some? then 1 else 0
  }

  /** The decision count counts the records, the rewrite count those of rewrites. */
  lemma {:induction false} CountsFromHistory(h: seq<Op>)
    ensures Replay(h).ledger.decisionCount == Decisions(h)
    ensures Replay(h).ledger.rewriteCount == Rewrites(h)
  {
    if h != [] { CountsFromHistory(h[..|h| - 1]); }
  }

  /** The model noted last for a call and not taken since, or none. */
  function NotedModel(h: seq<Op>, toolUse: string): string {
    if h == [] then ""
    else
      var op := h[|h| - 1];
      if op.NoteAgent? && op.toolUse == toolUse then op.model
      else if op.TakeAgent? && op.toolUse == toolUse then ""
      else NotedModel(h[..|h| - 1], toolUse)
  }

  function AgentsNoted(h: seq<Op>): nat {
    if h == [] then 0 else AgentsNoted(h[..|h| - 1]) + if h[|h| - 1].NoteAgent? then 1 else 0
  }

  function PendingModel(m: map<string, string>, toolUse: string): string { if toolUse in m then m[toolUse] else "" }

  lemma AddedSize(m: map<string, string>, k: string, v: string)
    ensures |m[k := v]| <= |m| + 1
  {
    assert m[k := v].Keys == m.Keys + {k};
  }

  /** What is pending for a call is the model noted last, or was dropped with all
      the others when a 257th came; up to 256 notes nothing is dropped. */
  lemma {:induction false} AgentsFromHistory(h: seq<Op>, toolUse: string)
    ensures PendingModel(Replay(h).pendingAgents, toolUse) in {"", NotedModel(h, toolUse)}
    ensures AgentsNoted(h) <= 256 ==>
      PendingModel(Replay(h).pendingAgents, toolUse) == NotedModel(h, toolUse) && |Replay(h).pendingAgents| <= AgentsNoted(h)
  {
    if h != [] {
      var init, op := h[..|h| - 1], h[|h| - 1];
      AgentsFromHistory(init, toolUse);
      AgentsStep(Replay(init).pendingAgents, op, toolUse);
    }
  }

  lemma AgentsStep(m: map<string, string>, op: Op, toolUse: string)
    ensures var m' := NextAgents(m, op);
      && (op.NoteAgent? && op.toolUse == toolUse ==> PendingModel(m', toolUse) == op.model)
      && (op.TakeAgent? && op.toolUse == toolUse ==> PendingModel(m', toolUse) == "")
      && (!((op.NoteAgent? || op.TakeAgent?) && op.toolUse == toolUse) ==>
            PendingModel(m', toolUse) == PendingModel(m, toolUse) || PendingModel(m', toolUse) == "")
      && (!((op.NoteAgent? || op.TakeAgent?) && op.toolUse == toolUse) && (op.NoteAgent? ==> |m| < 256) ==>
            PendingModel(m', toolUse) == PendingModel(m, toolUse))
      && (|m| < 256 || !op.NoteAgent? ==> |m'| <= |m| + if op.NoteAgent? then 1 else 0)
  {
    if op.NoteAgent? { AddedSize(m, op.toolUse, op.model); }
    if op.TakeAgent? { RemoveShrinks(m, op.toolUse); }
  }

  // ---- answers over a whole trace ----

  /** Which history a call adds to: that of its own key, unless it is a record
      without a session or an agent call without an id. */
  lemma HistoryNext(trace: seq<Op>, op: Op, key: string)
    requires !op.EndAgent? && !op.EndSession?
    ensures Since(trace + [op], key) ==
      if op.key == key && !(op.Log? && op.key == "") && !(op.NoteAgent? && op.toolUse == "")
      then Since(trace, key) + [op] else Since(trace, key)
  {
    assert (trace + [op])[..|trace|] == trace;
  }

  /** A read is a repeat exactly when the last read of the path under the key
      found the same mtime. */
  lemma ReadAnswer(trace: seq<Op>, j: nat)
    requires j < |trace| && trace[j].MarkRead?
    ensures AnswerAt(trace, j) == Flag(ReadLast(Since(trace[..j], trace[j].key), trace[j].path, trace[j].mtime))
  {
    StateIsOwnHistory(trace[..j], trace[j].key);
    ReadsFromHistory(Since(trace[..j], trace[j].key), trace[j].path, trace[j].mtime);
  }

  /** A fetch is a repeat exactly when the URL was fetched under the key before. */
  lemma FetchAnswer(trace: seq<Op>, j: nat)
    requires j < |trace| && trace[j].MarkFetched?
    ensures var h := Since(trace[..j], trace[j].key);
      AnswerAt(trace, j) == Flag(exists i :: 0 <= i < |h| && h[i].MarkFetched? && h[i].url == trace[j].url)
  {
    StateIsOwnHistory(trace[..j], trace[j].key);
    FetchedFromHistory(Since(trace[..j], trace[j].key), trace[j].url);
  }

  /** The recommendation an Agent call gets back is the one noted last for it, or
      none; and it is the one, up to 256 notes since the last eviction. */
  lemma AgentAnswer(trace: seq<Op>, j: nat)
    requires j < |trace| && trace[j].TakeAgent?
    ensures var h := Since(trace[..j], trace[j].key);
      && AnswerAt(trace, j) in {Name(""), Name(NotedModel(h, trace[j].toolUse))}
      && (AgentsNoted(h) <= 256 ==> AnswerAt(trace, j) == Name(NotedModel(h, trace[j].toolUse)))
  {
    StateIsOwnHistory(trace[..j], trace[j].key);
    AgentsFromHistory(Since(trace[..j], trace[j].key), trace[j].toolUse);
  }

  lemma RewriteAnswer(trace: seq<Op>, j: nat)
    requires j < |trace| && trace[j].TakeRewrite?
    ensures AnswerAt(trace, j) == Name(PendingRule(Since(trace[..j], trace[j].key), trace[j].command))
  {
    StateIsOwnHistory(trace[..j], trace[j].key);
    RewritesFromHistory(Since(trace[..j], trace[j].key), trace[j].command);
  }

  /** The totals at a Stop are the history's, and count as new exactly when the
      savings exceed every total shown before. */
  lemma SavingsAnswer(trace: seq<Op>, j: nat)
    requires j < |trace| && trace[j].ShowSavings?
    ensures var h := Since(trace[..j], trace[j].key);
      AnswerAt(trace, j) == Shown(SavedBytes(h), Rewrites(h), SavedBytes(h) > LastShown(h))
  {
    var h := Since(trace[..j], trace[j].key);
    StateIsOwnHistory(trace[..j], trace[j].key);
    SavingsFromHistory(h);
    CountsFromHistory(h);
    ShownFromHistory(h);
  }

  /** A suggestion key fires at most once between two evictions. */
  lemma SuggestedOnce(trace: seq<Op>, i: nat, j: nat)
    requires i < j < |trace| && trace[i].MarkSuggested? && trace[j] == trace[i]
    requires NoEviction(trace, i, j, trace[i].key)
    ensures AnswerAt(trace, j) == Flag(false)
  {
    var before, between := FromTo(trace, i, j, trace[i].key);
    var h := before + [trace[i]] + between;
    TagsFromHistory(h, trace[i].tag);
    assert h[|before|] == trace[i];
  }

  /** And it does fire the first time. */
  lemma SuggestedFirst(trace: seq<Op>, j: nat)
    requires j < |trace| && trace[j].MarkSuggested?
    ensures AnswerAt(trace, j) == Flag(true) <==>
      forall i :: 0 <= i < |Since(trace[..j], trace[j].key)| ==>
        !(Since(trace[..j], trace[j].key)[i].MarkSuggested? && Since(trace[..j], trace[j].key)[i].tag == trace[j].tag)
  {
    StateIsOwnHistory(trace[..j], trace[j].key);
    TagsFromHistory(Since(trace[..j], trace[j].key), trace[j].tag);
  }

  lemma {:induction false} AdvisedStays(h: seq<Op>, more: seq<Op>)
    requires Replay(h).arrivals.advised && forall op :: op in more ==> !op.ResetArrival?
    ensures Replay(h + more).arrivals.advised
  {
    if more == [] {
      assert h + more == h;
    } else {
      var init, op := more[..|more| - 1], more[|more| - 1];
      assert op in more;
      AdvisedStays(h, init);
      assert h + more == (h + init) + [op];
      ReplayAppends(h + init, op);
    }
  }

  /** Compact-timing fires exactly when the bytes that arrived this cycle reach
      its threshold and no check of the cycle has fired, and then reports them. */
  lemma CompactFiresIff(trace: seq<Op>, j: nat)
    requires j < |trace| && trace[j].AdviseCompact?
    ensures var cycle := Tail(Since(trace[..j], trace[j].key), Arriving);
      AnswerAt(trace, j) ==
        if ArrivedBytes(cycle) >= trace[j].threshold && !Fired(cycle) then Arrived(ArrivedBytes(cycle), true) else Arrived(0, false)
  {
    var h := Since(trace[..j], trace[j].key);
    StateIsOwnHistory(trace[..j], trace[j].key);
    ArrivalsFromHistory(h);
    AdvisedFromHistory(h);
  }

  /** And it fires twice only across a reset. */
  lemma CompactOncePerCycle(trace: seq<Op>, i: nat, j: nat)
    requires i < j < |trace| && trace[i].AdviseCompact? && trace[j].AdviseCompact? && trace[i].key == trace[j].key
    requires NoEviction(trace, i, j, trace[i].key)
    requires AnswerAt(trace, i).advise && AnswerAt(trace, j).advise
    ensures exists k :: i < k < j && trace[k].ResetArrival? && trace[k].key == trace[i].key
  {
    var key := trace[i].key;
    var before, between := FromTo(trace, i, j, key);
    ReplayAppends(before, trace[i]);
    assert Replay(before + [trace[i]]).arrivals.advised;
    if forall op :: op in between ==> !op.ResetArrival? {
      AdvisedStays(before + [trace[i]], between);
    }
    var reset :| reset in between && reset.ResetArrival?;
    OnKeyMembers(trace[i + 1..j], key, reset);
    var k :| 0 <= k < j - i - 1 && trace[i + 1..j][k] == reset;
    assert trace[i + 1 + k] == reset;
  }

  lemma {:induction false} ShownOnlyGrows(h: seq<Op>, more: seq<Op>)
    ensures Replay(h).ledger.lastShown <= Replay(h + more).ledger.lastShown
  {
    if more == [] {
      assert h + more == h;
    } else {
      var init, op := more[..|more| - 1], more[|more| - 1];
      ShownOnlyGrows(h, init);
      assert h + more == (h + init) + [op];
      ReplayAppends(h + init, op);
    }
  }

  /** The totals shown at Stop strictly increase. */
  lemma SavingsShownIncrease(trace: seq<Op>, i: nat, j: nat)
    requires i < j < |trace| && trace[i].ShowSavings? && trace[j].ShowSavings? && trace[i].key == trace[j].key
    requires NoEviction(trace, i, j, trace[i].key)
    requires AnswerAt(trace, i).changed && AnswerAt(trace, j).changed
    ensures AnswerAt(trace, i).saved < AnswerAt(trace, j).saved
  {
    var before, between := FromTo(trace, i, j, trace[i].key);
    ReplayAppends(before, trace[i]);
    ShownOnlyGrows(before + [trace[i]], between);
  }

  lemma {:induction false} TakenStaysGone(h: seq<Op>, more: seq<Op>, command: string)
    requires command !in Replay(h).pendingRewrites
    requires forall op :: op in more && op.NoteRewrite? ==> op.command != command
    ensures command !in Replay(h + more).pendingRewrites
  {
    if more == [] {
      assert h + more == h;
    } else {
      var init, op := more[..|more| - 1], more[|more| - 1];
      assert op in more;
      TakenStaysGone(h, init, command);
      assert h + more == (h + init) + [op];
      ReplayAppends(h + init, op);
    }
  }

  /** Each noted rewrite is measured at most once: two measurements of one
      command have a fresh note between them. */
  lemma RewriteMeasuredOnce(trace: seq<Op>, i: nat, j: nat)
    requires i < j < |trace| && trace[i].TakeRewrite? && trace[j] == trace[i]
    requires NoEviction(trace, i, j, trace[i].key)
    requires AnswerAt(trace, j).name != ""
    ensures exists k :: i < k < j && trace[k].NoteRewrite? && trace[k].key == trace[i].key && trace[k].command == trace[i].command
  {
    var key, command := trace[i].key, trace[i].command;
    var before, between := FromTo(trace, i, j, key);
    ReplayAppends(before, trace[i]);
    if forall op :: op in between && op.NoteRewrite? ==> op.command != command {
      TakenStaysGone(before + [trace[i]], between, command);
    }
    var note :| note in between && note.NoteRewrite? && note.command == command;
    OnKeyMembers(trace[i + 1..j], key, note);
    var k :| 0 <= k < j - i - 1 && trace[i + 1..j][k] == note;
    assert trace[i + 1 + k] == note;
  }

  lemma RemoveShrinks<T>(m: map<string, T>, k: string)
    ensures |Remove(m, k)| <= |m|
  {
    assert Remove(m, k).Keys == m.Keys - {k};
  }

  /** pendingAgents never holds more than 256 entries, under any interleaving. */
  lemma {:induction false} PendingAgentsBounded(trace: seq<Op>, key: string)
    ensures |At(Run(trace), key).pendingAgents| <= 256
  {
    if trace != [] {
      PendingAgentsBounded(trace[..|trace| - 1], key);
      var s, op := At(Run(trace[..|trace| - 1]), key), trace[|trace| - 1];
      if op.TakeAgent? { RemoveShrinks(s.pendingAgents, op.toolUse); }
    }
  }

  // ---- sessions and agents do not leak into each other ----

  /** endAgent removes exactly the agent's key, and nothing for the main thread. */
  lemma EndAgentIsExact(t: Table, session: string, agent: string, other: string, agent': string)
    requires NulFree(session) && NulFree(other)
    ensures var key := AgentKey(other, agent');
      var t' := After(t, EndAgent(session, agent));
      && (key in t' <==> key in t && !(agent != "" && other == session && agent' == agent))
      && (key in t' ==> t'[key] == t[key])
  {
    if AgentKey(other, agent') == AgentKey(session, agent) { AgentKeyInjective(other, agent', session, agent); }
  }

  /** endSession removes exactly the ended session's keys. */
  lemma EndSessionIsExact(t: Table, session: string, other: string, agent: string)
    requires NulFree(session) && NulFree(other)
    ensures var key := AgentKey(other, agent);
      var t' := After(t, EndSession(session));
      && (key in t' <==> key in t && other != session)
      && (key in t' ==> t'[key] == t[key])
  {
    KeyBelongs(other, agent, session);
  }

  /** A file is in the session's snapshot exactly when its main thread or one of
      its agents read it and that reader was not evicted since. */
  lemma SnapshotIsOwnReads(trace: seq<Op>, session: string, path: string)
    ensures (exists key :: key in Run(trace) && OwnedBy(key, session) && path in Run(trace)[key].readFiles) <==>
      exists key, mtime :: OwnedBy(key, session) && ReadLast(Since(trace, key), path, mtime)
  {
    if key :| key in Run(trace) && OwnedBy(key, session) && path in Run(trace)[key].readFiles {
      StateIsOwnHistory(trace, key);
      ReadsFromHistory(Since(trace, key), path, Run(trace)[key].readFiles[path]);
    }
    if key, mtime :| OwnedBy(key, session) && ReadLast(Since(trace, key), path, mtime) {
      StateIsOwnHistory(trace, key);
      ReadsFromHistory(Since(trace, key), path, mtime);
    }
  }
}
