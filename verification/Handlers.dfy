/** The state-driving part of the hook handlers, one call of the daemon's state
    at a time. What they say is expressed by the history of their keys, which
    other connections may extend between any two handlers. */
module Handlers {
  import opened Wrappers
  import opened Keys
  import opened Sessions
  import opened SessionLaws
  import BashKey
  import Text
  import DaemonState

  const RETRY_STREAK := 3
  const EXPLORE_STREAK := 12
  const COMPACT_BYTES := 307_200  // 300 KiB
  const OBSERVE_BYTES := 8_192
  const MCP_OVERSIZE_BYTES := 32_768

  datatype Advice = Quiet | RetryAdvice | RepeatAdvice

  /** A preprocessing rule that matched: its note only, or a rewritten command
      with the bytes it is estimated to save. `merges`: the rewritten command
      can be put back into the tool's input. */
  datatype Rule = Advisory(name: string) | Rewrite(name: string, command: string, saved: int, merges: bool)

  /** mode.preprocess, the rules switched off, and whether the session is muted. */
  datatype Gate = Gate(on: bool, disabled: set<string>, muted: bool)

  predicate Open(gate: Gate, rule: string) { rule !in gate.disabled && !gate.muted }

  function RetryKey(cmd: string): string {
    if BashKey.InScope(cmd) then Text.Join(BashKey.Parts(cmd), ' ') else ""
  }

  /** A tool that has run: its Bash command, "" when there is none, the size of
      its response, and for an Agent call its id and the model it ran on. */
  datatype Done = Done(tool: string, command: string, response: nat, toolUse: string, resolved: string)

  // ---- what the history says ----

  /** The command is the previous one again: no edit between, 30 s at most. */
  predicate Repeats(runs: seq<Op>, op: Op)
    requires op.NoteBash? && forall k :: 0 <= k < |runs| ==> runs[k].NoteBash?
  {
    runs != [] && op.command != "" && runs[|runs| - 1].command == op.command && op.now - runs[|runs| - 1].now <= REPEAT_WINDOW
  }

  /** At least the third run in a row of one target since the last edit. */
  ghost predicate Streak(runs: seq<Op>)
    requires forall k :: 0 <= k < |runs| ==> runs[k].NoteBash?
  {
    exists n: nat :: n >= RETRY_STREAK && IsTrailingRun(runs, n)
  }

  /** Not suggested under the key since its last eviction. */
  ghost predicate Unsuggested(trace: seq<Op>, key: string, tag: string) {
    forall i :: 0 <= i < |Since(trace, key)| ==> !(Since(trace, key)[i].MarkSuggested? && Since(trace, key)[i].tag == tag)
  }

  function RetryTag(op: Op): string
    requires op.NoteBash?
  {
    "bash-retry:" + op.retryKey
  }

  /** The retry advice is asked for: a streak, and not the very same command. */
  ghost predicate RetryAsked(trace: seq<Op>, op: Op, gate: Gate)
    requires op.NoteBash?
  {
    var runs := SinceEdit(Since(trace, op.key));
    Streak(runs + [op]) && !Repeats(runs, op) && Open(gate, "bash-retry")
  }

  /** The one line a Bash command gets. `polls`: it is meant to be run again. */
  ghost function AdviceDue(trace: seq<Op>, session: string, op: Op, gate: Gate, polls: bool): Advice
    requires op.NoteBash?
  {
    if Repeats(SinceEdit(Since(trace, op.key)), op) && !polls && Open(gate, "repeat-command") then RepeatAdvice
    else if RetryAsked(trace, op, gate) && Unsuggested(trace, session, RetryTag(op)) then RetryAdvice
    else Quiet
  }

  ghost function AdviceCalls(trace: seq<Op>, session: string, op: Op, gate: Gate, polls: bool): seq<Op>
    requires op.NoteBash?
  {
    [op]
    + (if RetryAsked(trace, op, gate) then [MarkSuggested(session, RetryTag(op))] else [])
    + (if AdviceDue(trace, session, op, gate, polls) != Quiet then [Log(session, None)] else [])
  }

  function RuleCalls(session: string, rule: Option<Rule>, gate: Gate): seq<Op> {
    match rule
    case None => []
    case Some(Advisory(_)) => if gate.muted then [] else [Log(session, None)]
    case Some(Rewrite(name, command, saved, merges)) =>
      if merges then [NoteRewrite(session, command, name), Log(session, Some(saved))] else []
  }

  predicate Dropped(rule: Option<Rule>) { rule.Some? && rule.value.Rewrite? && !rule.value.merges }

  predicate Explored(tool: string) { tool in {"Read", "Grep", "Glob"} }

  predicate Mcp(tool: string) { "mcp__" <= tool }

  function McpCalls(session: string, tool: string, response: nat, gate: Gate, advised: bool): seq<Op> {
    [Log(session, None)]
    + (if response > MCP_OVERSIZE_BYTES && Open(gate, "mcp-oversize") then [MarkSuggested(session, "mcp-size:" + tool)] else [])
    + (if advised then [Log(session, None)] else [])
  }

  function ToolCalls(session: string, tool: string, response: nat, command: string, gate: Gate,
                     measured: string, advised: bool): seq<Op> {
    if tool == "Bash" then
      (if command != "" then [TakeRewrite(session, command)] else []) + (if measured != "" then [Log(session, None)] else [])
    else if Mcp(tool) then McpCalls(session, tool, response, gate, advised)
    else if (Explored(tool) || tool in {"WebFetch", "WebSearch"}) && response > OBSERVE_BYTES then [Log(session, None)]
    else []
  }

  /** An Agent call that has finished: the recommendation noted for it is used up. */
  function ResolvedCalls(session: string, done: Done, routing: bool): seq<Op> {
    if done.tool == "Agent" && routing
    then [TakeAgent(session, done.toolUse)] + (if done.resolved != "" then [Log(session, None)] else [])
    else []
  }

  function CountCalls(key: string, tool: string, response: nat): seq<Op> {
    [if Explored(tool) then NoteExplore(key) else ResetExplore(key), NoteArrival(key, response)]
  }

  /** The bytes to advise compacting for: enough has arrived in the current
      cycle, and no check of the cycle has said so yet. */
  function CompactSize(trace: seq<Op>, key: string): Option<nat> {
    var cycle := Tail(Since(trace, key), Arriving);
    if ArrivedBytes(cycle) >= COMPACT_BYTES && !Fired(cycle) then Some(ArrivedBytes(cycle)) else None
  }

  /** The savings to show: more than any Stop has shown so far. */
  function NewSavings(trace: seq<Op>, key: string): Option<int> {
    var h := Since(trace, key);
    if SavedBytes(h) > LastShown(h) then Some(SavedBytes(h)) else None
  }

  // ---- answers from histories ----

  lemma TrailingRunUnique(runs: seq<Op>, n: nat, m: nat)
    requires forall k :: 0 <= k < |runs| ==> runs[k].NoteBash?
    requires IsTrailingRun(runs, n) && IsTrailingRun(runs, m)
    ensures n <= m
  {}

  lemma StreakLong(runs: seq<Op>)
    requires forall k :: 0 <= k < |runs| ==> runs[k].NoteBash?
    ensures Streak(runs) ==> |runs| >= RETRY_STREAK
  {}

  lemma StreakIs(runs: seq<Op>, count: nat)
    requires forall k :: 0 <= k < |runs| ==> runs[k].NoteBash?
    requires IsTrailingRun(runs, count)
    ensures count >= RETRY_STREAK <==> Streak(runs)
  {
    if Streak(runs) {
      var n: nat :| n >= RETRY_STREAK && IsTrailingRun(runs, n);
      TrailingRunUnique(runs, n, count);
    }
  }

  lemma RunAppends(trace: seq<Op>, op: Op)
    ensures Run(trace + [op]) == After(Run(trace), op)
    ensures (trace + [op])[..|trace|] == trace
  {
    var longer := trace + [op];
    assert longer[..|longer| - 1] == trace && longer[|longer| - 1] == op;
  }

  lemma RepeatIs(runs: seq<Op>, b: BashTrail, op: Op)
    requires op.NoteBash? && forall k :: 0 <= k < |runs| ==> runs[k].NoteBash?
    requires LastRunIs(runs, b)
    ensures IsRepeat(b, op.command, op.now) <==> Repeats(runs, op)
  {}

  lemma BashReply(trace: seq<Op>, op: Op, repeat: bool, count: nat)
    requires op.NoteBash? && Reply(At(Run(trace), op.key), op) == Retry(repeat, count)
    ensures repeat <==> Repeats(SinceEdit(Since(trace, op.key)), op)
    ensures count >= RETRY_STREAK <==> Streak(SinceEdit(Since(trace, op.key)) + [op])
  {
    var h := Since(trace, op.key);
    StateIsOwnHistory(trace, op.key);
    BashFromHistory(h);
    RepeatIs(SinceEdit(h), Replay(h).bash, op);
    BashStep(SinceEdit(h), Replay(h).bash, op);
    StreakIs(SinceEdit(h) + [op], count);
  }

  lemma SuggestReply(trace: seq<Op>, key: string, tag: string, first: bool)
    requires Reply(At(Run(trace), key), MarkSuggested(key, tag)) == Flag(first)
    ensures first <==> Unsuggested(trace, key, tag)
  {
    StateIsOwnHistory(trace, key);
    TagsFromHistory(Since(trace, key), tag);
  }

  /** A call that suggests nothing and evicts nothing. */
  predicate Neutral(op: Op) { !Ends(op) && !op.MarkSuggested? }

  lemma UnsuggestedNext(trace: seq<Op>, op: Op, key: string, tag: string)
    requires Neutral(op)
    ensures Unsuggested(trace + [op], key, tag) <==> Unsuggested(trace, key, tag)
  {
    RunAppends(trace, op);
    var h := Since(trace, key);
    assert Since(trace + [op], key) == h || Since(trace + [op], key) == h + [op];
    if Unsuggested(trace + [op], key, tag) {
      forall i | 0 <= i < |h| ensures !(h[i].MarkSuggested? && h[i].tag == tag) {
        assert Since(trace + [op], key)[i] == h[i];
      }
    }
  }

  /** Showing and logging leave the arrival cycle as it is. */
  lemma CycleNext(trace: seq<Op>, op: Op, key: string)
    requires op.ShowSavings? || op.Log?
    ensures CompactSize(trace + [op], key) == CompactSize(trace, key)
  {
    ArrivalsOf(trace, key);
    ArrivalsOf(trace + [op], key);
    RunAppends(trace, op);
  }

  lemma CycleAfterSavings(trace: seq<Op>, key: string)
    ensures CompactSize(trace + [ShowSavings(key)] + [], key) == CompactSize(trace, key)
    ensures CompactSize(trace + [ShowSavings(key)] + [Log(key, None)], key) == CompactSize(trace, key)
  {
    CycleNext(trace, ShowSavings(key), key);
    CycleNext(trace + [ShowSavings(key)], Log(key, None), key);
    assert trace + [ShowSavings(key)] + [] == trace + [ShowSavings(key)];
  }

  lemma ArrivalsOf(trace: seq<Op>, key: string)
    ensures var cycle := Tail(Since(trace, key), Arriving);
      At(Run(trace), key).arrivals == Arrivals(ArrivedBytes(cycle), Fired(cycle))
  {
    StateIsOwnHistory(trace, key);
    ArrivalsFromHistory(Since(trace, key));
    AdvisedFromHistory(Since(trace, key));
  }

  class Daemon {
    const state: DaemonState.State
    ghost var trace: seq<Op>

    constructor ()
      ensures Valid() && trace == [] && fresh(state)
    {
      state := new DaemonState.State();
      trace := [];
    }

    /** The table reads as the calls made so far have left it. */
    ghost predicate Valid()
      reads this, state
    {
      Same(state.sessions, Run(trace))
    }

    /** Records a call the state has just handled. */
    ghost method Did(before: Table, op: Op)
      requires Same(before, Run(trace)) && state.sessions == After(before, op)
      modifies this`trace
      ensures trace == old(trace) + [op] && Valid()
    {
      RunAppends(trace, op);
      AfterSame(before, Run(trace), op);
      trace := trace + [op];
    }

    method Record(session: string, saved: Option<int>)
      requires Valid()
      modifies this, state
      ensures Valid() && trace == old(trace) + [Log(session, saved)]
    {
      ghost var before := state.sessions;
      state.LogRecord(session, saved);
      Did(before, Log(session, saved));
    }

    method SuggestOnce(session: string, tag: string) returns (first: bool)
      requires Valid()
      modifies this, state
      ensures Valid() && trace == old(trace) + [MarkSuggested(session, tag)]
      ensures first <==> Unsuggested(old(trace), session, tag)
    {
      ghost var before := state.sessions;
      assert At(before, session) == At(Run(trace), session);
      first := state.MarkSuggestedIfFirst(session, tag);
      SuggestReply(trace, session, tag, first);
      Did(before, MarkSuggested(session, tag));
    }

    method NoteRun(key: string, command: string, now: int) returns (repeat: bool, streak: bool, ghost op: Op)
      requires Valid()
      modifies this, state
      ensures Valid() && op == NoteBash(key, command, RetryKey(command), now) && trace == old(trace) + [op]
      ensures repeat <==> Repeats(SinceEdit(Since(old(trace), key)), op)
      ensures streak <==> Streak(SinceEdit(Since(old(trace), key)) + [op])
    {
      var retryKey, _ := BashKey.NormalizeBashRetryKey(command);
      ghost var before := state.sessions;
      assert At(before, key) == At(Run(trace), key);
      var count;
      repeat, count := state.NoteBashCommand(key, command, retryKey, now);
      op := NoteBash(key, command, retryKey, now);
      BashReply(trace, op, repeat, count);
      streak := count >= RETRY_STREAK;
      Did(before, op);
    }

    method AdviseBash(session: string, key: string, command: string, now: int, gate: Gate, polls: bool) returns (advice: Advice)
      requires Valid()
      modifies this, state
      ensures Valid()
      ensures var op := NoteBash(key, command, RetryKey(command), now);
        && trace == old(trace) + AdviceCalls(old(trace), session, op, gate, polls)
        && advice == AdviceDue(old(trace), session, op, gate, polls)
    {
      advice := Quiet;
      var repeat, streak, op := NoteRun(key, command, now);
      UnsuggestedNext(old(trace), op, session, RetryTag(op));
      if streak && !repeat && Open(gate, "bash-retry") {
        var first := SuggestOnce(session, "bash-retry:" + RetryKey(command));
        if first {
          advice := RetryAdvice;
          Record(session, None);
        }
      }
      if repeat && !polls && Open(gate, "repeat-command") {
        advice := RepeatAdvice;
        Record(session, None);
      }
    }

    /** Before a Bash command runs. */
    method BashPreprocess(session: string, agent: string, command: string, now: int, gate: Gate, polls: bool, rule: Option<Rule>)
      returns (advice: Advice, rewritten: Option<string>)
      requires Valid()
      modifies this, state
      ensures Valid()
      ensures !gate.on || command == "" ==> trace == old(trace) && advice == Quiet && rewritten == None
      ensures gate.on && command != "" ==>
        var op := NoteBash(AgentKey(session, agent), command, RetryKey(command), now);
        && trace == old(trace) + AdviceCalls(old(trace), session, op, gate, polls) + RuleCalls(session, rule, gate)
        && advice == (if Dropped(rule) then Quiet else AdviceDue(old(trace), session, op, gate, polls))
        && rewritten == (if rule.Some? && rule.value.Rewrite? && rule.value.merges then Some(rule.value.command) else None)
    {
      advice, rewritten := Quiet, None;
      if !gate.on || command == "" {
        return;
      }
      advice := AdviseBash(session, AgentKey(session, agent), command, now, gate, polls);
      if rule.None? {
        return;
      }
      if rule.value.Advisory? {
        if !gate.muted {
          Record(session, None);
        }
        return;
      }
      if !rule.value.merges {
        advice := Quiet;
        return;
      }
      ghost var before := state.sessions;
      state.NotePendingRewrite(session, rule.value.command, rule.value.name);
      Did(before, NoteRewrite(session, rule.value.command, rule.value.name));
      Record(session, Some(rule.value.saved));
      rewritten := Some(rule.value.command);
    }

    method CountTool(key: string, tool: string, response: nat)
      requires Valid()
      modifies this, state
      ensures Valid()
      ensures trace == old(trace) + CountCalls(key, tool, response)
    {
      ghost var before := state.sessions;
      if Explored(tool) {
        state.NoteExploreTool(key);
        Did(before, NoteExplore(key));
      } else {
        state.ResetExploreStreak(key);
        Did(before, ResetExplore(key));
      }
      before := state.sessions;
      state.NoteArrivalBytes(key, response);
      Did(before, NoteArrival(key, response));
    }

    method Measure(session: string, command: string) returns (rule: string)
      requires Valid()
      modifies this, state
      ensures Valid() && trace == old(trace) + [TakeRewrite(session, command)]
      ensures rule == PendingRule(Since(old(trace), session), command)
    {
      ghost var before := state.sessions;
      assert At(before, session) == At(Run(trace), session);
      StateIsOwnHistory(trace, session);
      RewritesFromHistory(Since(trace, session), command);
      rule := state.ConsumePendingRewrite(session, command);
      Did(before, TakeRewrite(session, command));
    }

    method ObserveMcp(session: string, tool: string, response: nat, gate: Gate) returns (advised: bool)
      requires Valid()
      modifies this, state
      ensures Valid()
      ensures advised <==> response > MCP_OVERSIZE_BYTES && Open(gate, "mcp-oversize")
                           && Unsuggested(old(trace), session, "mcp-size:" + tool)
      ensures trace == old(trace) + McpCalls(session, tool, response, gate, advised)
    {
      advised := false;
      Record(session, None);
      UnsuggestedNext(old(trace), Log(session, None), session, "mcp-size:" + tool);
      if response > MCP_OVERSIZE_BYTES && Open(gate, "mcp-oversize") {
        advised := SuggestOnce(session, "mcp-size:" + tool);
        if advised {
          Record(session, None);
        }
      }
    }

    method RecordResolvedModel(session: string, done: Done)
      requires Valid()
      modifies this, state
      ensures Valid()
      ensures trace == old(trace) + [TakeAgent(session, done.toolUse)] + (if done.resolved != "" then [Log(session, None)] else [])
    {
      ghost var before := state.sessions;
      var recommended := state.ConsumePendingAgent(session, done.toolUse);
      Did(before, TakeAgent(session, done.toolUse));
      if done.resolved != "" {
        Record(session, None);
      }
    }

    /** The tool's own part: what a rewritten command really cost, and the
        sizes worth observing. */
    method ObserveTool(session: string, done: Done, gate: Gate) returns (measured: string, advised: bool)
      requires Valid()
      modifies this, state
      ensures Valid()
      ensures trace == old(trace) + ToolCalls(session, done.tool, done.response, done.command, gate, measured, advised)
      ensures measured == if done.tool == "Bash" && done.command != ""
                          then PendingRule(Since(old(trace), session), done.command) else ""
      ensures advised <==> Mcp(done.tool) && done.response > MCP_OVERSIZE_BYTES && Open(gate, "mcp-oversize")
                           && Unsuggested(old(trace), session, "mcp-size:" + done.tool)
    {
      measured, advised := "", false;
      if done.tool == "Bash" {
        if done.command != "" {
          measured := Measure(session, done.command);
          if measured != "" {
            Record(session, None);
          }
        }
      } else if Mcp(done.tool) {
        advised := ObserveMcp(session, done.tool, done.response, gate);
      } else if (Explored(done.tool) || done.tool in {"WebFetch", "WebSearch"}) && done.response > OBSERVE_BYTES {
        Record(session, None);
      }
    }

    method MeasureTool(session: string, key: string, done: Done, gate: Gate) returns (measured: string, advised: bool)
      requires Valid()
      modifies this, state
      ensures Valid()
      ensures trace == old(trace) + (CountCalls(key, done.tool, done.response)
                                     + ToolCalls(session, done.tool, done.response, done.command, gate, measured, advised))
      ensures measured == if done.tool == "Bash" && done.command != ""
                          then PendingRule(Since(old(trace), session), done.command) else ""
      ensures advised <==> Mcp(done.tool) && done.response > MCP_OVERSIZE_BYTES && Open(gate, "mcp-oversize")
                           && Unsuggested(old(trace), session, "mcp-size:" + done.tool)
    {
      CountTool(key, done.tool, done.response);
      CountedNeutral(old(trace), trace, session, done.command, done.tool);
      measured, advised := ObserveTool(session, done, gate);
    }

    /** After a tool has run. */
    method PostToolUse(session: string, agent: string, done: Done, gate: Gate, routing: bool)
      returns (measured: string, advised: bool)
      requires Valid()
      modifies this, state
      ensures Valid()
      ensures trace == old(trace) + ResolvedCalls(session, done, routing) +
        if gate.on then CountCalls(AgentKey(session, agent), done.tool, done.response)
                        + ToolCalls(session, done.tool, done.response, done.command, gate, measured, advised)
        else []
      ensures measured == if gate.on && done.tool == "Bash" && done.command != ""
                          then PendingRule(Since(old(trace), session), done.command) else ""
      ensures advised <==> gate.on && "mcp__" <= done.tool && done.response > 32_768 && Open(gate, "mcp-oversize")
                           && Unsuggested(old(trace), session, "mcp-size:" + done.tool)
    {
      measured, advised := "", false;
      assert !Mcp("Agent") by { assert "mcp__"[0] != "Agent"[0]; }
      if done.tool == "Agent" && routing {
        RecordResolvedModel(session, done);
      }
      assert trace == old(trace) + ResolvedCalls(session, done, routing);
      if gate.on {
        measured, advised := MeasureTool(session, AgentKey(session, agent), done, gate);
      }
    }

    method ShowSavingsLine(session: string) returns (savings: Option<int>)
      requires Valid()
      modifies this, state
      ensures Valid()
      ensures savings == NewSavings(old(trace), session)
      ensures trace == old(trace) + [ShowSavings(session)] + (if savings.Some? then [Log(session, None)] else [])
    {
      StateIsOwnHistory(trace, session);
      SavingsFromHistory(Since(trace, session));
      ShownFromHistory(Since(trace, session));
      ghost var before := state.sessions;
      assert At(before, session) == At(Run(trace), session);
      var bytesSaved, _, changed := state.NewSavingsToShow(session);
      Did(before, ShowSavings(session));
      if changed {
        Record(session, None);
      }
      savings := if changed then Some(bytesSaved) else None;
    }

    method CheckCompact(session: string) returns (compact: Option<nat>)
      requires Valid()
      modifies this, state
      ensures Valid()
      ensures compact == CompactSize(old(trace), session)
      ensures trace == old(trace) + [AdviseCompact(session, COMPACT_BYTES)] + (if compact.Some? then [Log(session, None)] else [])
    {
      ArrivalsOf(trace, session);
      ghost var before := state.sessions;
      assert At(before, session) == At(Run(trace), session);
      var arrived, fire := state.ShouldAdviseCompact(session, COMPACT_BYTES);
      Did(before, AdviseCompact(session, COMPACT_BYTES));
      if fire {
        Record(session, None);
      }
      compact := if fire then Some(arrived) else None;
    }

    /** At the end of a turn: the savings line and the compact-timing line. */
    method Stop(session: string, gate: Gate) returns (savings: Option<int>, compact: Option<nat>)
      requires Valid()
      modifies this, state
      ensures Valid()
      ensures savings == NewSavings(old(trace), session)
      ensures compact == if gate.on && Open(gate, "compact-timing") then CompactSize(old(trace), session) else None
      ensures trace == old(trace) + [ShowSavings(session)] + (if savings.Some? then [Log(session, None)] else [])
        + (if gate.on && Open(gate, "compact-timing") then [AdviseCompact(session, COMPACT_BYTES)] else [])
        + (if compact.Some? then [Log(session, None)] else [])
    {
      compact := None;
      savings := ShowSavingsLine(session);
      CycleAfterSavings(old(trace), session);
      if gate.on && Open(gate, "compact-timing") {
        compact := CheckCompact(session);
      }
    }

    /** Before an edit: it ends a retry loop and an orientation phase. */
    method EditStarts(session: string, agent: string)
      requires Valid()
      modifies this, state
      ensures Valid()
      ensures trace == old(trace) + [ClearBash(AgentKey(session, agent)), ResetExplore(AgentKey(session, agent))]
    {
      var key := AgentKey(session, agent);
      ghost var before := state.sessions;
      state.ClearLastBash(key);
      Did(before, ClearBash(key));
      before := state.sessions;
      state.ResetExploreStreak(key);
      Did(before, ResetExplore(key));
    }

    /** On a read or a search: whether to hand the survey to a subagent. */
    method DelegateExplore(session: string, agent: string, gate: Gate) returns (advised: bool)
      requires Valid()
      modifies this, state
      ensures Valid()
      ensures var due := gate.on && Open(gate, "delegate-explore") &&
          Explores(Tail(Since(old(trace), AgentKey(session, agent)), Exploring)) >= 12;
        && (advised <==> due && Unsuggested(old(trace), session, "delegate-explore"))
        && trace == old(trace) + (if due then [MarkSuggested(session, "delegate-explore")] else [])
                               + (if advised then [Log(session, None)] else [])
    {
      advised := false;
      if !gate.on || !Open(gate, "delegate-explore") {
        return;
      }
      var key := AgentKey(session, agent);
      ghost var before := state.sessions;
      assert At(before, key) == At(Run(trace), key);
      StateIsOwnHistory(trace, key);
      StreakFromHistory(Since(trace, key));
      var streak := state.ExploreStreakFor(key);
      CreatedSame(before, key);
      if streak < EXPLORE_STREAK {
        return;
      }
      advised := SuggestOnce(session, "delegate-explore");
      if advised {
        Record(session, None);
      }
    }
  }

  lemma PendingNext(trace: seq<Op>, op: Op, session: string, command: string)
    requires Neutral(op) && !op.NoteRewrite? && !op.TakeRewrite?
    ensures PendingRule(Since(trace + [op], session), command) == PendingRule(Since(trace, session), command)
  {
    RunAppends(trace, op);
    var h := Since(trace, session);
    assert Since(trace + [op], session) == h || Since(trace + [op], session) == h + [op];
    assert (h + [op])[..|h|] == h;
  }

  /** Counting a tool changes neither what is pending nor what was suggested. */
  lemma CountedNeutral(trace: seq<Op>, counted: seq<Op>, session: string, command: string, tool: string)
    requires |counted| == |trace| + 2 && trace <= counted
    requires forall i :: |trace| <= i < |counted| ==>
      Neutral(counted[i]) && !counted[i].NoteRewrite? && !counted[i].TakeRewrite?
    ensures PendingRule(Since(counted, session), command) == PendingRule(Since(trace, session), command)
    ensures Unsuggested(counted, session, "mcp-size:" + tool) <==> Unsuggested(trace, session, "mcp-size:" + tool)
  {
    var a, b := counted[|trace|], counted[|trace| + 1];
    assert counted == trace + [a] + [b];
    PendingNext(trace, a, session, command);
    PendingNext(trace + [a], b, session, command);
    UnsuggestedNext(trace, a, session, "mcp-size:" + tool);
    UnsuggestedNext(trace + [a], b, session, "mcp-size:" + tool);
  }

  // ---- over whole runs ----

  /** One handler's retry line in a trace of single calls: it notes its command
      at a, where the line is asked for, and suggests it at b, where the answer
      is that it is new. Any calls of other connections may lie between. */
  ghost predicate RetryLine(trace: seq<Op>, a: nat, b: nat, session: string, gate: Gate) {
    && a < b < |trace| && trace[a].NoteBash?
    && trace[b] == MarkSuggested(session, RetryTag(trace[a]))
    && RetryAsked(trace[..a], trace[a], gate)
    && AnswerAt(trace, b) == Flag(true)
  }

  /** What a handler whose calls nothing interrupts advises is such a line. */
  lemma AdviceIsRetryLine(trace: seq<Op>, session: string, op: Op, gate: Gate, polls: bool)
    requires op.NoteBash? && AdviceDue(trace, session, op, gate, polls) == RetryAdvice
    ensures RetryLine(trace + AdviceCalls(trace, session, op, gate, polls), |trace|, |trace| + 1, session, gate)
  {
    var calls := AdviceCalls(trace, session, op, gate, polls);
    var longer := trace + calls;
    assert longer[|trace|] == calls[0] == op && longer[|trace| + 1] == calls[1] == MarkSuggested(session, RetryTag(op));
    assert longer[..|trace|] == trace && longer[..|trace| + 1] == trace + [op];
    UnsuggestedNext(trace, op, session, RetryTag(op));
    StateIsOwnHistory(trace + [op], session);
    TagsFromHistory(Since(trace + [op], session), RetryTag(op));
  }

  /** Whatever other connections do, between two handlers or inside one, a
      target that got the retry line does not get it again in the session,
      under any agent's key. */
  lemma RetryAdvisedOnce(trace: seq<Op>, a: nat, b: nat, a': nat, b': nat, session: string, gate: Gate, gate': Gate)
    requires RetryLine(trace, a, b, session, gate)
    requires a' < b' < |trace| && trace[a'].NoteBash? && trace[a'].retryKey == trace[a].retryKey
    requires b < b' && NoEviction(trace, b, b', session)
    ensures !RetryLine(trace, a', b', session, gate')
  {
    if trace[b'] == MarkSuggested(session, RetryTag(trace[a'])) { SuggestedOnce(trace, b, b'); }
  }

  /** A command that no edit separates from its previous run gets at most one of
      the two lines, and an edit by the same agent silences both. */
  lemma EditSilences(trace: seq<Op>, session: string, op: Op, gate: Gate, polls: bool)
    requires op.NoteBash? && trace != [] && trace[|trace| - 1] == ClearBash(op.key)
    ensures AdviceDue(trace, session, op, gate, polls) == Quiet
  {
    assert SinceEdit(Since(trace, op.key)) == [];
    StreakLong([op]);
  }

  // ---- what the handlers say and do, in plain terms ----

  lemma {:induction false} TrailingRun(runs: seq<Op>) returns (n: nat)
    requires forall k :: 0 <= k < |runs| ==> runs[k].NoteBash?
    ensures IsTrailingRun(runs, n)
    decreases |runs|
  {
    if runs == [] || runs[|runs| - 1].retryKey == "" {
      n := 0;
    } else if |runs| == 1 || runs[|runs| - 2].retryKey != runs[|runs| - 1].retryKey {
      n := 1;
    } else {
      n := TrailingRun(runs[..|runs| - 1]);
      n := n + 1;
    }
  }

  lemma StreakMeans(runs: seq<Op>)
    requires forall k :: 0 <= k < |runs| ==> runs[k].NoteBash?
    ensures Streak(runs) <==>
      var n := |runs|;
      n >= 3 && runs[n - 1].retryKey != "" && runs[n - 1].retryKey == runs[n - 2].retryKey == runs[n - 3].retryKey
  {
    var n := TrailingRun(runs);
    StreakIs(runs, n);
  }

  /** The repeat line: the command before, since the last edit, was the very same
      and at most 30 seconds ago. The retry line: the last three commands since
      the last edit have one key, and it was not given for that key before in
      the session. */
  lemma AdviceMeans(trace: seq<Op>, session: string, op: Op, gate: Gate, polls: bool)
    requires op.NoteBash?
    ensures var runs := SinceEdit(Since(trace, op.key));
      var repeats := runs != [] && op.command != "" && runs[|runs| - 1].command == op.command
                     && op.now - runs[|runs| - 1].now <= 30_000_000_000;
      var streak := |runs| >= 2 && op.retryKey != "" && runs[|runs| - 1].retryKey == runs[|runs| - 2].retryKey == op.retryKey;
      && (AdviceDue(trace, session, op, gate, polls) == RepeatAdvice <==>
            repeats && !polls && "repeat-command" !in gate.disabled && !gate.muted)
      && (AdviceDue(trace, session, op, gate, polls) == RetryAdvice <==>
            streak && !repeats && "bash-retry" !in gate.disabled && !gate.muted
            && Unsuggested(trace, session, "bash-retry:" + op.retryKey))
  {
    var runs := SinceEdit(Since(trace, op.key));
    StreakMeans(runs + [op]);
  }

  /** A completed Read, Grep or Glob adds one to the agent's streak, any other
      tool ends it; and every response adds its bytes to the agent's cycle. */
  lemma CountsTool(trace: seq<Op>, key: string, tool: string, response: nat)
    ensures var before, after := Since(trace, key), Since(trace + CountCalls(key, tool, response), key);
      && Explores(Tail(after, Exploring)) ==
           (if tool in {"Read", "Grep", "Glob"} then Explores(Tail(before, Exploring)) + 1 else 0)
      && ArrivedBytes(Tail(after, Arriving)) == ArrivedBytes(Tail(before, Arriving)) + response
  {
    var first := if Explored(tool) then NoteExplore(key) else ResetExplore(key);
    var second := NoteArrival(key, response);
    assert trace + CountCalls(key, tool, response) == trace + [first] + [second];
    HistoryNext(trace, first, key);
    HistoryNext(trace + [first], second, key);
    ExploringNext(Since(trace, key), first);
    ArrivingNext(Since(trace, key), first);
    ExploringNext(Since(trace, key) + [first], second);
    ArrivingNext(Since(trace, key) + [first], second);
  }

  lemma ExploringNext(h: seq<Op>, op: Op)
    ensures Explores(Tail(h + [op], Exploring)) ==
      if op.ResetExplore? then 0 else Explores(Tail(h, Exploring)) + if op.NoteExplore? then 1 else 0
  {
    assert (h + [op])[..|h|] == h;
    CountsAppend(Tail(h, Exploring), op);
  }

  lemma ArrivingNext(h: seq<Op>, op: Op)
    ensures ArrivedBytes(Tail(h + [op], Arriving)) ==
      if op.ResetArrival? then 0 else ArrivedBytes(Tail(h, Arriving)) + if op.NoteArrival? then op.bytes else 0
  {
    assert (h + [op])[..|h|] == h;
    CountsAppend(Tail(h, Arriving), op);
  }

  /** A rewrite leaves its rule pending for the command it gave, and its
      estimate counts as saved. */
  lemma RewriteNoted(trace: seq<Op>, session: string, name: string, command: string, saved: int, gate: Gate)
    requires session != ""
    ensures var noted := Since(trace + RuleCalls(session, Some(Rewrite(name, command, saved, true)), gate), session);
      PendingRule(noted, command) == name && SavedBytes(noted) == SavedBytes(Since(trace, session)) + saved
  {
    var note, log := NoteRewrite(session, command, name), Log(session, Some(saved));
    var h := Since(trace, session);
    assert trace + [note, log] == trace + [note] + [log];
    HistoryNext(trace, note, session);
    HistoryNext(trace + [note], log, session);
    PendingStep(h, note, command);
    PendingStep(h + [note], log, command);
  }

  /** Once the command has been measured, no rule is pending for it. */
  lemma RewriteMeasured(trace: seq<Op>, session: string, command: string, response: nat, gate: Gate, measured: string)
    requires session != "" && command != ""
    ensures PendingRule(Since(trace + ToolCalls(session, "Bash", response, command, gate, measured, false), session), command) == ""
  {
    var take, log := TakeRewrite(session, command), Log(session, None);
    var h := Since(trace, session);
    HistoryNext(trace, take, session);
    PendingStep(h, take, command);
    HistoryNext(trace + [take], log, session);
    PendingStep(h + [take], log, command);
    assert trace + ([take] + [log]) == trace + [take] + [log];
    assert [take] + [] == [take];
  }

  lemma PendingStep(h: seq<Op>, op: Op, command: string)
    ensures PendingRule(h + [op], command) ==
      if op.NoteRewrite? && op.command == command then op.rule
      else if op.TakeRewrite? && op.command == command then "" else PendingRule(h, command)
    ensures SavedBytes(h + [op]) == SavedBytes(h) + if op.Log? && op.saved.Some? then op.saved.value else 0
    ensures LastShown(h + [op]) == if op.ShowSavings? && SavedBytes(h) > LastShown(h) then SavedBytes(h) else LastShown(h)
  {
    assert (h + [op])[..|h|] == h;
  }

  /** The savings are due when more has been saved than was ever shown, and not
      again right after they were shown. */
  lemma SavingsDue(trace: seq<Op>, key: string)
    ensures NewSavings(trace, key).Some? <==> SavedBytes(Since(trace, key)) > LastShown(Since(trace, key))
    ensures NewSavings(trace, key).Some? ==> NewSavings(trace, key).value == SavedBytes(Since(trace, key))
    ensures NewSavings(trace + [ShowSavings(key)], key) == None
  {
    HistoryNext(trace, ShowSavings(key), key);
    PendingStep(Since(trace, key), ShowSavings(key), "");
  }

  /** Compacting is due from 300 KiB on, unless a check of the cycle said so
      before; once checked then, the cycle stays silent. */
  lemma CompactIsDue(trace: seq<Op>, key: string)
    ensures var cycle, due := Tail(Since(trace, key), Arriving), CompactSize(trace, key);
      && (due.Some? <==> ArrivedBytes(cycle) >= 307_200 && !Fired(cycle))
      && (due.Some? ==> due.value == ArrivedBytes(cycle))
    ensures CompactSize(trace + [AdviseCompact(key, COMPACT_BYTES)], key) == None
  {
    var h, check := Since(trace, key), AdviseCompact(key, COMPACT_BYTES);
    HistoryNext(trace, check, key);
    ArrivingNext(h, check);
    FiredNext(h, check);
  }

  lemma FiredNext(h: seq<Op>, check: Op)
    requires check.AdviseCompact?
    ensures var cycle := Tail(h, Arriving);
      Fired(Tail(h + [check], Arriving)) <==> Fired(cycle) || ArrivedBytes(cycle) >= check.threshold
  {
    var cycle := Tail(h, Arriving);
    assert (h + [check])[..|h|] == h;
    assert Tail(h + [check], Arriving) == cycle + [check];
    assert (cycle + [check])[..|cycle|] == cycle;
  }

  /** An edit leaves no command to repeat and no streak, for its agent. */
  lemma EditResets(trace: seq<Op>, key: string)
    ensures var after := Since(trace + [ClearBash(key), ResetExplore(key)], key);
      SinceEdit(after) == [] && Explores(Tail(after, Exploring)) == 0
  {
    var clear, reset := ClearBash(key), ResetExplore(key);
    assert trace + [clear, reset] == trace + [clear] + [reset];
    HistoryNext(trace, clear, key);
    HistoryNext(trace + [clear], reset, key);
    var h := Since(trace, key);
    assert (h + [clear] + [reset])[..|h| + 1] == h + [clear];
    ExploringNext(h + [clear], reset);
  }
}
