/** One key's state as a value, the operations on the whole table, and what the
    state of a key says about the trace of operations since its last eviction. */
module Sessions {
  import opened Wrappers
  import opened Keys

  datatype Routing = Routing(taskShape: string, model: string, effort: string, tier: int)

  datatype BashTrail = BashTrail(lastCommand: string, lastAt: int, lastRetryKey: string, retryCount: nat)

  datatype Ledger = Ledger(decisionCount: nat, bytesSaved: int, rewriteCount: nat, lastShown: int)

  datatype Arrivals = Arrivals(bytes: nat, advised: bool)

  /** sessionState, with the fields that change together grouped. */
  datatype Session = Session(
    suggested: set<string>,
    fetched: set<string>,
    ledger: Ledger,
    lastRouting: Option<Routing>,
    readFiles: map<string, int>,
    bash: BashTrail,
    pendingRewrites: map<string, string>,
    pendingAgents: map<string, string>,
    exploreStreak: nat,
    arrivals: Arrivals)

  const FRESH := Session({}, {}, Ledger(0, 0, 0, 0), None, map[], BashTrail("", 0, "", 0), map[], map[], 0, Arrivals(0, false))

  const REPEAT_WINDOW := 30_000_000_000  // nanoseconds
  const MAX_PENDING_AGENTS := 256

  type Table = map<string, Session>

  /** One call of a method of the daemon's state; each runs under one mutex. */
  datatype Op =
    | NoteBash(key: string, command: string, retryKey: string, now: int)
    | ClearBash(key: string)
    | NoteExplore(key: string)
    | ResetExplore(key: string)
    | NoteArrival(key: string, bytes: nat)
    | AdviseCompact(key: string, threshold: nat)
    | ResetArrival(key: string)
    | MarkRead(key: string, path: string, mtime: int)
    | MarkFetched(key: string, url: string)
    | MarkSuggested(key: string, tag: string)
    | Log(key: string, saved: Option<int>)   // Some: a rewrite record, bytes before less bytes after
    | ShowSavings(key: string)
    | NoteRewrite(key: string, command: string, rule: string)
    | TakeRewrite(key: string, command: string)
    | NoteAgent(key: string, toolUse: string, model: string)
    | TakeAgent(key: string, toolUse: string)
    | SetRouting(key: string, routing: Routing)
    | ClearRouting(key: string)
    | EndAgent(session: string, agent: string)
    | EndSession(session: string)

  datatype Answer =
    | Nothing
    | Flag(yes: bool)
    | Retry(repeat: bool, count: nat)
    | Arrived(bytes: nat, advise: bool)
    | Shown(saved: int, rewrites: nat, changed: bool)
    | Name(name: string)

  function At(t: Table, key: string): Session { if key in t then t[key] else FRESH }

  predicate IsRepeat(b: BashTrail, command: string, now: int) {
    b.lastCommand != "" && b.lastCommand == command && now - b.lastAt <= REPEAT_WINDOW
  }

  function NextRetryCount(b: BashTrail, retryKey: string): nat {
    if retryKey == "" then 0 else if retryKey == b.lastRetryKey then b.retryCount + 1 else 1
  }

  predicate CompactDue(a: Arrivals, threshold: nat) { !a.advised && a.bytes >= threshold }

  function Remove<T>(m: map<string, T>, k: string): map<string, T> { map x | x in m && x != k :: m[x] }

  function NextBash(b: BashTrail, op: Op): BashTrail {
    match op
    case NoteBash(_, command, retryKey, now) => BashTrail(command, now, retryKey, NextRetryCount(b, retryKey))
    case ClearBash(_) => b.(lastCommand := "", lastRetryKey := "", retryCount := 0)
    case _ => b
  }

  function NextLedger(l: Ledger, op: Op): Ledger {
    match op
    case Log(_, None) => l.(decisionCount := l.decisionCount + 1)
    case Log(_, Some(saved)) =>
      Ledger(l.decisionCount + 1, l.bytesSaved + saved, l.rewriteCount + 1, l.lastShown)
    case ShowSavings(_) => if l.bytesSaved <= l.lastShown then l else l.(lastShown := l.bytesSaved)
    case _ => l
  }

  function NextArrivals(a: Arrivals, op: Op): Arrivals {
    match op
    case NoteArrival(_, bytes) => a.(bytes := a.bytes + bytes)
    case AdviseCompact(_, threshold) => if CompactDue(a, threshold) then a.(advised := true) else a
    case ResetArrival(_) => Arrivals(0, false)
    case _ => a
  }

  function NextRewrites(m: map<string, string>, op: Op): map<string, string> {
    match op
    case NoteRewrite(_, command, rule) => m[command := rule]
    case TakeRewrite(_, command) => Remove(m, command)
    case _ => m
  }

  function NextAgents(m: map<string, string>, op: Op): map<string, string> {
    match op
    case NoteAgent(_, toolUse, model) => (if |m| >= MAX_PENDING_AGENTS then map[] else m)[toolUse := model]
    case TakeAgent(_, toolUse) => Remove(m, toolUse)
    case _ => m
  }

  /** One operation on one key's state, field group by field group. */
  function Update(s: Session, op: Op): Session {
    Session(
      if op.MarkSuggested? then s.suggested + {op.tag} else s.suggested,
      if op.MarkFetched? then s.fetched + {op.url} else s.fetched,
      NextLedger(s.ledger, op),
      if op.SetRouting? then Some(op.routing) else if op.ClearRouting? then None else s.lastRouting,
      if op.MarkRead? then s.readFiles[op.path := op.mtime] else s.readFiles,
      NextBash(s.bash, op),
      NextRewrites(s.pendingRewrites, op),
      NextAgents(s.pendingAgents, op),
      if op.NoteExplore? then s.exploreStreak + 1 else if op.ResetExplore? then 0 else s.exploreStreak,
      NextArrivals(s.arrivals, op))
  }

  /** What the operation returns, from the state it finds. */
  function Reply(s: Session, op: Op): Answer {
    match op
    case NoteBash(_, command, retryKey, now) => Retry(IsRepeat(s.bash, command, now), NextRetryCount(s.bash, retryKey))
    case AdviseCompact(_, threshold) =>
      if CompactDue(s.arrivals, threshold) then Arrived(s.arrivals.bytes, true) else Arrived(0, false)
    case MarkRead(_, path, mtime) => Flag(path in s.readFiles && s.readFiles[path] == mtime)
    case MarkFetched(_, url) => Flag(url in s.fetched)
    case MarkSuggested(_, tag) => Flag(tag !in s.suggested)
    case ShowSavings(_) => Shown(s.ledger.bytesSaved, s.ledger.rewriteCount, s.ledger.bytesSaved > s.ledger.lastShown)
    case TakeRewrite(_, command) => Name(if command in s.pendingRewrites then s.pendingRewrites[command] else "")
    case TakeAgent(_, toolUse) => Name(if toolUse in s.pendingAgents then s.pendingAgents[toolUse] else "")
    case _ => Nothing
  }

  predicate Ends(op: Op) { op.EndAgent? || op.EndSession? }

  /** Calls the methods return from before touching any state. */
  predicate Ignored(op: Op) {
    (op.Log? && op.key == "") || (op.NoteAgent? && op.toolUse == "") || (op.EndAgent? && op.agent == "")
  }

  /** The whole table after one operation. */
  function After(t: Table, op: Op): Table {
    if Ignored(op) then t
    else if op.EndAgent? then Remove(t, AgentKey(op.session, op.agent))
    else if op.EndSession? then map k | k in t && !OwnedBy(k, op.session) :: t[k]
    else t[op.key := Update(At(t, op.key), op)]
  }

  // ---- tables that read the same ----

  /** The two tables show the same state under every key. */
  ghost predicate Same(t: Table, u: Table) { forall k :: At(t, k) == At(u, k) }

  lemma AfterSame(t: Table, u: Table, op: Op)
    requires Same(t, u)
    ensures Same(After(t, op), After(u, op))
  {
    forall k ensures At(After(t, op), k) == At(After(u, op), k) {
      assert At(t, k) == At(u, k);
      if !Ends(op) && !Ignored(op) { assert At(t, op.key) == At(u, op.key); }
    }
  }

  lemma CreatedSame(t: Table, key: string)
    ensures Same(t[key := At(t, key)], t)
  {}

  // ---- traces ----

  function Run(trace: seq<Op>): Table {
    if trace == [] then map[] else After(Run(trace[..|trace| - 1]), trace[|trace| - 1])
  }

  predicate Evicts(op: Op, key: string) {
    (op.EndAgent? && op.agent != "" && AgentKey(op.session, op.agent) == key) ||
    (op.EndSession? && OwnedBy(key, op.session))
  }

  predicate Touches(op: Op, key: string) { !Ends(op) && !Ignored(op) && op.key == key }

  /** The operations on a key since its last eviction, in order. */
  function Since(trace: seq<Op>, key: string): seq<Op> {
    if trace == [] then []
    else
      var rest, op := Since(trace[..|trace| - 1], key), trace[|trace| - 1];
      if Evicts(op, key) then [] else if Touches(op, key) then rest + [op] else rest
  }

  function Replay(history: seq<Op>): Session {
    if history == [] then FRESH else Update(Replay(history[..|history| - 1]), history[|history| - 1])
  }

  /** Isolation: whatever other sessions and agents do in between, a key's state
      is the replay of its own operations since its last eviction. */
  lemma {:induction false} StateIsOwnHistory(trace: seq<Op>, key: string)
    ensures At(Run(trace), key) == Replay(Since(trace, key))
  {
    if trace != [] {
      StateIsOwnHistory(trace[..|trace| - 1], key);
      var rest, op := Since(trace[..|trace| - 1], key), trace[|trace| - 1];
      assert (rest + [op])[..|rest|] == rest;
    }
  }

  /** An operation under one key leaves every other key's state as it was. */
  lemma OthersUntouched(t: Table, op: Op, key: string)
    requires !Evicts(op, key) && !Touches(op, key)
    ensures At(After(t, op), key) == At(t, key)
  {}

  function AnswerAt(trace: seq<Op>, i: nat): Answer
    requires i < |trace| && !Ends(trace[i])
  {
    Reply(At(Run(trace[..i]), trace[i].key), trace[i])
  }

  ghost predicate NoEviction(trace: seq<Op>, i: nat, j: nat, key: string) {
    forall k :: i <= k < j && k < |trace| ==> !Evicts(trace[k], key)
  }

  function OnKey(ops: seq<Op>, key: string): seq<Op> {
    if ops == [] then []
    else OnKey(ops[..|ops| - 1], key) + (if Touches(ops[|ops| - 1], key) then [ops[|ops| - 1]] else [])
  }

  lemma {:induction false} HistoryGrows(trace: seq<Op>, i: nat, j: nat, key: string)
    requires i <= j <= |trace| && NoEviction(trace, i, j, key)
    ensures Since(trace[..j], key) == Since(trace[..i], key) + OnKey(trace[i..j], key)
    decreases j
  {
    if i < j {
      assert trace[..j][..j - 1] == trace[..j - 1];
      assert trace[i..j][..j - i - 1] == trace[i..j - 1];
      HistoryGrows(trace, i, j - 1, key);
    }
  }

  lemma {:induction false} OnKeyMembers(ops: seq<Op>, key: string, op: Op)
    ensures op in OnKey(ops, key) <==> op in ops && Touches(op, key)
  {
    if ops != [] {
      OnKeyMembers(ops[..|ops| - 1], key, op);
      assert ops == ops[..|ops| - 1] + [ops[|ops| - 1]];
    }
  }

  /** From the operation at i to the one at j without an eviction between: the
      history at j is the one at i, the operation at i, and what touched the key since. */
  lemma FromTo(trace: seq<Op>, i: nat, j: nat, key: string) returns (before: seq<Op>, between: seq<Op>)
    requires i < j < |trace| && Touches(trace[i], key) && NoEviction(trace, i, j, key)
    ensures before == Since(trace[..i], key) && between == OnKey(trace[i + 1..j], key)
    ensures Since(trace[..j], key) == before + [trace[i]] + between
    ensures At(Run(trace[..i]), key) == Replay(before)
    ensures At(Run(trace[..j]), key) == Replay(before + [trace[i]] + between)
  {
    before, between := Since(trace[..i], key), OnKey(trace[i + 1..j], key);
    HistoryGrows(trace, i, i + 1, key);
    assert trace[i..i + 1] == [trace[i]] && [trace[i]][..0] == [];
    assert OnKey([trace[i]], key) == [trace[i]];
    HistoryGrows(trace, i + 1, j, key);
    StateIsOwnHistory(trace[..i], key);
    StateIsOwnHistory(trace[..j], key);
  }
}
