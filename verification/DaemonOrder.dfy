/** The order of one process's steps, whatever the others do: the program text
    of the daemon's start-up and shutdown, both ways round. */
module DaemonOrder {
  import opened Wrappers
  import opened Daemon

  /** The process that takes the step; files age and strangers come and go on
      their own. */
  function Actor(s: Step): Option<ProcessId> {
    match s
    case Age(_) => None
    case Strangers(_) => None
    case _ => Some(s.p)
  }

  // ---- the guards, in plain terms ----

  /** A process, daemon or not, runs under the pid. */
  ghost predicate PidRuns(w: World, pid: int) {
    pid > 0 && (pid in w.strangers || exists p :: p in w.processes && !w.processes[p].phase.Gone? && w.processes[p].pid == pid)
  }

  /** The lockfile is there; its pid does not run and the socket does not
      answer, or it holds no pid and is ten seconds old. */
  ghost predicate LooksStale(w: World, answered: bool) {
    w.lockPath.Some? && w.lockPath.value in w.files &&
    var f := w.files[w.lockPath.value];
    if f.text.PidText? then !PidRuns(w, f.text.pid) && !answered else !f.young
  }

  ghost predicate NamesPid(w: World, p: ProcessId) {
    p in w.processes && w.lockPath.Some? && w.lockPath.value in w.files &&
    w.files[w.lockPath.value].text == PidText(w.processes[p].pid)
  }

  /** The step is the last thing its process does. */
  ghost predicate Exits(w: World, s: Step) {
    || s.Crash? || s.RemoveLock?
    || (s.Judge? && !LooksStale(w, s.answered))
    || (s.Reopen? && w.lockPath.Some?)
    || (s.ReadLock? && !NamesPid(w, s.p))
  }

  /** What a process does next, after a step it took in the world w. */
  ghost predicate Follows(w: World, s: Step, n: Step) {
    match n
    case Open(_) => s.Spawn?
    case Judge(_, _) => s.Open? && w.lockPath.Some?
    case RemoveStale(_) => s.Judge? && LooksStale(w, s.answered)
    case Reopen(_) => s.RemoveStale?
    case WritePid(_) => (s.Open? || s.Reopen?) && w.lockPath.None?
    case Probe(_, _) => s.WritePid?
    case ClearSocket(_) => s.Probe? && !s.answered
    case Listen(_) => s.ClearSocket?
    case UnlinkSocket(_) => s.Listen? && w.sockPath.None?
    case CloseSocket(_) => s.UnlinkSocket?
    case ReadLock(_) => s.CloseSocket? || (s.Probe? && s.answered) || (s.Listen? && w.sockPath.Some?)
    case RemoveLock(_) => s.ReadLock? && NamesPid(w, s.p)
    case Crash(_) => !Exits(w, s)
    case _ => false
  }

  /** A dial succeeds only on a socket somebody listens on. */
  ghost predicate AnswerPossible(w: World, n: Step) {
    (n.Judge? || n.Probe?) && n.answered ==> w.sockPath.Some? && Listening(w, w.sockPath.value)
  }

  // ---- one process ----

  /** Right after a step, its process can take exactly the steps that follow. */
  lemma NextSteps(w: World, s: Step, n: Step)
    requires Enabled(w, s) && Actor(s).Some? && Actor(n) == Actor(s) && !n.Spawn?
    ensures Enabled(Apply(w, s), n) <==> Follows(w, s, n) && AnswerPossible(Apply(w, s), n)
  {
    if n.Open? || n.Judge? || n.RemoveStale? || n.Reopen? || n.WritePid? {
      NextWhileAcquiring(w, s, n);
    } else if n.Probe? || n.ClearSocket? || n.Listen? || n.UnlinkSocket? || n.CloseSocket? {
      NextWhileServing(w, s, n);
    } else {
      NextWhileReleasing(w, s, n);
    }
  }

  lemma NextWhileAcquiring(w: World, s: Step, n: Step)
    requires Enabled(w, s) && Actor(s).Some? && Actor(n) == Actor(s)
    requires n.Open? || n.Judge? || n.RemoveStale? || n.Reopen? || n.WritePid?
    ensures Enabled(Apply(w, s), n) <==> Follows(w, s, n) && AnswerPossible(Apply(w, s), n)
  {
    StaleIs(w, s);
    assert Actor(s).value in Apply(w, s).processes;
  }

  lemma NextWhileServing(w: World, s: Step, n: Step)
    requires Enabled(w, s) && Actor(s).Some? && Actor(n) == Actor(s)
    requires n.Probe? || n.ClearSocket? || n.Listen? || n.UnlinkSocket? || n.CloseSocket?
    ensures Enabled(Apply(w, s), n) <==> Follows(w, s, n) && AnswerPossible(Apply(w, s), n)
  {
    assert Actor(s).value in Apply(w, s).processes;
  }

  lemma NextWhileReleasing(w: World, s: Step, n: Step)
    requires Enabled(w, s) && Actor(s).Some? && Actor(n) == Actor(s)
    requires n.ReadLock? || n.RemoveLock? || n.Crash?
    ensures Enabled(Apply(w, s), n) <==> Follows(w, s, n) && AnswerPossible(Apply(w, s), n)
  {
    StaleIs(w, s);
    assert Actor(s).value in Apply(w, s).processes;
  }

  lemma StaleIs(w: World, s: Step)
    ensures s.Judge? ==> (LockIsStale(w, s.answered) <==> LooksStale(w, s.answered))
  {
    if s.Judge? && w.lockPath.Some? && w.lockPath.value in w.files {
      var f := w.files[w.lockPath.value];
      if f.text.PidText? { PidRunsIs(w, f.text.pid); }
    }
  }

  lemma PidRunsIs(w: World, pid: int)
    ensures ProcessAlive(w, pid) <==> PidRuns(w, pid)
  {
    if p :| Live(w, p) && w.processes[p].pid == pid {
      assert p in w.processes && !w.processes[p].phase.Gone?;
    }
    if p :| p in w.processes && !w.processes[p].phase.Gone? && w.processes[p].pid == pid {
      assert Live(w, p);
    }
  }

  /** Nobody else moves a process on. */
  lemma OthersLeave(w: World, s: Step, p: ProcessId)
    requires Enabled(w, s) && Actor(s) != Some(p)
    ensures (p in w.processes <==> p in Apply(w, s).processes)
    ensures p in w.processes ==> w.processes[p] == Apply(w, s).processes[p]
  {}

  /** A step by the process, and the same step later with others' steps between:
      what enables it is the process's own standing, but for the probe's answer. */
  lemma SameStanding(w: World, w': World, n: Step, p: ProcessId)
    requires Actor(n) == Some(p) && !n.Spawn? && p in w.processes && p in w'.processes && w.processes[p] == w'.processes[p]
    requires Enabled(w', n) && !((n.Judge? || n.Probe?) && n.answered)
    ensures Enabled(w, n)
  {}

  // ---- over runs ----

  /** The step at i is the last one of its process before j. */
  ghost predicate LastBefore(steps: seq<Step>, i: int, j: int, p: ProcessId) {
    0 <= i < j <= |steps| && Actor(steps[i]) == Some(p) && forall k :: i < k < j ==> Actor(steps[k]) != Some(p)
  }

  lemma {:induction false} Between(ws: seq<World>, steps: seq<Step>, i: nat, j: nat, p: ProcessId)
    requires Run(ws, steps) && i <= j < |ws| && forall k :: i <= k < j ==> Actor(steps[k]) != Some(p)
    ensures (p in ws[i].processes <==> p in ws[j].processes)
    ensures p in ws[i].processes ==> ws[i].processes[p] == ws[j].processes[p]
    decreases j
  {
    if i < j {
      Between(ws, steps, i, j - 1, p);
      OthersLeave(ws[j - 1], steps[j - 1], p);
    }
  }

  lemma {:induction false} HasLast(ws: seq<World>, steps: seq<Step>, j: nat, p: ProcessId) returns (i: int)
    requires Run(ws, steps) && j < |ws| && p in ws[j].processes
    ensures LastBefore(steps, i, j, p)
    decreases j
  {
    if j == 0 || Actor(steps[j - 1]) == Some(p) {
      i := j - 1;
    } else {
      OthersLeave(ws[j - 1], steps[j - 1], p);
      i := HasLast(ws, steps, j - 1, p);
    }
  }

  function Quiet(n: Step): Step {
    match n
    case Judge(p, _) => Judge(p, false)
    case Probe(p, _) => Probe(p, false)
    case _ => n
  }

  /** Every step but the first of a process follows its last one, as the program
      is written, in whatever order all the processes run. */
  lemma ProgramOrder(ws: seq<World>, steps: seq<Step>, j: nat) returns (i: int)
    requires Run(ws, steps) && j < |steps| && Actor(steps[j]).Some? && !steps[j].Spawn?
    ensures LastBefore(steps, i, j, Actor(steps[j]).value)
    ensures Follows(ws[i], steps[i], steps[j])
  {
    var p := Actor(steps[j]).value;
    assert Enabled(ws[j], steps[j]) && p in ws[j].processes;
    i := HasLast(ws, steps, j, p);
    Between(ws, steps, i + 1, j, p);
    var n := Quiet(steps[j]);
    assert Enabled(ws[j], n);
    assert p in ws[i + 1].processes;
    SameStanding(ws[i + 1], ws[j], n, p);
    NextSteps(ws[i], steps[i], n);
  }

  /** And what follows can be done: it stays open to the process until it takes
      a step, whatever the others do in between. */
  lemma StaysOpen(ws: seq<World>, steps: seq<Step>, i: nat, j: nat, n: Step)
    requires Run(ws, steps) && i < j < |ws| && Actor(steps[i]).Some? && Actor(n) == Actor(steps[i]) && !n.Spawn?
    requires forall k :: i < k < j ==> Actor(steps[k]) != Actor(n)
    requires Follows(ws[i], steps[i], n) && AnswerPossible(ws[j], n)
    ensures Enabled(ws[j], n)
  {
    var p := Actor(n).value;
    NextSteps(ws[i], steps[i], Quiet(n));
    Between(ws, steps, i + 1, j, p);
    assert ws[i + 1] == Apply(ws[i], steps[i]) && Enabled(ws[i + 1], Quiet(n));
    assert p in ws[i + 1].processes;
  }

  // ---- the probe and the judgement ----

  /** A daemon whose probe is answered does not touch the socket afterwards: all
      it can still do is release its lock, or crash. */
  lemma {:induction false} AnsweredProbeStops(ws: seq<World>, steps: seq<Step>, i: nat, j: nat, p: ProcessId)
    requires Run(ws, steps) && i < j < |steps| && steps[i] == Probe(p, true) && Actor(steps[j]) == Some(p)
    ensures steps[j] == ReadLock(p) || steps[j] == RemoveLock(p) || steps[j] == Crash(p)
    decreases j
  {
    OnceSpawned(ws, steps, i, j, p);
    var k := ProgramOrder(ws, steps, j);
    if k > i { AnsweredProbeStops(ws, steps, i, k, p); }
  }

  lemma OnceSpawned(ws: seq<World>, steps: seq<Step>, i: nat, j: nat, p: ProcessId)
    requires Run(ws, steps) && i < j < |steps| && Actor(steps[i]) == Some(p) && Actor(steps[j]) == Some(p)
    ensures !steps[j].Spawn?
  {
    KnownStays(ws, steps, i, j, p);
    assert Enabled(ws[j], steps[j]);
  }

  lemma {:induction false} KnownStays(ws: seq<World>, steps: seq<Step>, i: nat, j: nat, p: ProcessId)
    requires Run(ws, steps) && i < j < |ws| && Actor(steps[i]) == Some(p)
    ensures p in ws[j].processes
    decreases j
  {
    assert Enabled(ws[j - 1], steps[j - 1]) && ws[j] == Apply(ws[j - 1], steps[j - 1]);
    if i + 1 < j {
      KnownStays(ws, steps, i, j - 1, p);
    }
  }

  /** The socket path is removed only by a daemon whose own last step was a
      probe that nobody answered. */
  lemma ClearNeedsSilence(ws: seq<World>, steps: seq<Step>, j: nat, p: ProcessId) returns (i: int)
    requires Run(ws, steps) && j < |steps| && steps[j] == ClearSocket(p)
    ensures LastBefore(steps, i, j, p) && steps[i] == Probe(p, false)
  {
    i := ProgramOrder(ws, steps, j);
  }

  lemma {:induction false} GoneStops(ws: seq<World>, steps: seq<Step>, i: nat, j: nat, p: ProcessId)
    requires Run(ws, steps) && i < j < |steps| && Actor(steps[i]) == Some(p) && Exits(ws[i], steps[i])
    ensures Actor(steps[j]) != Some(p)
    decreases j
  {
    if Actor(steps[j]) == Some(p) {
      OnceSpawned(ws, steps, i, j, p);
      var k := ProgramOrder(ws, steps, j);
      if k > i { GoneStops(ws, steps, i, k, p); }
    }
  }

  /** A daemon that finds the lock live takes no further step: the pid in the
      lockfile runs, or the socket answers, or there is no pid in it yet and it
      is younger than ten seconds, or the file is gone. */
  lemma LiveJudgementStops(ws: seq<World>, steps: seq<Step>, i: nat, j: nat, p: ProcessId, answered: bool)
    requires Run(ws, steps) && i < j < |steps| && steps[i] == Judge(p, answered)
    requires ws[i].lockPath.Some? && ws[i].lockPath.value in ws[i].files ==>
      var f := ws[i].files[ws[i].lockPath.value];
      if f.text.PidText? then PidRuns(ws[i], f.text.pid) || answered else f.young
    ensures Actor(steps[j]) != Some(p)
  {
    GoneStops(ws, steps, i, j, p);
  }

  /** A takeover removes the lock path only right after its own judgement that
      the lock is stale. */
  lemma TakeoverNeedsStale(ws: seq<World>, steps: seq<Step>, j: nat, p: ProcessId) returns (i: int)
    requires Run(ws, steps) && j < |steps| && steps[j] == RemoveStale(p)
    ensures LastBefore(steps, i, j, p) && steps[i].Judge? && LooksStale(ws[i], steps[i].answered)
  {
    i := ProgramOrder(ws, steps, j);
  }

  // ---- what a step does to the two paths and the files ----

  /** The lock path changes by a creation on a free path, which names a new empty
      file, and by the two removals; the socket path by a Listen on a free path
      and by the two removals; and a file by its owner's pid and by its age. */
  lemma StepEffects(w: World, s: Step)
    requires Enabled(w, s)
    ensures var w' := Apply(w, s);
      && w'.lockPath == (if (s.Open? || s.Reopen?) && w.lockPath.None? then Some(w.nextInode)
                         else if s.RemoveStale? || s.RemoveLock? then None else w.lockPath)
      && w'.sockPath == (if s.Listen? && w.sockPath.None? then Some(w.nextInode)
                         else if s.ClearSocket? || s.UnlinkSocket? then None else w.sockPath)
      && w'.files == (if (s.Open? || s.Reopen?) && w.lockPath.None? then w.files[w.nextInode := File(Unparseable, true)]
                      else if s.WritePid? then w.files[w.processes[s.p].phase.lock := File(PidText(w.processes[s.p].pid), true)]
                      else if s.Age? then w.files[s.i := File(w.files[s.i].text, false)] else w.files)
  {}

  /** As long as no takeover removes a live owner's lockfile, a release finds its
      own file and removes it. */
  lemma ReleaseRemovesOwn(ws: seq<World>, steps: seq<Step>, i: nat, p: ProcessId)
    requires Run(ws, steps) && i < |steps|
    requires forall k :: 0 <= k < |steps| ==> SparesOwners(ws[k], steps[k])
    ensures steps[i] == ReadLock(p) ==> Enabled(ws[i + 1], RemoveLock(p))
    ensures steps[i] == RemoveLock(p) ==> ws[i].lockPath.Some? && ws[i + 1].lockPath.None?
  {
    OneOwner(ws, steps, i);
    BaseHolds(ws, steps, i);
    assert Enabled(ws[i], steps[i]) && ws[i + 1] == Apply(ws[i], steps[i]);
    if steps[i] == ReadLock(p) {
      assert Owner(ws[i], p) && Sound(ws[i], p);
    }
    if steps[i] == RemoveLock(p) {
      assert Owner(ws[i], p);
    }
  }

  // ---- a daemon left alone ----

  function Life(p: ProcessId, pid: int): seq<Step> {
    [Spawn(p, pid), Open(p), WritePid(p), Probe(p, false), ClearSocket(p), Listen(p), UnlinkSocket(p), CloseSocket(p),
     ReadLock(p), RemoveLock(p)]
  }

  /** Where the process stands after each step of such a life. */
  function LifePhase(lock: Inode, i: nat): Phase {
    if i == 1 then Opening
    else if i == 2 then Writing(lock)
    else if i == 3 then Probing(lock)
    else if i == 4 then Clearing(lock)
    else if i == 5 then Binding(lock)
    else if i == 6 then Serving(lock, lock + 1)
    else if i == 7 then Closing(lock, lock + 1)
    else if i == 8 then Releasing(lock)
    else if i == 9 then Removing(lock, lock)
    else Gone
  }

  function LifeWorld(w: World, p: ProcessId, pid: int, i: nat): World {
    var lock := w.nextInode;
    if i == 0 then w
    else
      World(w.processes[p := Process(pid, LifePhase(lock, i))],
            if i == 1 then w.files
            else if i == 2 then w.files[lock := File(Unparseable, true)]
            else w.files[lock := File(PidText(pid), true)],
            if 2 <= i < 10 then Some(lock) else None,
            if i < 5 then w.sockPath else if i == 6 then Some(lock + 1) else None,
            if i == 1 then lock else if i < 6 then lock + 1 else lock + 2,
            w.strangers)
  }

  lemma LifeStep(w: World, p: ProcessId, pid: int, i: nat)
    requires Init(w) && w.lockPath.None? && pid > 0 && pid !in w.strangers && i < 10
    ensures Enabled(LifeWorld(w, p, pid, i), Life(p, pid)[i])
    ensures LifeWorld(w, p, pid, i + 1) == Apply(LifeWorld(w, p, pid, i), Life(p, pid)[i])
  {
    if i == 0 {
      assert !ProcessAlive(w, pid);
    } else if i < 5 {
      LifeBegins(w, p, pid, i);
    } else {
      LifeEnds(w, p, pid, i);
    }
  }

  lemma LifeBegins(w: World, p: ProcessId, pid: int, i: nat)
    requires Init(w) && w.lockPath.None? && pid > 0 && 1 <= i < 5
    ensures Enabled(LifeWorld(w, p, pid, i), Life(p, pid)[i])
    ensures LifeWorld(w, p, pid, i + 1) == Apply(LifeWorld(w, p, pid, i), Life(p, pid)[i])
  {
    var lock := w.nextInode;
    assert w.files[lock := File(Unparseable, true)][lock := File(PidText(pid), true)] == w.files[lock := File(PidText(pid), true)];
  }

  lemma LifeEnds(w: World, p: ProcessId, pid: int, i: nat)
    requires Init(w) && w.lockPath.None? && pid > 0 && 5 <= i < 10
    ensures Enabled(LifeWorld(w, p, pid, i), Life(p, pid)[i])
    ensures LifeWorld(w, p, pid, i + 1) == Apply(LifeWorld(w, p, pid, i), Life(p, pid)[i])
  {}

  /** From any left-over socket and files without a lock, a daemon that nobody
      disturbs starts, serves where clients find it, and leaves nothing behind. */
  lemma WholeLife(w: World, p: ProcessId, pid: int) returns (ws: seq<World>)
    requires Init(w) && w.lockPath.None? && pid > 0 && pid !in w.strangers
    ensures Run(ws, Life(p, pid)) && ws[0] == w
    ensures IsServing(ws[6], p) && ws[6].sockPath == Some(SockOf(ws[6], p)) && ws[6].lockPath == Some(LockOf(ws[6], p))
    ensures p in ws[10].processes && ws[10].processes[p].phase.Gone? && ws[10].lockPath.None? && ws[10].sockPath.None?
  {
    ws := seq(11, i requires i >= 0 => LifeWorld(w, p, pid, i));
    forall i | 0 <= i < 10 ensures Enabled(ws[i], Life(p, pid)[i]) && ws[i + 1] == Apply(ws[i], Life(p, pid)[i]) {
      LifeStep(w, p, pid, i);
    }
  }
}
