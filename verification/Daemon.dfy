/** The start-up, serving and shutdown protocol of the daemon: any number of
    processes step independently over one lock path and one socket path, and
    any of them may crash between two steps. Files and sockets are inodes, so
    a late write or a late removal acts on what the path names at that moment. */
module Daemon {
  import opened Wrappers

  type ProcessId = nat  // one run of the binary, never reused; pids are reused
  type Inode = nat

  /** What strconv.Atoi makes of a lockfile's bytes. */
  datatype Text = Unparseable | PidText(pid: int)

  /** `young`: modified less than ten seconds ago. */
  datatype File = File(text: Text, young: bool)

  /** Where a process stands; each constructor names the call it makes next.
      `lock` is the inode the process itself created. */
  datatype Phase =
    | Opening                             // OpenFile(O_EXCL)
    | Contending                          // lockIsStale
    | TakingOver(judged: Inode)           // os.Remove of the lock path
    | Reopening                           // the second OpenFile(O_EXCL)
    | Writing(lock: Inode)                // WriteString of the pid
    | Probing(lock: Inode)                // probeAlive
    | Clearing(lock: Inode)               // os.Remove of the socket path
    | Binding(lock: Inode)                // net.Listen
    | Serving(lock: Inode, sock: Inode)   // deferred Close: unlink the path
    | Closing(lock: Inode, sock: Inode)   // deferred Close: close the descriptor
    | Releasing(lock: Inode)              // releaseLock: ReadFile
    | Removing(lock: Inode, seen: Inode)  // releaseLock: os.Remove
    | Gone

  datatype Process = Process(pid: int, phase: Phase)

  datatype World = World(
    processes: map<ProcessId, Process>,
    files: map<Inode, File>,
    lockPath: Option<Inode>,
    sockPath: Option<Inode>,
    nextInode: Inode,        // no inode from here on exists yet
    strangers: set<int>)     // pids of live processes that are not daemons

  /** Inode a process holds between a successful acquireLock (from the create
      on) and the end of its releaseLock. */
  function Held(ph: Phase): Option<Inode> {
    match ph
    case Writing(l) => Some(l)
    case Probing(l) => Some(l)
    case Clearing(l) => Some(l)
    case Binding(l) => Some(l)
    case Serving(l, _) => Some(l)
    case Closing(l, _) => Some(l)
    case Releasing(l) => Some(l)
    case Removing(l, _) => Some(l)
    case _ => None
  }

  predicate Live(w: World, p: ProcessId) {
    p in w.processes && !w.processes[p].phase.Gone?
  }

  predicate Owner(w: World, p: ProcessId) {
    p in w.processes && Held(w.processes[p].phase).Some?
  }

  function LockOf(w: World, p: ProcessId): Inode
    requires Owner(w, p)
  {
    Held(w.processes[p].phase).value
  }

  ghost predicate OwnedByLive(w: World, i: Inode) {
    exists p :: Owner(w, p) && LockOf(w, p) == i
  }

  ghost predicate ProcessAlive(w: World, pid: int) {
    pid > 0 && (pid in w.strangers || exists p :: Live(w, p) && w.processes[p].pid == pid)
  }

  ghost predicate Listening(w: World, s: Inode) {
    exists p :: Live(w, p) &&
      ((w.processes[p].phase.Serving? || w.processes[p].phase.Closing?) && w.processes[p].phase.sock == s)
  }

  /** A dial can time out on a busy listener, but never succeeds without one. */
  ghost predicate ProbeMayAnswer(w: World, answered: bool) {
    answered ==> w.sockPath.Some? && Listening(w, w.sockPath.value)
  }

  ghost predicate LockIsStale(w: World, answered: bool) {
    w.lockPath.Some? && w.lockPath.value in w.files &&
    var f := w.files[w.lockPath.value];
    match f.text
    case Unparseable => !f.young
    case PidText(pid) => !ProcessAlive(w, pid) && !answered
  }

  datatype Step =
    | Spawn(p: ProcessId, pid: int)
    | Open(p: ProcessId)                     // acquireLock, first create
    | Judge(p: ProcessId, answered: bool)
    | RemoveStale(p: ProcessId)
    | Reopen(p: ProcessId)
    | WritePid(p: ProcessId)
    | Probe(p: ProcessId, answered: bool)
    | ClearSocket(p: ProcessId)
    | Listen(p: ProcessId)
    | UnlinkSocket(p: ProcessId)
    | CloseSocket(p: ProcessId)
    | ReadLock(p: ProcessId)
    | RemoveLock(p: ProcessId)
    | Crash(p: ProcessId)
    | Age(i: Inode)                          // ten seconds pass for one file
    | Strangers(pids: set<int>)              // other programs start and exit

  ghost predicate Enabled(w: World, s: Step) {
    match s
    case Spawn(p, pid) => p !in w.processes && pid > 0 && !ProcessAlive(w, pid)
    case Open(p) => At(w, p) && w.processes[p].phase.Opening?
    case Judge(p, answered) => At(w, p) && w.processes[p].phase.Contending? && ProbeMayAnswer(w, answered)
    case RemoveStale(p) => At(w, p) && w.processes[p].phase.TakingOver?
    case Reopen(p) => At(w, p) && w.processes[p].phase.Reopening?
    case WritePid(p) => At(w, p) && w.processes[p].phase.Writing?
    case Probe(p, answered) => At(w, p) && w.processes[p].phase.Probing? && ProbeMayAnswer(w, answered)
    case ClearSocket(p) => At(w, p) && w.processes[p].phase.Clearing?
    case Listen(p) => At(w, p) && w.processes[p].phase.Binding?
    case UnlinkSocket(p) => At(w, p) && w.processes[p].phase.Serving?
    case CloseSocket(p) => At(w, p) && w.processes[p].phase.Closing?
    case ReadLock(p) => At(w, p) && w.processes[p].phase.Releasing?
    case RemoveLock(p) => At(w, p) && w.processes[p].phase.Removing?
    case Crash(p) => Live(w, p)
    // a live owner writes its pid within ten seconds of creating the file
    case Age(i) => i in w.files &&
      !exists p :: p in w.processes && w.processes[p].phase == Writing(i)
    case Strangers(pids) => forall p :: Live(w, p) ==> w.processes[p].pid !in pids
  }

  predicate At(w: World, p: ProcessId) { p in w.processes }

  function Goto(w: World, p: ProcessId, ph: Phase): World
    requires p in w.processes
  {
    w.(processes := w.processes[p := w.processes[p].(phase := ph)])
  }

  function CreateExclusive(w: World, p: ProcessId, otherwise: Phase): World
    requires p in w.processes
  {
    if w.lockPath.Some? then Goto(w, p, otherwise)
    else Goto(w, p, Writing(w.nextInode)).(
      lockPath := Some(w.nextInode),
      files := w.files[w.nextInode := File(Unparseable, true)],
      nextInode := w.nextInode + 1)
  }

  ghost function Apply(w: World, s: Step): World
    requires Enabled(w, s)
  {
    match s
    case Spawn(p, pid) => w.(processes := w.processes[p := Process(pid, Opening)])
    case Open(p) => CreateExclusive(w, p, Contending)
    case Judge(p, answered) =>
      Goto(w, p, if LockIsStale(w, answered) then TakingOver(w.lockPath.value) else Gone)
    case RemoveStale(p) => Goto(w, p, Reopening).(lockPath := None)
    case Reopen(p) => CreateExclusive(w, p, Gone)
    case WritePid(p) =>
      var lock := w.processes[p].phase.lock;
      Goto(w, p, Probing(lock)).(files := w.files[lock := File(PidText(w.processes[p].pid), true)])
    case Probe(p, answered) =>
      var lock := w.processes[p].phase.lock;
      Goto(w, p, if answered then Releasing(lock) else Clearing(lock))
    case ClearSocket(p) => Goto(w, p, Binding(w.processes[p].phase.lock)).(sockPath := None)
    case Listen(p) =>
      var lock := w.processes[p].phase.lock;
      if w.sockPath.Some? then Goto(w, p, Releasing(lock))
      else Goto(w, p, Serving(lock, w.nextInode)).(
        sockPath := Some(w.nextInode), nextInode := w.nextInode + 1)
    case UnlinkSocket(p) =>
      Goto(w, p, Closing(w.processes[p].phase.lock, w.processes[p].phase.sock)).(sockPath := None)
    case CloseSocket(p) => Goto(w, p, Releasing(w.processes[p].phase.lock))
    case ReadLock(p) =>
      var lock := w.processes[p].phase.lock;
      Goto(w, p,
        if w.lockPath.Some? && w.lockPath.value in w.files &&
           w.files[w.lockPath.value].text == PidText(w.processes[p].pid)
        then Removing(lock, w.lockPath.value) else Gone)
    case RemoveLock(p) => Goto(w, p, Gone).(lockPath := None)
    case Crash(p) => Goto(w, p, Gone)
    case Age(i) => w.(files := w.files[i := w.files[i].(young := false)])
    case Strangers(pids) => w.(strangers := pids)
  }

  /** Any left-over lockfile and socket, no daemon yet. */
  ghost predicate Init(w: World) {
    w.processes == map[] && (forall i :: i in w.files ==> i < w.nextInode)
    && (w.lockPath.Some? ==> w.lockPath.value in w.files)
    && (w.sockPath.Some? ==> w.sockPath.value < w.nextInode)
  }

  /** A run: every world is the previous one after one enabled step. */
  ghost predicate Run(ws: seq<World>, steps: seq<Step>) {
    |ws| == |steps| + 1 && Init(ws[0]) &&
    forall i :: 0 <= i < |steps| ==> Enabled(ws[i], steps[i]) && ws[i + 1] == Apply(ws[i], steps[i])
  }

  // ---- what holds in every run, takeover window included ----

  /** What is true of one process whatever the others do. */
  ghost predicate Sound(w: World, p: ProcessId)
    requires p in w.processes
  {
    var Process(pid, ph) := w.processes[p];
    && (!ph.Gone? ==> pid > 0 && pid !in w.strangers)
    && (Held(ph).Some? ==>
          && Held(ph).value in w.files
          && w.files[Held(ph).value].text == (if ph.Writing? then Unparseable else PidText(pid)))
    && (ph.Writing? ==> w.files[ph.lock].young)
    && (ph.TakingOver? ==> ph.judged in w.files)
    && (ph.Removing? ==> ph.seen in w.files)
  }

  /** Two live processes never share a pid or a lockfile; a file judged stale,
      and a file read back as one's own, belong to no other live owner. */
  ghost predicate Apart(w: World, p: ProcessId, q: ProcessId)
    requires p in w.processes && q in w.processes
  {
    var Process(pid, ph) := w.processes[p];
    var Process(pid', ph') := w.processes[q];
    && (!ph.Gone? && !ph'.Gone? ==> pid != pid')
    && (Held(ph).Some? ==> Held(ph) != Held(ph'))
    && (ph.TakingOver? ==> Held(ph') != Some(ph.judged))
    && (ph.Removing? ==> Held(ph') != Some(ph.seen))
  }

  ghost predicate Base(w: World) {
    && (forall i :: i in w.files ==> i < w.nextInode)
    && (w.lockPath.Some? ==> w.lockPath.value in w.files)
    && (forall p :: p in w.processes ==> Sound(w, p))
    && (forall p, q :: p in w.processes && q in w.processes && p != q ==> Apart(w, p, q))
  }

  /** One step keeps every fact of Base, whatever file a takeover removes. */
  lemma {:induction false} BaseKept(w: World, s: Step)
    requires Base(w) && Enabled(w, s)
    ensures Base(Apply(w, s))
  {
    var w' := Apply(w, s);
    forall p | p in w'.processes ensures Sound(w', p) {
      if p in w.processes { assert Sound(w, p); }
      SoundKept(w, s, p);
    }
    forall p, q | p in w'.processes && q in w'.processes && p != q ensures Apart(w', p, q) {
      ApartKept(w, s, p, q);
    }
  }

  lemma SoundKept(w: World, s: Step, p: ProcessId)
    requires Base(w) && Enabled(w, s) && p in Apply(w, s).processes
    ensures Sound(Apply(w, s), p)
  {
    if p in w.processes { assert Sound(w, p); }
    if s.WritePid? {
      SoundKeptByWrite(w, s.p, p);
    } else if s.Open? || s.Reopen? {
      SoundKeptByCreate(w, s, p);
    }
  }

  lemma SoundKeptByWrite(w: World, q: ProcessId, p: ProcessId)
    requires Base(w) && Enabled(w, WritePid(q)) && p in w.processes
    ensures Sound(Apply(w, WritePid(q)), p)
  {
    assert Sound(w, q) && Sound(w, p);
    if p != q { assert Apart(w, p, q) && Apart(w, q, p); }
  }

  lemma SoundKeptByCreate(w: World, s: Step, p: ProcessId)
    requires Base(w) && Enabled(w, s) && (s.Open? || s.Reopen?) && p in w.processes
    ensures Sound(Apply(w, s), p)
  {
    assert Sound(w, p);
  }

  lemma ApartKept(w: World, s: Step, p: ProcessId, q: ProcessId)
    requires Base(w) && Enabled(w, s) && p != q
    requires p in Apply(w, s).processes && q in Apply(w, s).processes
    ensures Apart(Apply(w, s), p, q)
  {
    if s.Spawn? || s.Open? || s.Reopen? {
      ApartKeptByCreate(w, s, p, q);
    } else if s.Judge? || s.ReadLock? {
      ApartKeptByReading(w, s, p, q);
    } else {
      assert Apart(w, p, q) && Apart(w, q, p);
    }
  }

  lemma ApartKeptByCreate(w: World, s: Step, p: ProcessId, q: ProcessId)
    requires Base(w) && Enabled(w, s) && (s.Spawn? || s.Open? || s.Reopen?) && p != q
    requires p in Apply(w, s).processes && q in Apply(w, s).processes
    ensures Apart(Apply(w, s), p, q)
  {
    if p in w.processes { assert Sound(w, p); }
    if q in w.processes { assert Sound(w, q); }
    if p in w.processes && q in w.processes { assert Apart(w, p, q) && Apart(w, q, p); }
  }

  lemma ApartKeptByReading(w: World, s: Step, p: ProcessId, q: ProcessId)
    requires Base(w) && Enabled(w, s) && (s.Judge? || s.ReadLock?) && p != q
    requires p in Apply(w, s).processes && q in Apply(w, s).processes
    ensures Apart(Apply(w, s), p, q)
  {
    assert Sound(w, p) && Sound(w, q) && Apart(w, p, q) && Apart(w, q, p);
  }

  lemma {:induction false} BaseHolds(ws: seq<World>, steps: seq<Step>, i: nat)
    requires Run(ws, steps) && i < |ws|
    ensures Base(ws[i])
  {
    if i > 0 {
      BaseHolds(ws, steps, i - 1);
      BaseKept(ws[i - 1], steps[i - 1]);
    }
  }

  // ---- mutual exclusion, and exactly when it holds ----

  /** Every live owner's own file is the one the lock path names. */
  ghost predicate OwnersNamed(w: World) {
    forall p :: Owner(w, p) ==> w.lockPath == Some(LockOf(w, p))
  }

  /** A takeover does not remove a live owner's lockfile. */
  ghost predicate SparesOwners(w: World, s: Step)
    requires Enabled(w, s)
  {
    s.RemoveStale? && w.lockPath.Some? ==> !OwnedByLive(w, w.lockPath.value)
  }

  /** A takeover removes the file it judged stale, or finds none: the negation
      of the two-winner window. */
  ghost predicate RemovesJudged(w: World, s: Step)
    requires Enabled(w, s)
  {
    s.RemoveStale? && w.lockPath.Some? ==> w.lockPath.value == w.processes[s.p].phase.judged
  }

  lemma JudgedSparesOwners(w: World, s: Step)
    requires Base(w) && Enabled(w, s) && RemovesJudged(w, s)
    ensures SparesOwners(w, s)
  {
    if s.RemoveStale? {
      forall q | Owner(w, q) && q != s.p ensures Apart(w, s.p, q) {}
    }
  }

  lemma {:induction false} JudgedRunSpares(ws: seq<World>, steps: seq<Step>)
    requires Run(ws, steps) && forall k :: 0 <= k < |steps| ==> RemovesJudged(ws[k], steps[k])
    ensures forall k :: 0 <= k < |steps| ==> SparesOwners(ws[k], steps[k])
  {
    forall k | 0 <= k < |steps| ensures SparesOwners(ws[k], steps[k]) {
      BaseHolds(ws, steps, k);
      JudgedSparesOwners(ws[k], steps[k]);
    }
  }

  lemma OwnersApart(w: World)
    requires Base(w)
    ensures forall p, q :: Owner(w, p) && Owner(w, q) && p != q ==> LockOf(w, p) != LockOf(w, q)
  {
    forall p, q | Owner(w, p) && Owner(w, q) && p != q ensures LockOf(w, p) != LockOf(w, q) {
      assert Apart(w, p, q);
    }
  }

  lemma NamedKeptIffSpared(w: World, s: Step)
    requires Base(w) && Enabled(w, s) && OwnersNamed(w)
    ensures OwnersNamed(Apply(w, s)) <==> SparesOwners(w, s)
  {
    OwnersApart(w);
    assert forall p, q :: Owner(w, p) && Owner(w, q) ==> p == q;
    assert s.RemoveLock? ==> Owner(w, s.p);
    var w' := Apply(w, s);
    if s.RemoveStale? && w.lockPath.Some? {
      forall q ensures Owner(w', q) == Owner(w, q) {}
    } else {
      forall q | Owner(w', q) ensures w'.lockPath == Some(LockOf(w', q)) {
        if Owner(w, q) {
          assert LockOf(w', q) == LockOf(w, q);
        }
      }
    }
  }

  /** Over whole runs: the lock path names each live owner's own file in every
      world of the run exactly when no takeover removes a live owner's file. */
  lemma {:induction false} ExclusiveIffTakeoversSpare(ws: seq<World>, steps: seq<Step>)
    requires Run(ws, steps)
    ensures (forall i :: 0 <= i < |ws| ==> OwnersNamed(ws[i])) <==>
            (forall i :: 0 <= i < |steps| ==> SparesOwners(ws[i], steps[i]))
  {
    if forall i :: 0 <= i < |steps| ==> SparesOwners(ws[i], steps[i]) {
      forall i | 0 <= i < |ws| ensures OwnersNamed(ws[i]) { NamedSoFar(ws, steps, i); }
    }
    if forall i :: 0 <= i < |ws| ==> OwnersNamed(ws[i]) {
      forall i | 0 <= i < |steps| ensures SparesOwners(ws[i], steps[i]) {
        BaseHolds(ws, steps, i);
        assert OwnersNamed(ws[i]) && OwnersNamed(ws[i + 1]);
        NamedKeptIffSpared(ws[i], steps[i]);
      }
    }
  }

  lemma {:induction false} NamedSoFar(ws: seq<World>, steps: seq<Step>, i: nat)
    requires Run(ws, steps) && i < |ws|
    requires forall k :: 0 <= k < i ==> SparesOwners(ws[k], steps[k])
    ensures OwnersNamed(ws[i])
  {
    if i > 0 {
      NamedSoFar(ws, steps, i - 1);
      BaseHolds(ws, steps, i - 1);
      NamedKeptIffSpared(ws[i - 1], steps[i - 1]);
    }
  }

  ghost predicate OneAtMost(w: World) { forall p, q :: Owner(w, p) && Owner(w, q) ==> p == q }

  /** A lockfile is not created beside a live owner. */
  ghost predicate CreatesAlone(w: World, s: Step) {
    (s.Open? || s.Reopen?) && w.lockPath.None? ==> forall p :: !Owner(w, p)
  }

  lemma OneKeptIff(w: World, s: Step)
    requires OneAtMost(w) && Enabled(w, s)
    ensures OneAtMost(Apply(w, s)) <==> CreatesAlone(w, s)
  {
    var w' := Apply(w, s);
    if (s.Open? || s.Reopen?) && w.lockPath.None? {
      assert Owner(w', s.p) && !Owner(w, s.p);
      forall p | p != s.p ensures Owner(w', p) <==> Owner(w, p) {}
    } else {
      forall p | Owner(w', p) ensures Owner(w, p) {}
    }
  }

  lemma {:induction false} OneSoFar(ws: seq<World>, steps: seq<Step>, i: nat)
    requires Run(ws, steps) && i < |ws|
    requires forall k :: 0 <= k < i ==> CreatesAlone(ws[k], steps[k])
    ensures OneAtMost(ws[i])
  {
    if i > 0 {
      OneSoFar(ws, steps, i - 1);
      OneKeptIff(ws[i - 1], steps[i - 1]);
    }
  }

  /** Over whole runs: there is never more than one owner exactly when no lockfile
      is created while a live process owns one. */
  lemma {:induction false} OneOwnerIffCreatedAlone(ws: seq<World>, steps: seq<Step>)
    requires Run(ws, steps)
    ensures (forall i :: 0 <= i < |ws| ==> OneAtMost(ws[i])) <==>
            (forall i :: 0 <= i < |steps| ==> CreatesAlone(ws[i], steps[i]))
  {
    if forall i :: 0 <= i < |steps| ==> CreatesAlone(ws[i], steps[i]) {
      forall i | 0 <= i < |ws| ensures OneAtMost(ws[i]) { OneSoFar(ws, steps, i); }
    }
    if forall i :: 0 <= i < |ws| ==> OneAtMost(ws[i]) {
      forall i | 0 <= i < |steps| ensures CreatesAlone(ws[i], steps[i]) {
        assert OneAtMost(ws[i]) && OneAtMost(ws[i + 1]);
        OneKeptIff(ws[i], steps[i]);
      }
    }
  }

  /** The promise of acquireLock and releaseLock, under the code's own proviso. */
  lemma SingleOwner(ws: seq<World>, steps: seq<Step>, i: nat)
    requires Run(ws, steps) && i < |ws|
    requires forall k :: 0 <= k < |steps| ==> RemovesJudged(ws[k], steps[k])
    ensures OwnersNamed(ws[i])
    ensures forall p, q :: Owner(ws[i], p) && Owner(ws[i], q) ==> p == q
    ensures i < |steps| && steps[i].RemoveLock? ==> ws[i].lockPath == Some(LockOf(ws[i], steps[i].p))
  {
    JudgedRunSpares(ws, steps);
    OneOwner(ws, steps, i);
  }

  lemma OneOwner(ws: seq<World>, steps: seq<Step>, i: nat)
    requires Run(ws, steps) && i < |ws|
    requires forall k :: 0 <= k < |steps| ==> SparesOwners(ws[k], steps[k])
    ensures OwnersNamed(ws[i])
    ensures forall p, q :: Owner(ws[i], p) && Owner(ws[i], q) ==> p == q
  {
    BaseHolds(ws, steps, i);
    OwnersApart(ws[i]);
    NamedSoFar(ws, steps, i);
  }

  /** Even in the window: a releaseLock whose removal hits the file it read
      never takes the lockfile of another live owner. */
  lemma ReleaseSparesOthers(ws: seq<World>, steps: seq<Step>, i: nat)
    requires Run(ws, steps) && i < |steps| && steps[i].RemoveLock?
    requires ws[i].lockPath == Some(ws[i].processes[steps[i].p].phase.seen)
    ensures forall q :: Owner(ws[i], q) && ws[i].lockPath == Some(LockOf(ws[i], q)) ==> q == steps[i].p
  {
    BaseHolds(ws, steps, i);
    forall q | Owner(ws[i], q) && q != steps[i].p ensures ws[i].lockPath != Some(LockOf(ws[i], q)) {
      assert Apart(ws[i], steps[i].p, q);
    }
  }

  // ---- the socket ----

  /** The socket path as one process past its own removal of it must find it. */
  ghost predicate SocketOf(w: World, p: ProcessId)
    requires p in w.processes
  {
    match w.processes[p].phase
    case Binding(_) => w.sockPath.None?
    case Serving(_, sock) => w.sockPath == Some(sock)
    case Closing(_, _) => w.sockPath.None?
    case _ => true
  }

  lemma SocketKept(w: World, s: Step, p: ProcessId)
    requires Enabled(w, s) && p in Apply(w, s).processes
    requires forall o, q :: Owner(w, o) && Owner(w, q) ==> o == q
    requires p in w.processes ==> SocketOf(w, p)
    ensures SocketOf(Apply(w, s), p)
  {
    if s.ClearSocket? || s.Listen? || s.UnlinkSocket? {
      assert Owner(w, s.p);
      if p != s.p && Owner(w, p) { assert false; }
    }
  }

  lemma {:induction false} SocketHeld(ws: seq<World>, steps: seq<Step>, i: nat)
    requires Run(ws, steps) && i < |ws|
    requires forall k :: 0 <= k < |steps| ==> SparesOwners(ws[k], steps[k])
    ensures forall p :: p in ws[i].processes ==> SocketOf(ws[i], p)
  {
    if i > 0 {
      SocketHeld(ws, steps, i - 1);
      OneOwner(ws, steps, i - 1);
      forall p | p in ws[i].processes ensures SocketOf(ws[i], p) {
        SocketKept(ws[i - 1], steps[i - 1], p);
      }
    }
  }

  /** As long as no takeover removes a live owner's lockfile: once Listen has
      succeeded, the socket path resolves to that daemon's listener until it
      closes it or crashes; and Listen, reached under the lock, always finds
      the path free. */
  lemma SocketReachable(ws: seq<World>, steps: seq<Step>, i: nat, p: ProcessId)
    requires Run(ws, steps) && i < |ws| && p in ws[i].processes
    requires forall k :: 0 <= k < |steps| ==> SparesOwners(ws[k], steps[k])
    ensures ws[i].processes[p].phase.Serving? ==>
      ws[i].sockPath == Some(ws[i].processes[p].phase.sock) && Listening(ws[i], ws[i].sockPath.value)
    ensures i < |steps| && steps[i] == Listen(p) ==> ws[i + 1].processes[p].phase.Serving?
    ensures i < |steps| && ws[i].processes[p].phase.Serving? && ws[i + 1].processes[p].phase != ws[i].processes[p].phase
      ==> steps[i] == UnlinkSocket(p) || steps[i] == Crash(p)
  {
    SocketHeld(ws, steps, i);
    assert SocketOf(ws[i], p);
  }

  // ---- reachability, and exactly when it holds ----

  predicate IsServing(w: World, p: ProcessId) { p in w.processes && w.processes[p].phase.Serving? }

  function SockOf(w: World, p: ProcessId): Inode
    requires IsServing(w, p)
  {
    w.processes[p].phase.sock
  }

  /** The socket path resolves to every serving daemon's own listener. */
  ghost predicate AllReachable(w: World) {
    forall p :: IsServing(w, p) ==> w.sockPath == Some(SockOf(w, p))
  }

  /** No start-up removes the socket path while a daemon is serving. */
  ghost predicate SparesSocket(w: World, s: Step) {
    s.ClearSocket? ==> forall p :: !IsServing(w, p)
  }

  /** Serving daemons have sockets of their own. */
  ghost predicate SocketsApart(w: World) {
    && (forall p :: IsServing(w, p) ==> SockOf(w, p) < w.nextInode)
    && (forall p, q :: IsServing(w, p) && IsServing(w, q) && p != q ==> SockOf(w, p) != SockOf(w, q))
  }

  lemma SocketsApartKept(w: World, s: Step)
    requires SocketsApart(w) && Enabled(w, s)
    ensures SocketsApart(Apply(w, s))
  {
    var w' := Apply(w, s);
    forall p | IsServing(w', p)
      ensures (IsServing(w, p) && SockOf(w', p) == SockOf(w, p)) || (s == Listen(p) && SockOf(w', p) == w.nextInode) {}
  }

  lemma {:induction false} SocketsApartHolds(ws: seq<World>, steps: seq<Step>, i: nat)
    requires Run(ws, steps) && i < |ws|
    ensures SocketsApart(ws[i])
  {
    if i > 0 {
      SocketsApartHolds(ws, steps, i - 1);
      SocketsApartKept(ws[i - 1], steps[i - 1]);
    }
  }

  lemma OneServes(w: World)
    requires SocketsApart(w) && AllReachable(w)
    ensures forall p, q :: IsServing(w, p) && IsServing(w, q) ==> p == q
  {}

  lemma ReachableKeptIffSpared(w: World, s: Step)
    requires SocketsApart(w) && AllReachable(w) && Enabled(w, s)
    ensures AllReachable(Apply(w, s)) <==> SparesSocket(w, s)
  {
    var w' := Apply(w, s);
    if s.ClearSocket? {
      forall p ensures IsServing(w', p) <==> IsServing(w, p) {}
    } else {
      OneServes(w);
      assert s.UnlinkSocket? ==> IsServing(w, s.p);
      forall p | IsServing(w', p) ensures w'.sockPath == Some(SockOf(w', p)) {
        if IsServing(w, p) { assert w.sockPath == Some(SockOf(w, p)); }
      }
    }
  }

  lemma {:induction false} ReachableSoFar(ws: seq<World>, steps: seq<Step>, i: nat)
    requires Run(ws, steps) && i < |ws|
    requires forall k :: 0 <= k < i ==> SparesSocket(ws[k], steps[k])
    ensures AllReachable(ws[i])
  {
    if i > 0 {
      ReachableSoFar(ws, steps, i - 1);
      SocketsApartHolds(ws, steps, i - 1);
      ReachableKeptIffSpared(ws[i - 1], steps[i - 1]);
    }
  }

  /** Over whole runs, takeovers of any kind included: every serving daemon can
      be reached in every world exactly when no start-up removes the socket
      path while a daemon is serving. */
  lemma {:induction false} ReachableIffSocketSpared(ws: seq<World>, steps: seq<Step>)
    requires Run(ws, steps)
    ensures (forall i :: 0 <= i < |ws| ==> AllReachable(ws[i])) <==>
            (forall i :: 0 <= i < |steps| ==> SparesSocket(ws[i], steps[i]))
  {
    if forall i :: 0 <= i < |steps| ==> SparesSocket(ws[i], steps[i]) {
      forall i | 0 <= i < |ws| ensures AllReachable(ws[i]) { ReachableSoFar(ws, steps, i); }
    }
    if forall i :: 0 <= i < |ws| ==> AllReachable(ws[i]) {
      forall i | 0 <= i < |steps| ensures SparesSocket(ws[i], steps[i]) {
        SocketsApartHolds(ws, steps, i);
        assert AllReachable(ws[i]) && AllReachable(ws[i + 1]);
        ReachableKeptIffSpared(ws[i], steps[i]);
      }
    }
  }

  // ---- the window is real ----

  function Staged(a: Phase, b: Phase, lockPath: Option<Inode>, files: map<Inode, File>, next: Inode): World {
    World(map[0 := Process(7, a), 1 := Process(8, b)], files, lockPath, None, next, {})
  }

  const LEFT_OVER := map[0 := File(PidText(99), false)]
  const RECREATED := map[0 := File(PidText(99), false), 1 := File(PidText(7), true)]

  /** The worlds of the window, before and after each of its steps. */
  function WindowWorld(i: nat): World {
    if i == 0 then World(map[], LEFT_OVER, Some(0), None, 1, {})
    else if i == 1 then World(map[0 := Process(7, Opening)], LEFT_OVER, Some(0), None, 1, {})
    else if i == 2 then Staged(Opening, Opening, Some(0), LEFT_OVER, 1)
    else if i == 3 then Staged(Contending, Opening, Some(0), LEFT_OVER, 1)
    else if i == 4 then Staged(Contending, Contending, Some(0), LEFT_OVER, 1)
    else if i == 5 then Staged(TakingOver(0), Contending, Some(0), LEFT_OVER, 1)
    else if i == 6 then Staged(TakingOver(0), TakingOver(0), Some(0), LEFT_OVER, 1)
    else if i == 7 then Staged(Reopening, TakingOver(0), None, LEFT_OVER, 1)
    else if i == 8 then Staged(Writing(1), TakingOver(0), Some(1), LEFT_OVER[1 := File(Unparseable, true)], 2)
    else if i == 9 then Staged(Probing(1), TakingOver(0), Some(1), RECREATED, 2)
    else if i == 10 then Staged(Probing(1), Reopening, None, RECREATED, 2)
    else Staged(Probing(1), Writing(2), Some(2), RECREATED[2 := File(Unparseable, true)], 3)
  }

  const WINDOW := [Spawn(0, 7), Spawn(1, 8), Open(0), Open(1), Judge(0, false), Judge(1, false),
                   RemoveStale(0), Reopen(0), WritePid(0), RemoveStale(1), Reopen(1)]

  lemma WindowStep(i: nat)
    requires i < 11
    ensures Enabled(WindowWorld(i), WINDOW[i])
    ensures WindowWorld(i + 1) == Apply(WindowWorld(i), WINDOW[i])
  {
    if i < 4 { WindowOpens(i); } else if i >= 7 { WindowCloses(i); }
  }

  lemma WindowOpens(i: nat)
    requires i < 4
    ensures Enabled(WindowWorld(i), WINDOW[i])
    ensures WindowWorld(i + 1) == Apply(WindowWorld(i), WINDOW[i])
  {}

  lemma WindowCloses(i: nat)
    requires 7 <= i < 11
    ensures Enabled(WindowWorld(i), WINDOW[i])
    ensures WindowWorld(i + 1) == Apply(WindowWorld(i), WINDOW[i])
  {}

  /** Two daemons judge the same dead daemon's lockfile; the slower one removes
      the file the faster one has just created, and both own a lock. */
  lemma TwoWinners() returns (ws: seq<World>, steps: seq<Step>)
    ensures Run(ws, steps) && steps == WINDOW && |steps| == 11
    ensures steps[9].RemoveStale? && !RemovesJudged(ws[9], steps[9]) && !SparesOwners(ws[9], steps[9])
    ensures Owner(ws[11], 0) && Owner(ws[11], 1)
  {
    ws, steps := seq(12, i requires i >= 0 => WindowWorld(i)), WINDOW;
    forall i | 0 <= i < |steps| ensures Enabled(ws[i], steps[i]) && ws[i + 1] == Apply(ws[i], steps[i]) {
      WindowStep(i);
    }
    assert Owner(ws[9], 0) && LockOf(ws[9], 0) == 1;
    assert OwnedByLive(ws[9], 1);
  }

  // ---- what the window can cost ----

  const BOTH_WRITTEN := RECREATED[2 := File(PidText(8), true)]

  function Met(a: Phase, b: Phase, sockPath: Option<Inode>, next: Inode): World {
    World(map[0 := Process(7, a), 1 := Process(8, b)], BOTH_WRITTEN, Some(2), sockPath, next, {})
  }

  /** The worlds after the window, when both winners go on to serve. */
  function AfterWindow(i: nat): World {
    if i == 0 then WindowWorld(11)
    else if i == 1 then Met(Probing(1), Probing(2), None, 3)
    else if i == 2 then Met(Clearing(1), Probing(2), None, 3)
    else if i == 3 then Met(Clearing(1), Clearing(2), None, 3)
    else if i == 4 then Met(Binding(1), Clearing(2), None, 3)
    else if i == 5 then Met(Serving(1, 3), Clearing(2), Some(3), 4)
    else if i == 6 then Met(Serving(1, 3), Binding(2), None, 4)
    else if i == 7 then Met(Serving(1, 3), Serving(2, 4), Some(4), 5)
    else Met(Closing(1, 3), Serving(2, 4), None, 5)
  }

  const AFTERMATH := [WritePid(1), Probe(0, false), Probe(1, false), ClearSocket(0), Listen(0), ClearSocket(1), Listen(1),
                      UnlinkSocket(0)]

  lemma AftermathStep(i: nat)
    requires i < 8
    ensures Enabled(AfterWindow(i), AFTERMATH[i])
    ensures AfterWindow(i + 1) == Apply(AfterWindow(i), AFTERMATH[i])
  {
    if i < 4 { AftermathProbes(i); } else { AftermathServes(i); }
  }

  lemma AftermathProbes(i: nat)
    requires i < 4
    ensures Enabled(AfterWindow(i), AFTERMATH[i])
    ensures AfterWindow(i + 1) == Apply(AfterWindow(i), AFTERMATH[i])
  {}

  lemma AftermathServes(i: nat)
    requires 4 <= i < 8
    ensures Enabled(AfterWindow(i), AFTERMATH[i])
    ensures AfterWindow(i + 1) == Apply(AfterWindow(i), AFTERMATH[i])
  {}

  lemma BothServe()
    ensures IsServing(AfterWindow(5), 0)
    ensures IsServing(AfterWindow(7), 0) && IsServing(AfterWindow(7), 1)
    ensures var w := AfterWindow(8); IsServing(w, 1) && w.lockPath == Some(LockOf(w, 1)) && w.sockPath.None?
  {}

  /** The whole run: the window, then its aftermath. */
  lemma AftermathRuns() returns (ws: seq<World>)
    ensures Run(ws, WINDOW + AFTERMATH) && |WINDOW + AFTERMATH| == 19
    ensures ws[16] == AfterWindow(5) && ws[18] == AfterWindow(7) && ws[19] == AfterWindow(8)
  {
    var steps := WINDOW + AFTERMATH;
    ws := seq(20, i requires i >= 0 => if i < 12 then WindowWorld(i) else AfterWindow(i - 11));
    forall i | 0 <= i < |steps| ensures Enabled(ws[i], steps[i]) && ws[i + 1] == Apply(ws[i], steps[i]) {
      if i < 11 { WindowStep(i); } else { AftermathStep(i - 11); }
    }
  }

  /** The second winner's removal of the socket cuts the first one off while it
      serves; and when the first exits, its Close removes the second one's
      socket: a daemon is left serving, its own lockfile in place, that no
      client can reach. */
  lemma LoserCutsWinner() returns (ws: seq<World>, steps: seq<Step>)
    ensures Run(ws, steps) && steps == WINDOW + AFTERMATH && |steps| == 19
    ensures steps[16] == ClearSocket(1) && IsServing(ws[16], 0) && !SparesSocket(ws[16], steps[16])
    ensures IsServing(ws[18], 0) && IsServing(ws[18], 1) && steps[18] == UnlinkSocket(0)
    ensures IsServing(ws[19], 1) && ws[19].lockPath == Some(LockOf(ws[19], 1)) && ws[19].sockPath.None?
  {
    ws := AftermathRuns();
    steps := WINDOW + AFTERMATH;
    BothServe();
    assert steps[16] == AFTERMATH[5] && steps[18] == AFTERMATH[7];
  }
}
