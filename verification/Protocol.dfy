/** Parallel build shells, the locker processes they start, and the commands those run, as one
    interleaved transition system over the state of the operating system.

    Record locks are as fcntl () defines them in IEEE Std 1003.1: a lock belongs to a process, a
    child does not inherit it, and a process loses its lock on a file when it closes any
    descriptor of that file or ends.  A call that has to wait leaves the state as it is. */
module Protocol {

  type Pid = nat

  /** A support program such as sd-arch. */
  type Helper = nat

  /** A file that a compiler or linker writes. */
  datatype Image = Absent | Partial | Complete

  /** What a shell asks a locker to run: sd-compile for a program, or the program itself. */
  datatype Task = Build(helper: Helper) | Use(helper: Helper)

  /** Compilation locks "X.o.lock", execution locks "X.lock". */
  datatype LockFile = ObjectLock(helper: Helper) | RunLock(helper: Helper)

  function LockOf(t: Task): LockFile {
    if t.Build? then ObjectLock(t.helper) else RunLock(t.helper)
  }

  /** Where a shell is in SDM_prepare_locker and SDM_lock_and_compile or SDM_lock_and_exec. */
  datatype ShellPc =
    | CheckLocker | TmpCompile | TmpLink | TmpLinking | Move | Verify | ExecLocker
    | Waiting(locker: Pid) | Finished | Failed

  /** Where a locker is in the main program of sd-locker.c. */
  datatype LockerPc =
    | Open | Acquire | SetFlag | Fork | Wait(child: Pid) | Release | ClearFlag | Close | Exited(code: int)

  /** How a command ended. */
  datatype End = Code(code: int) | Signalled

  /** Where a forked child is: in sd_locker_posix_execute, in sd-compile, or running a program. */
  datatype CommandPc = CloseFd | Exec | Test | Compile | Link | Linking | Running | Gone(end: End)

  datatype Proc =
    | Shell(spc: ShellPc, plan: seq<Task>, at: nat)
    | Locker(lpc: LockerPc, task: Task, locked: bool, exitCode: int)
    | Command(cpc: CommandPc, task: Task, locker: Pid)

  /** procs keeps processes that have ended, so an identifier is never used twice. */
  datatype State = State(procs: map<Pid, Proc>, locks: Locks, files: Files)

  /** The record locks, and which process has which lock file open. */
  datatype Locks = Locks(owner: map<LockFile, Pid>, fds: set<(Pid, LockFile)>)

  /** The support programs and how often each was linked successfully; sd-locker, and the copies
      of it that shells build under their own identifiers. */
  datatype Files = Files(helpers: map<Helper, Image>, links: map<Helper, nat>, sdLocker: Image, temps: map<Pid, Image>)

  /** A step of a process: ok is the outcome of whatever it calls, newPid the identifier a fork
      gives, junk what WEXITSTATUS yields for a command that was killed, and leaves whether a
      failing linker leaves its output behind.  Or a process is killed. */
  datatype Event =
    | Step(pid: Pid, ok: bool, newPid: Pid, junk: int, leaves: bool)
    | Kill(pid: Pid)

  function HelperImage(s: State, h: Helper): Image {
    if h in s.files.helpers then s.files.helpers[h] else Absent
  }

  /** How often the program has been linked successfully. */
  function Links(s: State, h: Helper): nat {
    if h in s.files.links then s.files.links[h] else 0
  }

  function Put(s: State, p: Pid, proc: Proc): State {
    s.(procs := s.procs[p := proc])
  }

  /** A process stays what it is: only its place in its program changes. */
  predicate SameRole(a: Proc, b: Proc) {
    match a
    case Shell(_, plan, _) => b.Shell? && b.plan == plan
    case Locker(_, t, _, _) => b.Locker? && b.task == t
    case Command(_, t, k) => b.Command? && b.task == t && b.locker == k
  }

  /** A step of p changes no other process, and starts at most the process n. */
  predicate Moves(s: State, p: Pid, n: Pid, s': State) {
    && p in s.procs && p in s'.procs && SameRole(s.procs[p], s'.procs[p])
    && (s'.procs == s.procs[p := s'.procs[p]]
        || (n !in s.procs && n in s'.procs && s'.procs == s.procs[n := s'.procs[n]][p := s'.procs[p]]))
  }

  // ---- the operating system

  function WithoutLocksOf(owner: map<LockFile, Pid>, p: Pid): map<LockFile, Pid> {
    map l | l in owner && owner[l] != p :: owner[l]
  }

  function WithoutFdsOf(fds: set<(Pid, LockFile)>, p: Pid): set<(Pid, LockFile)> {
    set f | f in fds && f.0 != p
  }

  function CopiesFor(fds: set<(Pid, LockFile)>, p: Pid, child: Pid): set<(Pid, LockFile)> {
    set f | f in fds && f.0 == p :: (child, f.1)
  }

  function Opened(k: Locks, p: Pid, l: LockFile): Locks {
    k.(fds := k.fds + {(p, l)})
  }

  function Granted(k: Locks, p: Pid, l: LockFile): Locks {
    k.(owner := k.owner[l := p])
  }

  function Released(k: Locks, p: Pid, l: LockFile): Locks {
    if l in k.owner && k.owner[l] == p then k.(owner := k.owner - {l}) else k
  }

  /** close: the process also loses its lock on the file. */
  function Closed(k: Locks, p: Pid, l: LockFile): Locks {
    Released(k, p, l).(fds := k.fds - {(p, l)})
  }

  /** The end of a process closes everything. */
  function Ended(k: Locks, p: Pid): Locks {
    Locks(WithoutLocksOf(k.owner, p), WithoutFdsOf(k.fds, p))
  }

  /** fork: the child has the same descriptors, but no locks. */
  function Forked(k: Locks, p: Pid, child: Pid): Locks {
    k.(fds := k.fds + CopiesFor(k.fds, p, child))
  }

  // ---- sd-locker

  function LockerExit(s: State, p: Pid, code: int): State
    requires p in s.procs && s.procs[p].Locker?
  {
    Put(s.(locks := Ended(s.locks, p)), p, s.procs[p].(lpc := Exited(code)))
  }

  function LockerNext(s: State, p: Pid, ok: bool, newPid: Pid, junk: int): (r: State)
    requires p in s.procs && s.procs[p].Locker?
    ensures Moves(s, p, newPid, r)
    ensures newPid !in s.procs && newPid in r.procs ==>
      r.procs[newPid] == Command(CloseFd, s.procs[p].task, p) && r.procs[p].lpc == Wait(newPid)
  {
    var me := s.procs[p];
    var l := LockOf(me.task);
    match me.lpc
    case Open => if ok then Put(s.(locks := Opened(s.locks, p, l)), p, me.(lpc := Acquire)) else LockerExit(s, p, 1)
    case Acquire =>
      if !ok then LockerExit(s, p, 1)
      else if l in s.locks.owner && s.locks.owner[l] != p then s
      else Put(s.(locks := Granted(s.locks, p, l)), p, me.(lpc := SetFlag))
    case SetFlag => Put(s, p, me.(lpc := Fork, locked := true))
    case Fork =>
      if !ok then LockerExit(s, p, 1)
      else if newPid in s.procs then s
      else
        var forked := Put(s.(locks := Forked(s.locks, p, newPid)), newPid, Command(CloseFd, me.task, p));
        Put(forked, p, me.(lpc := Wait(newPid)))
    case Wait(c) =>
      if !ok then LockerExit(s, p, 1)
      else if c in s.procs && s.procs[c].Command? && s.procs[c].cpc.Gone? then
        Put(s, p, me.(lpc := Release, exitCode := if s.procs[c].cpc.end.Code? then s.procs[c].cpc.end.code else junk))
      else s
    case Release =>
      if !ok then LockerExit(s, p, 1)
      else Put(s.(locks := Released(s.locks, p, l)), p, me.(lpc := ClearFlag))
    case ClearFlag => Put(s, p, me.(lpc := Close, locked := false))
    case Close => if ok then LockerExit(s.(locks := Closed(s.locks, p, l)), p, me.exitCode) else LockerExit(s, p, 1)
    case Exited(_) => s
  }

  // ---- the command

  function Wrote(s: State, h: Helper, image: Image): State {
    s.(files := s.files.(helpers := s.files.helpers[h := image]))
  }

  function Linked(s: State, h: Helper): State {
    var t := Wrote(s, h, Complete);
    t.(files := t.files.(links := s.files.links[h := Links(s, h) + 1]))
  }

  function CommandExit(s: State, p: Pid, end: End): State
    requires p in s.procs && s.procs[p].Command?
  {
    Put(s.(locks := Ended(s.locks, p)), p, s.procs[p].(cpc := Gone(end)))
  }

  function CommandNext(s: State, p: Pid, ok: bool, leaves: bool): (r: State)
    requires p in s.procs && s.procs[p].Command?
    ensures Moves(s, p, p, r)
  {
    var me := s.procs[p];
    var h := me.task.helper;
    match me.cpc
    case CloseFd =>
      if ok then Put(s.(locks := Closed(s.locks, p, LockOf(me.task))), p, me.(cpc := Exec))
      else CommandExit(s, p, Code(1))
    case Exec =>
      if !ok then CommandExit(s, p, Code(1))
      else if me.task.Build? then Put(s, p, me.(cpc := Test))
      else if HelperImage(s, h).Absent? then CommandExit(s, p, Code(1))
      else Put(s, p, me.(cpc := Running))
    // a partly written file may or may not be executable
    case Test =>
      var there := match HelperImage(s, h) case Absent => false case Complete => true case Partial => ok;
      if there then CommandExit(s, p, Code(0)) else Put(s, p, me.(cpc := Compile))
    case Compile => if ok then Put(s, p, me.(cpc := Link)) else CommandExit(s, p, Code(1))
    case Link => Put(Wrote(s, h, Partial), p, me.(cpc := Linking))
    case Linking =>
      if ok then CommandExit(Linked(s, h), p, Code(0))
      // the clean-up removes the object file, not what the linker wrote
      else CommandExit(Wrote(s, h, if leaves then Partial else Absent), p, Code(1))
    case Running => CommandExit(s, p, Code(if ok then 0 else 1))
    case Gone(_) => s
  }

  // ---- the shell

  function WithTemps(s: State, temps: map<Pid, Image>): State {
    s.(files := s.files.(temps := temps))
  }

  /** mv: the copy takes the place of sd-locker. */
  function MovedIn(s: State, p: Pid): State
    requires p in s.files.temps
  {
    s.(files := s.files.(sdLocker := s.files.temps[p], temps := s.files.temps - {p}))
  }

  function ShellNext(s: State, p: Pid, ok: bool, newPid: Pid): (r: State)
    requires p in s.procs && s.procs[p].Shell?
    ensures Moves(s, p, newPid, r)
    ensures newPid !in s.procs && newPid in r.procs ==>
      var me := s.procs[p];
      && me.at < |me.plan| && me.spc.ExecLocker?
      && r.procs[newPid] == Locker(Open, me.plan[me.at], false, 0) && r.procs[p] == me.(spc := Waiting(newPid))
  {
    var me := s.procs[p];
    if me.spc.Finished? || me.spc.Failed? then s
    else if me.at >= |me.plan| then Put(s, p, me.(spc := Finished))
    else
      match me.spc
      case CheckLocker =>
        var there := match s.files.sdLocker case Absent => false case Complete => true case Partial => ok;
        Put(s, p, me.(spc := if there then Verify else TmpCompile))
      case TmpCompile => Put(s, p, me.(spc := if ok then TmpLink else Failed))
      case TmpLink => Put(WithTemps(s, s.files.temps[p := Partial]), p, me.(spc := TmpLinking))
      case TmpLinking =>
        if ok then Put(WithTemps(s, s.files.temps[p := Complete]), p, me.(spc := Move))
        else Put(WithTemps(s, s.files.temps - {p}), p, me.(spc := Failed))
      // whether the move succeeded is deliberately not looked at
      case Move =>
        Put(if ok && p in s.files.temps then MovedIn(s, p) else s, p, me.(spc := Verify))
      case Verify => Put(s, p, me.(spc := if s.files.sdLocker.Absent? then Failed else ExecLocker))
      case ExecLocker =>
        if newPid in s.procs then s
        else Put(Put(s, newPid, Locker(Open, me.plan[me.at], false, 0)), p, me.(spc := Waiting(newPid)))
      case Waiting(q) =>
        if q in s.procs && s.procs[q].Locker? && s.procs[q].lpc.Exited? then
          // a program that fails to build is fatal, one that fails to run is reported
          if s.procs[q].lpc.code == 0 || me.plan[me.at].Use? then Put(s, p, me.(spc := CheckLocker, at := me.at + 1))
          else Put(s, p, me.(spc := Failed))
        else s
  }

  function Killed(s: State, p: Pid): (r: State)
    requires p in s.procs
    ensures Moves(s, p, p, r)
    ensures r.files == s.files
  {
    match s.procs[p]
    case Shell(spc, plan, at) => if spc.Finished? then s else Put(s, p, Shell(Failed, plan, at))
    case Locker(lpc, _, _, _) => if lpc.Exited? then s else LockerExit(s, p, 137)
    case Command(cpc, _, _) => if cpc.Gone? then s else CommandExit(s, p, Signalled)
  }

  function Next(s: State, e: Event): State {
    if e.pid !in s.procs then s
    else if e.Kill? then Killed(s, e.pid)
    else
      match s.procs[e.pid]
      case Shell(_, _, _) => ShellNext(s, e.pid, e.ok, e.newPid)
      case Locker(_, _, _, _) => LockerNext(s, e.pid, e.ok, e.newPid, e.junk)
      case Command(_, _, _) => CommandNext(s, e.pid, e.ok, e.leaves)
  }

  /** Lockers write no program, and nothing of sd-locker. */
  lemma LockerLeavesFiles(s: State, p: Pid, ok: bool, newPid: Pid, junk: int)
    requires p in s.procs && s.procs[p].Locker?
    ensures var r := LockerNext(s, p, ok, newPid, junk);
      r.files == s.files
  {
  }

  /** Shells write no program, and only their own copy of sd-locker. */
  lemma ShellLeavesFiles(s: State, p: Pid, ok: bool, newPid: Pid)
    requires p in s.procs && s.procs[p].Shell?
    ensures var r := ShellNext(s, p, ok, newPid);
      && r.files.helpers == s.files.helpers && r.files.links == s.files.links
      && forall q :: q != p && q in s.files.temps ==> q in r.files.temps && r.files.temps[q] == s.files.temps[q]
  {
  }

  /** A command writes only its own program. */
  lemma CommandLeavesFiles(s: State, p: Pid, ok: bool, leaves: bool)
    requires p in s.procs && s.procs[p].Command?
    ensures var r := CommandNext(s, p, ok, leaves);
      && r.files.sdLocker == s.files.sdLocker && r.files.temps == s.files.temps
      && forall h :: h != s.procs[p].task.helper ==>
        HelperImage(r, h) == HelperImage(s, h) && Links(r, h) == Links(s, h)
  {
  }

  /** Any interleaving whatever. */
  function Run(s: State, es: seq<Event>): State
    decreases |es|
  {
    if es == [] then s else Run(Next(s, es[0]), es[1..])
  }

  lemma {:induction false} RunJoin(s: State, a: seq<Event>, b: seq<Event>)
    ensures Run(s, a + b) == Run(Run(s, a), b)
    decreases |a|
  {
    if a == [] {
      assert a + b == b;
    } else {
      assert (a + b)[1..] == a[1..] + b;
      RunJoin(Next(s, a[0]), a[1..], b);
    }
  }

  lemma RunOfFour(s: State, a: Event, b: Event, c: Event, d: Event)
    ensures Run(s, [a, b, c, d]) == Next(Next(Next(Next(s, a), b), c), d)
  {
    var s1 := Next(s, a);
    var s2 := Next(s1, b);
    assert [a, b, c, d][1..] == [b, c, d] && [b, c, d][1..] == [c, d] && [c, d][1..] == [d] && [d][1..] == [];
    assert Run(s, [a, b, c, d]) == Run(s1, [b, c, d]) == Run(s2, [c, d]);
    assert Run(s2, [c, d]) == Run(Next(s2, c), [d]) == Run(Next(Next(s2, c), d), []);
  }

  /** There is always an identifier that is not in use. */
  lemma {:induction false} PidsAreBounded(used: set<Pid>) returns (bound: nat)
    ensures forall p :: p in used ==> p < bound
    decreases |used|
  {
    bound := 0;
    if used != {} {
      var p :| p in used;
      var b := PidsAreBounded(used - {p});
      bound := if b > p then b else p + 1;
      forall q | q in used ensures q < bound { assert q == p || q in used - {p}; }
    }
  }

  /** Any number of shells about to start; sd-locker and the programs are there from an earlier
      build or not at all. */
  ghost predicate Init(s: State) {
    && (forall p :: p in s.procs ==> s.procs[p].Shell? && s.procs[p].spc.CheckLocker? && s.procs[p].at == 0)
    && s.locks == Locks(map[], {}) && s.files.links == map[] && s.files.temps == map[]
    && !s.files.sdLocker.Partial? && forall h :: !HelperImage(s, h).Partial?
  }
}
