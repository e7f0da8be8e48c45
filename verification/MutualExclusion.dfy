/** Record locks in every interleaving: at most one holder per lock file, and flags that agree. */
module MutualExclusion {
  import opened Protocol

  /** Between fcntl granting the lock and fcntl releasing it. */
  predicate Holds(pc: LockerPc) {
    pc.SetFlag? || pc.Fork? || pc.Wait? || pc.Release?
  }

  /** The flag is raised just after the lock is granted and lowered just after it is released. */
  predicate Flagged(pc: LockerPc) {
    pc.Fork? || pc.Wait? || pc.Release? || pc.ClearFlag?
  }

  ghost predicate OwnerOk(s: State, l: LockFile) {
    l in s.locks.owner ==>
      var p := s.locks.owner[l];
      p in s.procs && s.procs[p].Locker? && LockOf(s.procs[p].task) == l && Holds(s.procs[p].lpc)
  }

  /** Only lockers, and children that have not closed it yet, have a lock file open. */
  predicate UsesFd(proc: Proc, l: LockFile) {
    match proc
    case Shell(_, _, _) => false
    case Locker(pc, t, _, _) => l == LockOf(t) && !pc.Open? && !pc.Exited?
    case Command(pc, t, _) => l == LockOf(t) && pc.CloseFd?
  }

  ghost predicate FdOk(s: State, f: (Pid, LockFile)) {
    f in s.locks.fds ==> f.0 in s.procs && UsesFd(s.procs[f.0], f.1)
  }

  ghost predicate LockerOk(s: State, p: Pid) {
    p in s.procs && s.procs[p].Locker? ==>
      var me := s.procs[p];
      && (Holds(me.lpc) ==> LockOf(me.task) in s.locks.owner && s.locks.owner[LockOf(me.task)] == p)
      && (!me.lpc.Exited? ==> (me.locked <==> Flagged(me.lpc)))
      && (!me.lpc.Exited? && !me.lpc.Open? ==> (p, LockOf(me.task)) in s.locks.fds)
      && (me.lpc.Wait? ==> ChildOf(s, p, me.lpc.child))
  }

  ghost predicate ChildOf(s: State, p: Pid, c: Pid)
    requires p in s.procs && s.procs[p].Locker?
  {
    c in s.procs && s.procs[c].Command? && s.procs[c].locker == p && s.procs[c].task == s.procs[p].task
  }

  /** Holds in every reachable state. */
  ghost predicate LockInv(s: State) {
    && (forall l :: OwnerOk(s, l))
    && (forall f :: FdOk(s, f))
    && (forall p :: LockerOk(s, p))
  }

  lemma InitLocks(s: State)
    requires Init(s)
    ensures LockInv(s)
  {
  }

  /** What a step of one process leaves alone: the other processes with their locks and
      descriptors. The process stays what it is, and n is the process it may have started. */
  ghost predicate StepOf(s: State, p: Pid, n: Pid, s': State) {
    && p in s.procs && (n == p || n !in s.procs)
    && (forall q :: q in s.procs ==> q in s'.procs && (q != p ==> s'.procs[q] == s.procs[q]))
    && (forall q :: q in s'.procs && q != n ==> q in s.procs)
    && SameRole(s.procs[p], s'.procs[p])
    && (forall l :: l in s.locks.owner && s.locks.owner[l] != p ==>
          l in s'.locks.owner && s'.locks.owner[l] == s.locks.owner[l])
    && (forall l :: l in s'.locks.owner && s'.locks.owner[l] != p ==>
          l in s.locks.owner && s'.locks.owner[l] == s.locks.owner[l])
    && (forall f: (Pid, LockFile) :: f.0 != p && f.0 != n ==> (f in s'.locks.fds <==> f in s.locks.fds))
  }

  /** The part of the invariant that is about one process. */
  ghost predicate OwnPart(s: State, p: Pid) {
    && LockerOk(s, p)
    && (forall l :: l in s.locks.owner && s.locks.owner[l] == p ==> OwnerOk(s, l))
    && (forall f :: f in s.locks.fds && f.0 == p ==> FdOk(s, f))
  }

  lemma OthersKeepLocks(s: State, p: Pid, n: Pid, s': State)
    requires LockInv(s) && StepOf(s, p, n, s') && OwnPart(s', p) && OwnPart(s', n)
    ensures LockInv(s')
  {
    forall l ensures OwnerOk(s', l) { assert OwnerOk(s, l); }
    forall f ensures FdOk(s', f) { assert FdOk(s, f); }
    forall q ensures LockerOk(s', q) { assert LockerOk(s, q); }
  }

  /** A step that neither takes nor gives up anything. */
  lemma MovesOn(s: State, p: Pid, me: Proc, s': State)
    requires LockInv(s) && p in s.procs && SameRole(s.procs[p], me)
    requires s'.procs == s.procs[p := me] && s'.locks == s.locks
    requires me.Locker? ==>
      var was := s.procs[p].lpc;
      && (Holds(me.lpc) <==> Holds(was)) && !me.lpc.Open? && !me.lpc.Exited? && !was.Open? && !was.Exited?
      && (me.locked <==> Flagged(me.lpc)) && !me.lpc.Wait?
    requires me.Command? ==> !me.cpc.CloseFd? && !s.procs[p].cpc.CloseFd?
    ensures LockInv(s')
  {
    assert LockerOk(s, p);
    forall l | l in s'.locks.owner && s'.locks.owner[l] == p ensures OwnerOk(s', l) { assert OwnerOk(s, l); }
    forall f | f in s'.locks.fds && f.0 == p ensures FdOk(s', f) { assert FdOk(s, f); }
    OthersKeepLocks(s, p, p, s');
  }

  /** The end of a process, by exit or by a signal. */
  lemma EndKeeps(s: State, p: Pid, me: Proc, s': State)
    requires LockInv(s) && p in s.procs && SameRole(s.procs[p], me)
    requires s'.procs == s.procs[p := me] && s'.locks == Ended(s.locks, p)
    requires (me.Locker? && me.lpc.Exited?) || (me.Command? && me.cpc.Gone?)
    ensures LockInv(s')
  {
    OthersKeepLocks(s, p, p, s');
  }

  lemma OpenKeeps(s: State, p: Pid, s': State)
    requires LockInv(s) && p in s.procs && s.procs[p].Locker? && s.procs[p].lpc.Open?
    requires s' == LockerNext(s, p, true, p, 0)
    ensures LockInv(s')
  {
    assert LockerOk(s, p);
    forall l | l in s.locks.owner ensures s.locks.owner[l] != p { assert OwnerOk(s, l); }
    forall f | f in s'.locks.fds && f.0 == p ensures FdOk(s', f) { assert FdOk(s, f); }
    OthersKeepLocks(s, p, p, s');
  }

  /** fcntl grants the lock. */
  lemma GrantKeeps(s: State, p: Pid, l: LockFile, s': State)
    requires LockInv(s) && p in s.procs && s.procs[p].Locker? && s.procs[p].lpc.Acquire?
    requires l == LockOf(s.procs[p].task) && (l in s.locks.owner ==> s.locks.owner[l] == p)
    requires s' == LockerNext(s, p, true, p, 0)
    ensures LockInv(s')
  {
    assert LockerOk(s, p);
    forall k | k in s'.locks.owner && s'.locks.owner[k] == p ensures OwnerOk(s', k) { assert OwnerOk(s, k); }
    forall f | f in s'.locks.fds && f.0 == p ensures FdOk(s', f) { assert FdOk(s, f); }
    OthersKeepLocks(s, p, p, s');
  }

  /** fcntl releases the lock. */
  lemma ReleaseKeeps(s: State, p: Pid, s': State)
    requires LockInv(s) && p in s.procs && s.procs[p].Locker? && s.procs[p].lpc.Release?
    requires s' == LockerNext(s, p, true, p, 0)
    ensures LockInv(s')
  {
    assert LockerOk(s, p);
    forall k | k in s.locks.owner && s.locks.owner[k] == p ensures k == LockOf(s.procs[p].task) {
      assert OwnerOk(s, k);
    }
    forall f | f in s'.locks.fds && f.0 == p ensures FdOk(s', f) { assert FdOk(s, f); }
    OthersKeepLocks(s, p, p, s');
  }

  /** The forked child has its parent's descriptor, until it closes it, and no lock. */
  lemma ForkKeeps(s: State, p: Pid, newPid: Pid, s': State)
    requires LockInv(s) && p in s.procs && s.procs[p].Locker? && s.procs[p].lpc.Fork? && newPid !in s.procs
    requires s' == LockerNext(s, p, true, newPid, 0)
    ensures LockInv(s')
  {
    assert LockerOk(s, p);
    forall l | l in s'.locks.owner ensures OwnerOk(s', l) && s'.locks.owner[l] != newPid { assert OwnerOk(s, l); }
    forall f | f in s'.locks.fds && (f.0 == p || f.0 == newPid) ensures FdOk(s', f) {
      assert FdOk(s, f);
      assert FdOk(s, (p, f.1));
    }
    OthersKeepLocks(s, p, newPid, s');
  }

  /** The child's close drops no lock: its parent owns the one on that file. */
  lemma ChildCloseKeeps(s: State, c: Pid, s': State)
    requires LockInv(s) && c in s.procs && s.procs[c].Command? && s.procs[c].cpc.CloseFd?
    requires s' == CommandNext(s, c, true, false)
    ensures s'.locks.owner == s.locks.owner
    ensures LockInv(s')
  {
    var l := LockOf(s.procs[c].task);
    assert OwnerOk(s, l);
    forall k | k in s.locks.owner ensures s.locks.owner[k] != c { assert OwnerOk(s, k); }
    forall f | f in s.locks.fds && f.0 == c ensures f.1 == l { assert FdOk(s, f); }
    OthersKeepLocks(s, c, c, s');
  }

  lemma ExecLockerKeeps(s: State, p: Pid, newPid: Pid, me: Proc, t: Task, s': State)
    requires LockInv(s) && p in s.procs && s.procs[p].Shell? && newPid !in s.procs && SameRole(s.procs[p], me)
    requires s'.procs == s.procs[newPid := Locker(Open, t, false, 0)][p := me] && s'.locks == s.locks
    ensures LockInv(s')
  {
    forall l | l in s'.locks.owner ensures OwnerOk(s', l) && s'.locks.owner[l] != newPid { assert OwnerOk(s, l); }
    forall f | f in s'.locks.fds ensures f.0 != newPid && f.0 != p { assert FdOk(s, f); }
    OthersKeepLocks(s, p, newPid, s');
  }

  lemma LockerKeepsLocks(s: State, p: Pid, ok: bool, newPid: Pid, junk: int)
    requires LockInv(s) && p in s.procs && s.procs[p].Locker?
    ensures LockInv(LockerNext(s, p, ok, newPid, junk))
  {
    var s', me := LockerNext(s, p, ok, newPid, junk), s.procs[p];
    assert LockerOk(s, p);
    if s'.procs[p].lpc.Exited? && !me.lpc.Exited? {
      assert s'.locks == Ended(s.locks, p);
      EndKeeps(s, p, s'.procs[p], s');
    } else if s' != s {
      match me.lpc
      case Open => OpenKeeps(s, p, s');
      case Acquire => GrantKeeps(s, p, LockOf(me.task), s');
      case SetFlag => MovesOn(s, p, s'.procs[p], s');
      case Fork => ForkKeeps(s, p, newPid, s');
      case Wait(_) => MovesOn(s, p, s'.procs[p], s');
      case Release => ReleaseKeeps(s, p, s');
      case ClearFlag => MovesOn(s, p, s'.procs[p], s');
    }
  }

  /** A command goes on or ends. */
  lemma CommandMovesOn(s: State, c: Pid, me: Proc, s': State)
    requires LockInv(s) && c in s.procs && s.procs[c].Command? && !s.procs[c].cpc.CloseFd?
    requires s'.procs == s.procs[c := me] && SameRole(s.procs[c], me) && !me.cpc.CloseFd?
    requires if me.cpc.Gone? then s'.locks == Ended(s.locks, c)
             else s'.locks == s.locks
    ensures LockInv(s')
  {
    if me.cpc.Gone? { EndKeeps(s, c, me, s'); } else { MovesOn(s, c, me, s'); }
  }

  lemma CommandKeepsLocks(s: State, c: Pid, ok: bool, leaves: bool)
    requires LockInv(s) && c in s.procs && s.procs[c].Command?
    ensures LockInv(CommandNext(s, c, ok, leaves))
  {
    var s', pc := CommandNext(s, c, ok, leaves), s.procs[c].cpc;
    match pc
    case CloseFd => if ok { ChildCloseKeeps(s, c, s'); } else { EndKeeps(s, c, s'.procs[c], s'); }
    case Exec => CommandMovesOn(s, c, s'.procs[c], s');
    case Test => CommandMovesOn(s, c, s'.procs[c], s');
    case Compile => CommandMovesOn(s, c, s'.procs[c], s');
    case Link => CommandMovesOn(s, c, s'.procs[c], s');
    case Linking => CommandMovesOn(s, c, s'.procs[c], s');
    case Running => CommandMovesOn(s, c, s'.procs[c], s');
    case Gone(_) =>
  }

  lemma ShellKeepsLocks(s: State, p: Pid, ok: bool, newPid: Pid)
    requires LockInv(s) && p in s.procs && s.procs[p].Shell?
    ensures LockInv(ShellNext(s, p, ok, newPid))
  {
    var s', me := ShellNext(s, p, ok, newPid), s.procs[p];
    if me.at >= |me.plan| || me.spc.Finished? || me.spc.Failed? {
      MovesOn(s, p, s'.procs[p], s');
    } else {
      match me.spc
      case CheckLocker => MovesOn(s, p, s'.procs[p], s');
      case TmpCompile => MovesOn(s, p, s'.procs[p], s');
      case TmpLink => MovesOn(s, p, s'.procs[p], s');
      case TmpLinking => MovesOn(s, p, s'.procs[p], s');
      case Move => MovesOn(s, p, s'.procs[p], s');
      case Verify => MovesOn(s, p, s'.procs[p], s');
      case ExecLocker => if newPid !in s.procs { ExecLockerKeeps(s, p, newPid, s'.procs[p], me.plan[me.at], s'); }
      case Waiting(_) => MovesOn(s, p, s'.procs[p], s');
    }
  }

  lemma KillKeepsLocks(s: State, p: Pid)
    requires LockInv(s) && p in s.procs
    ensures LockInv(Killed(s, p))
  {
    var s' := Killed(s, p);
    if s' != s {
      if s.procs[p].Shell? { MovesOn(s, p, s'.procs[p], s'); } else { EndKeeps(s, p, s'.procs[p], s'); }
    }
  }

  lemma NextKeepsLocks(s: State, e: Event)
    requires LockInv(s)
    ensures LockInv(Next(s, e))
  {
    if e.pid in s.procs {
      if e.Kill? {
        KillKeepsLocks(s, e.pid);
      } else {
        match s.procs[e.pid]
        case Shell(_, _, _) => ShellKeepsLocks(s, e.pid, e.ok, e.newPid);
        case Locker(_, _, _, _) => LockerKeepsLocks(s, e.pid, e.ok, e.newPid, e.junk);
        case Command(_, _, _) => CommandKeepsLocks(s, e.pid, e.ok, e.leaves);
      }
    }
  }

  lemma {:induction false} RunKeepsLocks(s: State, es: seq<Event>)
    requires LockInv(s)
    ensures LockInv(Run(s, es))
    decreases |es|
  {
    if es != [] {
      NextKeepsLocks(s, es[0]);
      RunKeepsLocks(Next(s, es[0]), es[1..]);
    }
  }

  /** In every interleaving, with any failures and kills: at most one process per lock file is
      between acquiring and releasing it, the operating system agrees on which, and each locker's
      flag is up from just after the one to just after the other. */
  lemma LockersExclude(s0: State, es: seq<Event>, p: Pid, q: Pid)
    requires Init(s0)
    requires var s := Run(s0, es); p in s.procs && q in s.procs && s.procs[p].Locker? && s.procs[q].Locker?
    ensures var s := Run(s0, es); var me, l := s.procs[p], LockOf(s.procs[p].task);
      && (Holds(me.lpc) <==> l in s.locks.owner && s.locks.owner[l] == p)
      && (!me.lpc.Exited? ==> (me.locked <==> Flagged(me.lpc)))
      && (Holds(me.lpc) && Holds(s.procs[q].lpc) && l == LockOf(s.procs[q].task) ==> p == q)
  {
    InitLocks(s0);
    RunKeepsLocks(s0, es);
    var s := Run(s0, es);
    assert LockerOk(s, p) && LockerOk(s, q) && OwnerOk(s, LockOf(s.procs[p].task));
  }
}
