/** In no run, whatever fails or is killed, do the shells and lockers come to a standstill. */
module NoDeadlock {
  import opened Protocol
  import opened MutualExclusion
  import opened CommandExclusion

  /** What a waiting shell waits for is a locker. */
  predicate WaitsForLocker(s: State, p: Pid) {
    p in s.procs && s.procs[p].Shell? && s.procs[p].spc.Waiting? ==>
      s.procs[p].spc.locker in s.procs && s.procs[s.procs[p].spc.locker].Locker?
  }

  ghost predicate WaitInv(s: State) {
    forall p :: WaitsForLocker(s, p)
  }

  lemma MovesKeepWait(s: State, p: Pid, n: Pid, s': State)
    requires WaitInv(s) && Moves(s, p, n, s') && WaitsForLocker(s', p) && WaitsForLocker(s', n)
    ensures WaitInv(s')
  {
    forall q ensures WaitsForLocker(s', q) { assert WaitsForLocker(s, q); }
  }

  lemma NextKeepsWait(s: State, e: Event)
    requires WaitInv(s)
    ensures WaitInv(Next(s, e))
  {
    if e.pid in s.procs {
      assert WaitsForLocker(s, e.pid);
      if e.Kill? {
        MovesKeepWait(s, e.pid, e.pid, Killed(s, e.pid));
      } else {
        assert WaitsForLocker(s, e.newPid);
        match s.procs[e.pid]
        case Shell(_, _, _) => MovesKeepWait(s, e.pid, e.newPid, ShellNext(s, e.pid, e.ok, e.newPid));
        case Locker(_, _, _, _) => MovesKeepWait(s, e.pid, e.newPid, LockerNext(s, e.pid, e.ok, e.newPid, e.junk));
        case Command(_, _, _) => MovesKeepWait(s, e.pid, e.pid, CommandNext(s, e.pid, e.ok, e.leaves));
      }
    }
  }

  lemma {:induction false} RunKeepsWait(s: State, es: seq<Event>)
    requires WaitInv(s)
    ensures WaitInv(Run(s, es))
    decreases |es|
  {
    if es != [] {
      NextKeepsWait(s, es[0]);
      RunKeepsWait(Next(s, es[0]), es[1..]);
    }
  }

  predicate CanMove(s: State, p: Pid, newPid: Pid) {
    Next(s, Step(p, true, newPid, 0, false)) != s
  }

  lemma CommandCanMove(s: State, c: Pid, newPid: Pid)
    requires LiveCommand(s, c)
    ensures CanMove(s, c, newPid)
  {
  }

  /** A locker that has not ended can go on, or waits for one that can, or for a command. */
  lemma LockerCanMove(s: State, q: Pid, newPid: Pid) returns (r: Pid)
    requires LockInv(s) && newPid !in s.procs
    requires q in s.procs && s.procs[q].Locker? && !s.procs[q].lpc.Exited?
    ensures CanMove(s, r, newPid)
    decreases s.procs[q].lpc.Acquire?
  {
    var pc, l := s.procs[q].lpc, LockOf(s.procs[q].task);
    assert LockerOk(s, q);
    r := q;
    if pc.Acquire? && l in s.locks.owner && s.locks.owner[l] != q {
      assert OwnerOk(s, l);
      r := LockerCanMove(s, s.locks.owner[l], newPid);
    } else if pc.Wait? && LiveCommand(s, pc.child) {
      CommandCanMove(s, pc.child, newPid);
      r := pc.child;
    } else {
      assert Next(s, Step(q, true, newPid, 0, false)).procs[q].lpc != pc;
    }
  }

  /** While a shell has not finished or given up, some process can move. */
  lemma SomebodyCanMove(s0: State, es: seq<Event>, p: Pid, newPid: Pid) returns (r: Pid)
    requires Init(s0) && newPid !in Run(s0, es).procs
    requires var s := Run(s0, es);
      p in s.procs && s.procs[p].Shell? && !s.procs[p].spc.Finished? && !s.procs[p].spc.Failed?
    ensures CanMove(Run(s0, es), r, newPid)
  {
    InitLocks(s0);
    RunKeepsLocks(s0, es);
    RunKeepsWait(s0, es);
    var s := Run(s0, es);
    var me := s.procs[p];
    assert WaitsForLocker(s, p);
    r := p;
    if me.spc.Waiting? && !s.procs[me.spc.locker].lpc.Exited? {
      r := LockerCanMove(s, me.spc.locker, newPid);
    } else {
      assert Next(s, Step(p, true, newPid, 0, false)).procs[p].spc != me.spc;
    }
  }

  /** The same for a locker that has not ended, even one whose shell is gone. */
  lemma NoLockerStuck(s0: State, es: seq<Event>, q: Pid, newPid: Pid) returns (r: Pid)
    requires Init(s0) && newPid !in Run(s0, es).procs
    requires var s := Run(s0, es); q in s.procs && s.procs[q].Locker? && !s.procs[q].lpc.Exited?
    ensures CanMove(Run(s0, es), r, newPid)
  {
    InitLocks(s0);
    RunKeepsLocks(s0, es);
    r := LockerCanMove(Run(s0, es), q, newPid);
  }
}
