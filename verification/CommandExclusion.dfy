/** Commands under one lock never overlap, as long as no locker ends before its command does. */
module CommandExclusion {
  import opened Protocol
  import opened MutualExclusion

  predicate LiveCommand(s: State, c: Pid) {
    c in s.procs && s.procs[c].Command? && !s.procs[c].cpc.Gone?
  }

  /** A locker dies, or its waitpid fails, while its command is still running. */
  predicate Abandons(s: State, e: Event) {
    e.pid in s.procs && s.procs[e.pid].Locker? && s.procs[e.pid].lpc.Wait?
    && LiveCommand(s, s.procs[e.pid].lpc.child) && (e.Kill? || !e.ok)
  }

  predicate Orderly(s: State, es: seq<Event>)
    decreases |es|
  {
    es == [] || (!Abandons(s, es[0]) && Orderly(Next(s, es[0]), es[1..]))
  }

  /** A running command has its locker waiting for it. */
  ghost predicate Attended(s: State, c: Pid) {
    LiveCommand(s, c) ==>
      var p := s.procs[c].locker;
      p in s.procs && s.procs[p].Locker? && s.procs[p].lpc == Wait(c) && s.procs[p].task == s.procs[c].task
  }

  ghost predicate CommandInv(s: State) {
    forall c :: Attended(s, c)
  }

  /** A step by p that starts n. */
  lemma StepKeepsAttended(s: State, p: Pid, n: Pid, s': State)
    requires CommandInv(s) && Moves(s, p, n, s')
    requires LiveCommand(s', p) ==> LiveCommand(s, p)
    requires s.procs[p].Locker? && s.procs[p].lpc.Wait? && LiveCommand(s, s.procs[p].lpc.child) ==>
      s'.procs[p] == s.procs[p]
    requires n !in s.procs && n in s'.procs ==> Attended(s', n)
    ensures CommandInv(s')
  {
    forall c ensures Attended(s', c) {
      assert Attended(s, c);
      if LiveCommand(s', c) && c in s.procs { assert LiveCommand(s, c); }
    }
  }

  lemma LockerKeepsAttended(s: State, p: Pid, ok: bool, newPid: Pid, junk: int)
    requires CommandInv(s) && p in s.procs && s.procs[p].Locker?
    requires s.procs[p].lpc.Wait? && LiveCommand(s, s.procs[p].lpc.child) ==> ok
    ensures CommandInv(LockerNext(s, p, ok, newPid, junk))
  {
    StepKeepsAttended(s, p, newPid, LockerNext(s, p, ok, newPid, junk));
  }

  lemma CommandKeepsAttended(s: State, c: Pid, ok: bool, leaves: bool)
    requires CommandInv(s) && c in s.procs && s.procs[c].Command?
    ensures CommandInv(CommandNext(s, c, ok, leaves))
  {
    StepKeepsAttended(s, c, c, CommandNext(s, c, ok, leaves));
  }

  lemma ShellKeepsAttended(s: State, p: Pid, ok: bool, newPid: Pid)
    requires CommandInv(s) && p in s.procs && s.procs[p].Shell?
    ensures CommandInv(ShellNext(s, p, ok, newPid))
  {
    StepKeepsAttended(s, p, newPid, ShellNext(s, p, ok, newPid));
  }

  lemma NextKeepsAttended(s: State, e: Event)
    requires CommandInv(s) && !Abandons(s, e)
    ensures CommandInv(Next(s, e))
  {
    if e.pid in s.procs {
      if e.Kill? {
        StepKeepsAttended(s, e.pid, e.pid, Killed(s, e.pid));
      } else {
        match s.procs[e.pid]
        case Shell(_, _, _) => ShellKeepsAttended(s, e.pid, e.ok, e.newPid);
        case Locker(_, _, _, _) => LockerKeepsAttended(s, e.pid, e.ok, e.newPid, e.junk);
        case Command(_, _, _) => CommandKeepsAttended(s, e.pid, e.ok, e.leaves);
      }
    }
  }

  lemma {:induction false} RunKeepsAttended(s: State, es: seq<Event>)
    requires CommandInv(s) && Orderly(s, es)
    ensures CommandInv(Run(s, es))
    decreases |es|
  {
    if es != [] {
      NextKeepsAttended(s, es[0]);
      RunKeepsAttended(Next(s, es[0]), es[1..]);
    }
  }

  /** The lock and its owner's attention single out the command. */
  lemma OneCommandPerLock(s: State, c: Pid, d: Pid)
    requires LockInv(s) && CommandInv(s) && LiveCommand(s, c) && LiveCommand(s, d)
    requires LockOf(s.procs[c].task) == LockOf(s.procs[d].task)
    ensures c == d
  {
    assert Attended(s, c) && Attended(s, d);
    assert LockerOk(s, s.procs[c].locker) && LockerOk(s, s.procs[d].locker);
  }

  /** In every interleaving in which no command is abandoned, whatever else fails or is killed, no
      two commands run under one lock at the same time. */
  lemma CommandsExclude(s0: State, es: seq<Event>, c: Pid, d: Pid)
    requires Init(s0) && Orderly(s0, es)
    requires LiveCommand(Run(s0, es), c) && LiveCommand(Run(s0, es), d) && c != d
    ensures LockOf(Run(s0, es).procs[c].task) != LockOf(Run(s0, es).procs[d].task)
  {
    InitLocks(s0);
    RunKeepsLocks(s0, es);
    RunKeepsAttended(s0, es);
    if LockOf(Run(s0, es).procs[c].task) == LockOf(Run(s0, es).procs[d].task) {
      OneCommandPerLock(Run(s0, es), c, d);
    }
  }

  /** The condition is needed: once a command is abandoned, another locker that was waiting for
      the lock starts a second one. */
  lemma AbandonedCommandOverlaps(s: State, p: Pid, q: Pid, newPid: Pid)
    requires LockInv(s) && newPid !in s.procs && p != q
    requires p in s.procs && s.procs[p].Locker? && s.procs[p].lpc.Wait? && LiveCommand(s, s.procs[p].lpc.child)
    requires q in s.procs && s.procs[q].Locker? && s.procs[q].lpc.Acquire?
    requires LockOf(s.procs[q].task) == LockOf(s.procs[p].task)
    ensures var c := s.procs[p].lpc.child;
      var e := Step(q, true, newPid, 0, false);
      var s' := Run(s, [Kill(p), e, e, e]);
      && LiveCommand(s', c) && LiveCommand(s', newPid) && c != newPid
      && LockOf(s'.procs[c].task) == LockOf(s'.procs[newPid].task)
  {
    assert LockerOk(s, p);
    var e, l := Step(q, true, newPid, 0, false), LockOf(s.procs[q].task);
    var s1 := Next(s, Kill(p));
    assert l !in s1.locks.owner;
    var s2 := Next(s1, e);
    assert s2.procs[q].lpc.SetFlag?;
    var s3 := Next(s2, e);
    var s4 := Next(s3, e);
    RunOfFour(s, Kill(p), e, e, e);
    assert Run(s, [Kill(p), e, e, e]) == s4;
  }
}
