/** How shells get sd-locker without a lock: each builds its own copy and moves it into place. */
module Bootstrap {
  import opened Protocol

  ghost predicate ShellOk(s: State, p: Pid) {
    p in s.procs && s.procs[p].Shell? ==>
      && (s.procs[p].spc.Move? ==> p in s.files.temps && s.files.temps[p].Complete?)
      && (s.procs[p].spc.ExecLocker? || s.procs[p].spc.Waiting? ==> s.files.sdLocker.Complete?)
  }

  /** The path sd-locker is absent or complete, never partly written. */
  ghost predicate BootInv(s: State) {
    !s.files.sdLocker.Partial? && forall p :: ShellOk(s, p)
  }

  lemma ShellKeepsBoot(s: State, p: Pid, ok: bool, newPid: Pid)
    requires BootInv(s) && p in s.procs && s.procs[p].Shell?
    ensures BootInv(ShellNext(s, p, ok, newPid))
    ensures s.files.sdLocker.Complete? ==> ShellNext(s, p, ok, newPid).files.sdLocker.Complete?
  {
    var s' := ShellNext(s, p, ok, newPid);
    ShellLeavesFiles(s, p, ok, newPid);
    assert ShellOk(s, p);
    forall q ensures ShellOk(s', q) { assert ShellOk(s, q); }
  }

  /** A step that leaves sd-locker and its copies alone. */
  lemma OthersKeepBoot(s: State, p: Pid, n: Pid, s': State)
    requires BootInv(s) && Moves(s, p, n, s') && s'.files.sdLocker == s.files.sdLocker
      && s'.files.temps == s.files.temps
    requires n !in s.procs && n in s'.procs ==> !s'.procs[n].Shell?
    requires s.procs[p].Shell? ==> s'.procs[p] == s.procs[p] || s'.procs[p].spc.Failed?
    ensures BootInv(s')
  {
    forall q ensures ShellOk(s', q) { assert ShellOk(s, q); }
  }

  lemma NextKeepsBoot(s: State, e: Event)
    requires BootInv(s)
    ensures BootInv(Next(s, e))
    ensures s.files.sdLocker.Complete? ==> Next(s, e).files.sdLocker.Complete?
  {
    if e.pid in s.procs {
      if e.Kill? {
        OthersKeepBoot(s, e.pid, e.pid, Killed(s, e.pid));
      } else {
        match s.procs[e.pid]
        case Shell(_, _, _) => ShellKeepsBoot(s, e.pid, e.ok, e.newPid);
        case Locker(_, _, _, _) =>
          LockerLeavesFiles(s, e.pid, e.ok, e.newPid, e.junk);
          OthersKeepBoot(s, e.pid, e.newPid, LockerNext(s, e.pid, e.ok, e.newPid, e.junk));
        case Command(_, _, _) =>
          CommandLeavesFiles(s, e.pid, e.ok, e.leaves);
          OthersKeepBoot(s, e.pid, e.pid, CommandNext(s, e.pid, e.ok, e.leaves));
      }
    }
  }

  lemma {:induction false} RunKeepsBoot(s: State, es: seq<Event>)
    requires BootInv(s)
    ensures BootInv(Run(s, es))
    ensures s.files.sdLocker.Complete? ==> Run(s, es).files.sdLocker.Complete?
    decreases |es|
  {
    if es != [] {
      NextKeepsBoot(s, es[0]);
      RunKeepsBoot(Next(s, es[0]), es[1..]);
    }
  }

  /** Whatever the interleaving of racing builds, moves and kills: sd-locker is only ever absent or
      complete, it never goes away again, and a shell that is about to execute it, or has, finds it
      complete. */
  lemma LockerIsWhole(s0: State, es: seq<Event>, more: seq<Event>, p: Pid)
    requires Init(s0)
    ensures !Run(s0, es).files.sdLocker.Partial?
    ensures Run(s0, es).files.sdLocker.Complete? ==> Run(s0, es + more).files.sdLocker.Complete?
    ensures var s := Run(s0, es);
      p in s.procs && s.procs[p].Shell? && (s.procs[p].spc.ExecLocker? || s.procs[p].spc.Waiting?) ==>
        s.files.sdLocker.Complete?
  {
    RunKeepsBoot(s0, es);
    RunJoin(s0, es, more);
    RunKeepsBoot(Run(s0, es), more);
    assert ShellOk(Run(s0, es), p);
  }
}
