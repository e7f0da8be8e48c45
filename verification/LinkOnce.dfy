/** However many builds run in parallel, and whatever fails or is killed: as long as no command is
    abandoned, a support program is linked successfully at most once. */
module LinkOnce {
  import opened Protocol
  import opened MutualExclusion
  import opened CommandExclusion
  import opened Phases

  /** A program that has been linked is complete. */
  predicate LinkedIsWhole(s: State, h: Helper) {
    Links(s, h) <= 1 && (Links(s, h) == 1 ==> HelperImage(s, h).Complete?)
  }

  /** A builder past its test has no complete program before it. */
  predicate BuilderSees(s: State, c: Pid) {
    (c in s.procs && s.procs[c].Command?
     && (s.procs[c].cpc.Compile? || s.procs[c].cpc.Link? || s.procs[c].cpc.Linking?)) ==>
      s.procs[c].task.Build? && !HelperImage(s, s.procs[c].task.helper).Complete?
  }

  /** Commands that run a program do not test for it. */
  predicate OnlyBuildersTest(s: State, c: Pid) {
    c in s.procs && s.procs[c].Command? && s.procs[c].cpc.Test? ==> s.procs[c].task.Build?
  }

  ghost predicate OnceInv(s: State) {
    && (forall h :: LinkedIsWhole(s, h))
    && (forall c :: BuilderSees(s, c) && OnlyBuildersTest(s, c))
  }

  /** A step that writes no program. */
  lemma QuietKeepsOnce(s: State, p: Pid, n: Pid, s': State)
    requires OnceInv(s) && Moves(s, p, n, s') && s'.files.helpers == s.files.helpers && s'.files.links == s.files.links
    requires BuilderSees(s', p) && OnlyBuildersTest(s', p) && BuilderSees(s', n) && OnlyBuildersTest(s', n)
    ensures OnceInv(s')
  {
    forall h ensures LinkedIsWhole(s', h) { assert LinkedIsWhole(s, h); }
    forall c ensures BuilderSees(s', c) && OnlyBuildersTest(s', c) {
      assert BuilderSees(s, c) && OnlyBuildersTest(s, c);
    }
  }

  /** A linker at work: the lock keeps every other builder of that program away. */
  lemma LinkerKeepsOnce(s: State, c: Pid, ok: bool, leaves: bool)
    requires LockInv(s) && CommandInv(s) && OnceInv(s) && LiveCommand(s, c)
      && (s.procs[c].cpc.Link? || s.procs[c].cpc.Linking?)
    ensures OnceInv(CommandNext(s, c, ok, leaves))
  {
    var s', h := CommandNext(s, c, ok, leaves), s.procs[c].task.helper;
    CommandLeavesFiles(s, c, ok, leaves);
    assert BuilderSees(s, c) && LinkedIsWhole(s, h);
    forall k ensures LinkedIsWhole(s', k) { assert LinkedIsWhole(s, k); }
    forall d ensures BuilderSees(s', d) && OnlyBuildersTest(s', d) {
      assert BuilderSees(s, d) && OnlyBuildersTest(s, d);
      if LiveCommand(s, d) && s.procs[d].task == s.procs[c].task { OneCommandPerLock(s, c, d); }
    }
  }

  lemma CommandKeepsOnce(s: State, c: Pid, ok: bool, leaves: bool)
    requires LockInv(s) && CommandInv(s) && OnceInv(s) && c in s.procs && s.procs[c].Command?
    ensures OnceInv(CommandNext(s, c, ok, leaves))
  {
    var pc := s.procs[c].cpc;
    assert BuilderSees(s, c) && OnlyBuildersTest(s, c);
    if pc.Link? || pc.Linking? {
      LinkerKeepsOnce(s, c, ok, leaves);
    } else if !pc.Gone? {
      QuietKeepsOnce(s, c, c, CommandNext(s, c, ok, leaves));
    }
  }

  lemma NextKeepsOnce(s: State, e: Event)
    requires LockInv(s) && CommandInv(s) && OnceInv(s)
    ensures OnceInv(Next(s, e))
  {
    if e.pid in s.procs {
      assert BuilderSees(s, e.pid) && OnlyBuildersTest(s, e.pid);
      if e.Kill? {
        QuietKeepsOnce(s, e.pid, e.pid, Killed(s, e.pid));
      } else {
        assert BuilderSees(s, e.newPid) && OnlyBuildersTest(s, e.newPid);
        match s.procs[e.pid]
        case Shell(_, _, _) =>
          ShellLeavesFiles(s, e.pid, e.ok, e.newPid);
          QuietKeepsOnce(s, e.pid, e.newPid, ShellNext(s, e.pid, e.ok, e.newPid));
        case Locker(_, _, _, _) =>
          LockerLeavesFiles(s, e.pid, e.ok, e.newPid, e.junk);
          QuietKeepsOnce(s, e.pid, e.newPid, LockerNext(s, e.pid, e.ok, e.newPid, e.junk));
        case Command(_, _, _) => CommandKeepsOnce(s, e.pid, e.ok, e.leaves);
      }
    }
  }

  /** A complete program stays as it is and is not linked again. */
  lemma StepStaysComplete(s: State, e: Event, h: Helper)
    requires OnceInv(s) && HelperImage(s, h).Complete?
    ensures HelperImage(Next(s, e), h).Complete? && Links(Next(s, e), h) == Links(s, h)
  {
    if e.pid in s.procs && e.Step? {
      match s.procs[e.pid]
      case Shell(_, _, _) => ShellLeavesFiles(s, e.pid, e.ok, e.newPid);
      case Locker(_, _, _, _) => LockerLeavesFiles(s, e.pid, e.ok, e.newPid, e.junk);
      case Command(pc, t, _) =>
        assert BuilderSees(s, e.pid);
        CommandLeavesFiles(s, e.pid, e.ok, e.leaves);
    }
  }

  lemma {:induction false} RunKeepsOnce(s: State, es: seq<Event>, h: Helper)
    requires LockInv(s) && CommandInv(s) && OnceInv(s) && Orderly(s, es)
    ensures OnceInv(Run(s, es))
    ensures HelperImage(s, h).Complete? ==> HelperImage(Run(s, es), h).Complete? && Links(Run(s, es), h) == Links(s, h)
    decreases |es|
  {
    if es != [] {
      NextKeepsLocks(s, es[0]);
      NextKeepsAttended(s, es[0]);
      NextKeepsOnce(s, es[0]);
      if HelperImage(s, h).Complete? { StepStaysComplete(s, es[0], h); }
      RunKeepsOnce(Next(s, es[0]), es[1..], h);
    }
  }

  /** Over any run in which no command is abandoned, a program is linked successfully at most once,
      is complete from then on, and is not linked at all if it was there. */
  lemma LinkedAtMostOnce(s0: State, es: seq<Event>, h: Helper)
    requires Init(s0) && Orderly(s0, es)
    ensures Links(Run(s0, es), h) <= 1
    ensures Links(Run(s0, es), h) == 1 ==> HelperImage(Run(s0, es), h).Complete?
    ensures HelperImage(s0, h).Complete? ==> HelperImage(Run(s0, es), h).Complete? && Links(Run(s0, es), h) == 0
  {
    InitLocks(s0);
    RunKeepsOnce(s0, es, h);
    assert LinkedIsWhole(Run(s0, es), h);
  }

  /** The condition is needed: when the locker p of a command that is compiling is killed, the next
      locker in line links the program, and then the abandoned command links it again. */
  lemma AbandonedLinksTwice(s: State, c: Pid, p: Pid, q: Pid, d: Pid)
    requires LockInv(s) && LiveCommand(s, c) && Attended(s, c) && p == s.procs[c].locker && d !in s.procs
    requires s.procs[c].cpc.Compile? && s.procs[c].task.Build? && !HelperImage(s, s.procs[c].task.helper).Complete?
    requires q in s.procs && q != p && s.procs[q].Locker? && s.procs[q].lpc.Acquire?
      && s.procs[q].task == s.procs[c].task
    ensures var h := s.procs[c].task.helper;
      var es := [Kill(p)] + ([Good(q, d), Good(q, d), Good(q, d)]
                + ([Good(d, d), Good(d, d), Step(d, false, d, 0, false)]
                   + ([Good(d, d), Good(d, d), Good(d, d)] + [Good(c, c), Good(c, c), Good(c, c)])));
      Abandons(s, es[0]) && Links(Run(s, es), h) == Links(s, h) + 2
  {
    var a, b := [Good(q, d), Good(q, d), Good(q, d)], [Good(d, d), Good(d, d), Step(d, false, d, 0, false)];
    var x, y := [Good(d, d), Good(d, d), Good(d, d)], [Good(c, c), Good(c, c), Good(c, c)];
    assert LockerOk(s, p) && LockerOk(s, q);
    var s1 := Next(s, Kill(p));
    TakesLock(s1, q, d);
    var s2 := Run(s1, a);
    TestsProgram(s2, d, false);
    var s3 := Run(s2, b);
    LinksProgram(s3, d);
    LinksProgram(Run(s3, x), c);
    RunJoin(s3, x, y);
    RunJoin(s2, b, x + y);
    RunJoin(s1, a, b + (x + y));
    assert ([Kill(p)] + (a + (b + (x + y))))[1..] == a + (b + (x + y));
  }
}
