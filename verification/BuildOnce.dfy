/** Only complete support programs are run, although building one and running it take different
    locks, in runs in which no command is killed and no failed linker leaves its output. */
module BuildOnce {
  import opened Protocol
  import opened MutualExclusion
  import opened CommandExclusion
  import opened Phases

  /** A program is only used after it has been asked for. */
  predicate Disciplined(plan: seq<Task>) {
    forall i :: 0 <= i < |plan| && plan[i].Use? ==> Build(plan[i].helper) in plan[..i]
  }

  /** A running command is killed, or a failing linker leaves its output behind. */
  predicate Spoils(s: State, e: Event) {
    if e.Kill? then LiveCommand(s, e.pid)
    else LiveCommand(s, e.pid) && s.procs[e.pid].cpc.Linking? && !e.ok && e.leaves
  }

  predicate Clean(s: State, es: seq<Event>)
    decreases |es|
  {
    es == [] || (!Abandons(s, es[0]) && !Spoils(s, es[0]) && Clean(Next(s, es[0]), es[1..]))
  }

  predicate LinkingFor(s: State, c: Pid, h: Helper) {
    c in s.procs && s.procs[c].Command? && s.procs[c].cpc.Linking? && s.procs[c].task == Build(h)
  }

  /** A partly written program is being linked. */
  ghost predicate ImageOk(s: State, h: Helper) {
    HelperImage(s, h).Partial? ==> exists c :: LinkingFor(s, c, h)
  }

  ghost predicate CommandOk(s: State, c: Pid) {
    c in s.procs && s.procs[c].Command? ==>
      var pc, t := s.procs[c].cpc, s.procs[c].task;
      var image := HelperImage(s, t.helper);
      && pc != Gone(Signalled) && (t.Build? ==> !pc.Running?)
      && (t.Use? ==> image.Complete? && !pc.Test? && !pc.Compile? && !pc.Link? && !pc.Linking?)
      && (pc.Compile? || pc.Link? ==> image.Absent?)
      && (pc.Linking? ==> image.Partial?)
      && (t.Build? && pc == Gone(Code(0)) ==> image.Complete?)
  }

  ghost predicate LockerBuilt(s: State, p: Pid) {
    p in s.procs && s.procs[p].Locker? ==>
      var me := s.procs[p];
      var image := HelperImage(s, me.task.helper);
      && (me.task.Use? ==> image.Complete?)
      && ((me.lpc.Release? || me.lpc.ClearFlag? || me.lpc.Close?) && me.exitCode == 0 ==> image.Complete?)
      && (me.lpc == Exited(0) ==> image.Complete?)
  }

  ghost predicate ShellBuilt(s: State, p: Pid) {
    p in s.procs && s.procs[p].Shell? ==>
      var me := s.procs[p];
      && Disciplined(me.plan) && me.at <= |me.plan|
      && (forall i :: 0 <= i < me.at && me.plan[i].Build? ==> HelperImage(s, me.plan[i].helper).Complete?)
      && (me.spc.Waiting? ==>
            var q := me.spc.locker;
            me.at < |me.plan| && q in s.procs && s.procs[q].Locker? && s.procs[q].task == me.plan[me.at])
  }

  ghost predicate BuildInv(s: State) {
    && (forall h :: ImageOk(s, h))
    && (forall c :: CommandOk(s, c))
    && (forall p :: LockerBuilt(s, p))
    && (forall p :: ShellBuilt(s, p))
  }

  ghost predicate Inv(s: State) {
    LockInv(s) && CommandInv(s) && BuildInv(s)
  }

  lemma InitBuilds(s: State)
    requires Init(s) && forall p :: p in s.procs ==> Disciplined(s.procs[p].plan)
    ensures Inv(s)
  {
  }

  /** A step that writes no program: what is left to show is about the process that moved and the
      one it started. */
  lemma QuietStep(s: State, p: Pid, n: Pid, s': State)
    requires BuildInv(s) && Moves(s, p, n, s') && s'.files.helpers == s.files.helpers && s'.files.links == s.files.links
    requires CommandOk(s', p) && LockerBuilt(s', p) && ShellBuilt(s', p)
    requires CommandOk(s', n) && LockerBuilt(s', n) && ShellBuilt(s', n)
    requires s.procs[p].Command? && s.procs[p].cpc.Linking? ==> s'.procs[p] == s.procs[p]
    ensures BuildInv(s')
  {
    forall h ensures ImageOk(s', h) {
      assert ImageOk(s, h);
      if HelperImage(s', h).Partial? {
        var c :| LinkingFor(s, c, h);
        assert LinkingFor(s', c, h);
      }
    }
    forall c ensures CommandOk(s', c) { assert CommandOk(s, c); }
    forall q ensures LockerBuilt(s', q) { assert LockerBuilt(s, q); }
    forall q ensures ShellBuilt(s', q) { assert ShellBuilt(s, q); }
  }

  lemma LockerKeepsBuilds(s: State, p: Pid, ok: bool, newPid: Pid, junk: int)
    requires Inv(s) && p in s.procs && s.procs[p].Locker?
    ensures BuildInv(LockerNext(s, p, ok, newPid, junk))
  {
    var s' := LockerNext(s, p, ok, newPid, junk);
    LockerLeavesFiles(s, p, ok, newPid, junk);
    assert LockerBuilt(s, p) && LockerOk(s, p);
    if s.procs[p].lpc.Wait? { assert CommandOk(s, s.procs[p].lpc.child); }
    assert LockerBuilt(s', p);
    assert CommandOk(s, newPid) && LockerBuilt(s, newPid) && ShellBuilt(s, newPid);
    QuietStep(s, p, newPid, s');
  }

  /** A program the plan asks to use has been built by then. */
  lemma BuiltBeforeUse(s: State, p: Pid)
    requires BuildInv(s) && p in s.procs && s.procs[p].Shell? && s.procs[p].at < |s.procs[p].plan|
    ensures var t := s.procs[p].plan[s.procs[p].at]; t.Use? ==> HelperImage(s, t.helper).Complete?
  {
    assert ShellBuilt(s, p);
    var me := s.procs[p];
    if me.plan[me.at].Use? {
      var i :| 0 <= i < me.at && me.plan[..me.at][i] == Build(me.plan[me.at].helper);
      assert me.plan[i] == Build(me.plan[me.at].helper);
    }
  }

  /** The shell's own part: it goes on to the next task only when this one is done. */
  lemma ShellKeepsOwn(s: State, p: Pid, ok: bool, newPid: Pid)
    requires Inv(s) && p in s.procs && s.procs[p].Shell?
    ensures ShellBuilt(ShellNext(s, p, ok, newPid), p)
  {
    ShellLeavesFiles(s, p, ok, newPid);
    assert ShellBuilt(s, p);
    if s.procs[p].spc.Waiting? { assert LockerBuilt(s, s.procs[p].spc.locker); }
  }

  lemma ShellKeepsBuilds(s: State, p: Pid, ok: bool, newPid: Pid)
    requires Inv(s) && p in s.procs && s.procs[p].Shell?
    ensures BuildInv(ShellNext(s, p, ok, newPid))
  {
    var s', me := ShellNext(s, p, ok, newPid), s.procs[p];
    ShellLeavesFiles(s, p, ok, newPid);
    ShellKeepsOwn(s, p, ok, newPid);
    if me.at < |me.plan| { BuiltBeforeUse(s, p); }
    assert CommandOk(s, newPid) && LockerBuilt(s, newPid) && ShellBuilt(s, newPid);
    QuietStep(s, p, newPid, s');
  }

  lemma KillKeepsBuilds(s: State, p: Pid)
    requires Inv(s) && p in s.procs && !LiveCommand(s, p)
    ensures BuildInv(Killed(s, p))
  {
    assert CommandOk(s, p) && LockerBuilt(s, p) && ShellBuilt(s, p);
    QuietStep(s, p, p, Killed(s, p));
  }

  /** When a builder writes its program, nobody else has finished it, uses it or builds it. */
  lemma BuilderIsAlone(s: State, c: Pid)
    requires Inv(s) && LiveCommand(s, c) && s.procs[c].task.Build?
    requires !HelperImage(s, s.procs[c].task.helper).Complete?
    ensures forall d | d in s.procs && d != c && s.procs[d].Command? && s.procs[d].task.helper == s.procs[c].task.helper
      :: s.procs[d].task.Build? && s.procs[d].cpc.Gone? && s.procs[d].cpc != Gone(Code(0))
  {
    forall d | d in s.procs && d != c && s.procs[d].Command? && s.procs[d].task.helper == s.procs[c].task.helper
      ensures s.procs[d].task.Build? && s.procs[d].cpc.Gone? && s.procs[d].cpc != Gone(Code(0))
    {
      assert CommandOk(s, d);
      if LiveCommand(s, d) && s.procs[d].task.Build? { OneCommandPerLock(s, c, d); }
    }
  }

  /** A step of a builder that writes its program. */
  lemma WritingStep(s: State, c: Pid, s': State)
    requires Inv(s) && LiveCommand(s, c) && (s.procs[c].cpc.Link? || s.procs[c].cpc.Linking?) && Moves(s, c, c, s')
    requires forall h :: h != s.procs[c].task.helper ==> HelperImage(s', h) == HelperImage(s, h)
    requires CommandOk(s', c) && ImageOk(s', s.procs[c].task.helper)
    ensures BuildInv(s')
  {
    assert CommandOk(s, c) && LockerBuilt(s, c) && ShellBuilt(s, c);
    BuilderIsAlone(s, c);
    forall h ensures ImageOk(s', h) {
      assert ImageOk(s, h);
      if h != s.procs[c].task.helper && HelperImage(s', h).Partial? {
        var d :| LinkingFor(s, d, h);
        assert LinkingFor(s', d, h);
      }
    }
    forall d ensures CommandOk(s', d) { assert CommandOk(s, d); }
    forall q ensures LockerBuilt(s', q) { assert LockerBuilt(s, q); }
    forall q ensures ShellBuilt(s', q) { assert ShellBuilt(s, q); }
  }

  /** No linker is at work on the program of a command that is testing for it. */
  lemma TestSeesWhole(s: State, c: Pid)
    requires Inv(s) && LiveCommand(s, c) && s.procs[c].task.Build? && !s.procs[c].cpc.Linking?
    ensures !HelperImage(s, s.procs[c].task.helper).Partial?
  {
    var h := s.procs[c].task.helper;
    assert ImageOk(s, h);
    if HelperImage(s, h).Partial? {
      var d :| LinkingFor(s, d, h);
      OneCommandPerLock(s, c, d);
    }
  }

  lemma CommandKeepsBuilds(s: State, c: Pid, ok: bool, leaves: bool)
    requires Inv(s) && c in s.procs && s.procs[c].Command?
    requires s.procs[c].cpc.Linking? && !ok ==> !leaves
    ensures BuildInv(CommandNext(s, c, ok, leaves))
  {
    var s', pc, h := CommandNext(s, c, ok, leaves), s.procs[c].cpc, s.procs[c].task.helper;
    assert CommandOk(s, c) && LockerBuilt(s, c) && ShellBuilt(s, c) && ImageOk(s, h);
    CommandLeavesFiles(s, c, ok, leaves);
    if pc.Link? || pc.Linking? {
      if pc.Link? {
        TestSeesWhole(s, c);
        assert LinkingFor(s', c, h);
      }
      WritingStep(s, c, s');
    } else if !pc.Gone? {
      if s.procs[c].task.Build? { TestSeesWhole(s, c); }
      QuietStep(s, c, c, s');
    }
  }

  lemma NextKeepsInv(s: State, e: Event)
    requires Inv(s) && !Abandons(s, e) && !Spoils(s, e)
    ensures Inv(Next(s, e))
  {
    NextKeepsLocks(s, e);
    NextKeepsAttended(s, e);
    if e.pid in s.procs {
      if e.Kill? {
        KillKeepsBuilds(s, e.pid);
      } else {
        match s.procs[e.pid]
        case Shell(_, _, _) => ShellKeepsBuilds(s, e.pid, e.ok, e.newPid);
        case Locker(_, _, _, _) => LockerKeepsBuilds(s, e.pid, e.ok, e.newPid, e.junk);
        case Command(_, _, _) => CommandKeepsBuilds(s, e.pid, e.ok, e.leaves);
      }
    }
  }

  lemma {:induction false} RunKeepsInv(s: State, es: seq<Event>)
    requires Inv(s) && Clean(s, es)
    ensures Inv(Run(s, es))
    decreases |es|
  {
    if es != [] {
      NextKeepsInv(s, es[0]);
      RunKeepsInv(Next(s, es[0]), es[1..]);
    }
  }

  /** Shells about to start, each with a plan that builds a program before using it. */
  ghost predicate Start(s: State) {
    Init(s) && forall p :: p in s.procs ==> Disciplined(s.procs[p].plan)
  }

  /** Nobody is linking a complete program. */
  lemma NobodyLinks(s: State, h: Helper, c: Pid)
    requires Inv(s) && HelperImage(s, h).Complete?
    ensures !LinkingFor(s, c, h)
  {
    assert CommandOk(s, c);
  }

  /** A shell past SDM_protected_C_compilation finds the program complete, with nobody linking it,
      then and ever after. */
  lemma BuiltMeansComplete(s0: State, es: seq<Event>, p: Pid, i: nat, c: Pid)
    requires Start(s0) && Clean(s0, es)
    requires var s := Run(s0, es);
      p in s.procs && s.procs[p].Shell? && i < s.procs[p].at && i < |s.procs[p].plan| && s.procs[p].plan[i].Build?
    ensures var s := Run(s0, es);
      HelperImage(s, s.procs[p].plan[i].helper).Complete? && !LinkingFor(s, c, s.procs[p].plan[i].helper)
  {
    InitBuilds(s0);
    RunKeepsInv(s0, es);
    var s := Run(s0, es);
    assert ShellBuilt(s, p);
    NobodyLinks(s, s.procs[p].plan[i].helper, c);
  }

  /** A program that is run is complete and nobody is linking it, for as long as it runs. */
  lemma RunsComplete(s0: State, es: seq<Event>, u: Pid, c: Pid)
    requires Start(s0) && Clean(s0, es)
    requires LiveCommand(Run(s0, es), u) && Run(s0, es).procs[u].task.Use?
    ensures var s := Run(s0, es);
      HelperImage(s, s.procs[u].task.helper).Complete? && !LinkingFor(s, c, s.procs[u].task.helper)
  {
    InitBuilds(s0);
    RunKeepsInv(s0, es);
    var s := Run(s0, es);
    assert CommandOk(s, u);
    NobodyLinks(s, s.procs[u].task.helper, c);
  }

  // ---- the conditions are needed

  /** A linker that fails and leaves an executable file behind: its own locker p reports the
      failure, but the locker q that was waiting for its turn reports success for an incomplete
      program. */
  lemma LeftoverPasses(s: State, c: Pid, p: Pid, q: Pid, d: Pid)
    requires Inv(s) && LiveCommand(s, c) && s.procs[c].cpc.Linking? && p == s.procs[c].locker && d !in s.procs
    requires q in s.procs && q != p && s.procs[q].Locker? && s.procs[q].lpc.Acquire?
      && s.procs[q].task == s.procs[c].task
    ensures var es := [Step(c, false, c, 0, true)] + ([Good(p, p), Good(p, p), Good(p, p), Good(p, p)]
                + ([Good(q, d), Good(q, d), Good(q, d)]
                   + ([Good(d, d), Good(d, d), Good(d, d)] + [Good(q, q), Good(q, q), Good(q, q), Good(q, q)])));
      var s' := Run(s, es);
      && p in s'.procs && s'.procs[p].Locker? && s'.procs[p].lpc == Exited(1)
      && q in s'.procs && s'.procs[q].Locker? && s'.procs[q].lpc == Exited(0)
      && HelperImage(s', s.procs[c].task.helper).Partial?
  {
    var a, b := [Good(p, p), Good(p, p), Good(p, p), Good(p, p)], [Good(q, d), Good(q, d), Good(q, d)];
    var x, y := [Good(d, d), Good(d, d), Good(d, d)], [Good(q, q), Good(q, q), Good(q, q), Good(q, q)];
    assert Attended(s, c) && CommandOk(s, c) && LockerOk(s, p) && LockerOk(s, q);
    var s1 := Next(s, Step(c, false, c, 0, true));
    LockerEnds(s1, p, 1);
    var s2 := Run(s1, a);
    TakesLock(s2, q, d);
    var s3 := Run(s2, b);
    TestsProgram(s3, d, true);
    var s4 := Run(s3, x);
    LockerEnds(s4, q, 0);
    RunJoin(s3, x, y);
    RunJoin(s2, b, x + y);
    RunJoin(s1, a, b + (x + y));
    assert ([Step(c, false, c, 0, true)] + (a + (b + (x + y))))[1..] == a + (b + (x + y));
  }

  /** A linker that is killed: the locker reads an exit code without asking whether the command
      exited, and where that yields 0 reports success for an incomplete program. */
  lemma KilledBuildPasses(s: State, c: Pid, p: Pid)
    requires Inv(s) && LiveCommand(s, c) && s.procs[c].cpc.Linking? && p == s.procs[c].locker
    ensures var s' := Run(s, [Kill(c), Good(p, p), Good(p, p), Good(p, p), Good(p, p)]);
      && p in s'.procs && s'.procs[p].Locker? && s'.procs[p].lpc == Exited(0)
      && HelperImage(s', s.procs[c].task.helper).Partial?
  {
    var e := Good(p, p);
    assert Attended(s, c) && CommandOk(s, c);
    LockerEnds(Next(s, Kill(c)), p, 0);
    assert [Kill(c), e, e, e, e][1..] == [e, e, e, e];
  }

  // ---- the sequence sysdep-system runs

  const ARCH: Helper := 0
  const CCTYPE: Helper := 1
  const OS: Helper := 2
  const CCVERSION: Helper := 3
  const CPUID: Helper := 4

  /** The last nine, from sd-cpufeat to sd-cpuclinesz, each take the lock of sd-cpuidx86. */
  const SYSDEP_PLAN: seq<Task> :=
    [Build(ARCH), Build(CCTYPE), Build(OS), Build(CCVERSION), Use(ARCH), Use(CCTYPE), Build(CPUID), Use(OS),
     Use(CCVERSION), Use(CPUID), Use(CPUID), Use(CPUID), Use(CPUID), Use(CPUID), Use(CPUID), Use(CPUID), Use(CPUID),
     Use(CPUID)]

  lemma SysdepPlanIsDisciplined()
    ensures Disciplined(SYSDEP_PLAN)
  {
    forall i | 0 <= i < |SYSDEP_PLAN| && SYSDEP_PLAN[i].Use?
      ensures Build(SYSDEP_PLAN[i].helper) in SYSDEP_PLAN[..i]
    {
      var h := SYSDEP_PLAN[i].helper;
      var j := if h < 4 then h else 6;
      assert SYSDEP_PLAN[..i][j] == Build(h);
    }
  }
}
