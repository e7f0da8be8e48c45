/** Builds can succeed: from every initial state there is a run in which every shell finishes its
    plan. */
module Completion {
  import opened Protocol
  import opened CommandExclusion
  import opened BuildOnce
  import opened Phases

  predicate AtTask(s: State, p: Pid) {
    p in s.procs && s.procs[p].Shell? && s.procs[p].at < |s.procs[p].plan|
  }

  // ---- what a step reports

  /** A link that succeeds is reported as 0 and leaves the program complete; one that fails is not, and
      does not. */
  lemma LinkIsReported(s: State, c: Pid, ok: bool, leaves: bool)
    requires c in s.procs && s.procs[c].Command? && s.procs[c].cpc.Linking?
    ensures var r, h := CommandNext(s, c, ok, leaves), s.procs[c].task.helper;
      && r.procs[c].cpc.Gone? && r.procs[c].cpc.end.Code?
      && (r.procs[c].cpc.end.code == 0 <==> ok) && (HelperImage(r, h).Complete? <==> ok)
      && Links(r, h) == Links(s, h) + if ok then 1 else 0
  {
  }

  /** So is a program that runs, and a compilation that fails ends the command. */
  lemma RunIsReported(s: State, c: Pid, ok: bool, leaves: bool)
    requires c in s.procs && s.procs[c].Command?
    ensures var r := CommandNext(s, c, ok, leaves);
      && (s.procs[c].cpc.Running? ==>
            r.procs[c].cpc.Gone? && r.procs[c].cpc.end.Code? && (r.procs[c].cpc.end.code == 0 <==> ok))
      && (s.procs[c].cpc.Compile? && !ok ==>
            r.procs[c].cpc.Gone? && r.procs[c].cpc.end.Code? && r.procs[c].cpc.end.code != 0 && r.files == s.files)
  {
  }

  /** A command that cannot close its descriptor, or cannot be executed, reports that. */
  lemma NoExecIsReported(s: State, c: Pid, leaves: bool)
    requires c in s.procs && s.procs[c].Command? && (s.procs[c].cpc.CloseFd? || s.procs[c].cpc.Exec?)
    ensures var r := CommandNext(s, c, false, leaves);
      && r.procs[c].cpc.Gone? && r.procs[c].cpc.end.Code? && r.procs[c].cpc.end.code != 0 && r.files == s.files
  {
  }

  /** A refused call is the end of a locker, whatever it holds; the flag calls are none. */
  lemma RefusalIsFatal(s: State, p: Pid, newPid: Pid, junk: int)
    requires p in s.procs && s.procs[p].Locker? && !s.procs[p].lpc.Exited?
    requires !s.procs[p].lpc.SetFlag? && !s.procs[p].lpc.ClearFlag?
    ensures var r := LockerNext(s, p, false, newPid, junk);
      && r.procs[p].lpc == Exited(1) && r.files == s.files && r.procs.Keys == s.procs.Keys
      && (forall l :: l in r.locks.owner <==> l in s.locks.owner && s.locks.owner[l] != p)
      && (forall f :: f in r.locks.fds <==> f in s.locks.fds && f.0 != p)
  {
  }

  /** A copy of sd-locker that cannot be compiled or linked stops the shell, as does a missing
      sd-locker; a move that fails does not, and sd-locker is as it was in all these cases. */
  lemma CopyIsReported(s: State, p: Pid, ok: bool)
    requires AtTask(s, p)
    ensures var spc, r := s.procs[p].spc, ShellNext(s, p, ok, p);
      && (spc.TmpCompile? || spc.TmpLinking? ==> (r.procs[p].spc.Failed? <==> !ok))
      && (spc.Verify? ==> (r.procs[p].spc.Failed? <==> s.files.sdLocker.Absent?))
      && (spc.Move? ==> r.procs[p].spc.Verify?)
      && (!spc.Move? || !ok ==> r.files.sdLocker == s.files.sdLocker)
      && (spc.Move? && ok && p in s.files.temps ==> r.files.sdLocker == s.files.temps[p])
  {
  }

  /** The locker passes the exit code on, and the shell goes on when it is 0 or only a program's own. */
  lemma CodeIsPassedOn(s: State, p: Pid, q: Pid)
    requires p in s.procs && s.procs[p].Shell? && s.procs[p].spc == Waiting(q) && s.procs[p].at < |s.procs[p].plan|
    requires q in s.procs && s.procs[q].Locker? && s.procs[q].lpc.Exited?
    ensures var me, r := s.procs[p], ShellNext(s, p, true, p);
      if s.procs[q].lpc.code == 0 || me.plan[me.at].Use? then r.procs[p] == Shell(CheckLocker, me.plan, me.at + 1)
      else r.procs[p] == Shell(Failed, me.plan, me.at)
  {
  }

  /** A shell has finished only when it is through with its plan. */
  predicate ThroughAtEnd(s: State, p: Pid) {
    p in s.procs && s.procs[p].Shell? && s.procs[p].spc.Finished? ==> s.procs[p].at >= |s.procs[p].plan|
  }

  lemma StepKeepsThrough(s: State, e: Event, p: Pid)
    requires ThroughAtEnd(s, p)
    ensures ThroughAtEnd(Next(s, e), p)
  {
  }

  lemma {:induction false} RunKeepsThrough(s: State, es: seq<Event>, p: Pid)
    requires ThroughAtEnd(s, p)
    ensures ThroughAtEnd(Run(s, es), p)
    decreases |es|
  {
    if es != [] {
      StepKeepsThrough(s, es[0], p);
      RunKeepsThrough(Next(s, es[0]), es[1..], p);
    }
  }

  /** In any undisturbed run a shell that has finished has every program of its plan complete. */
  lemma FinishedMeansDone(s0: State, es: seq<Event>, p: Pid, i: nat)
    requires Start(s0) && Clean(s0, es)
    requires var s := Run(s0, es);
      p in s.procs && s.procs[p].Shell? && s.procs[p].spc.Finished? && i < |s.procs[p].plan|
    ensures var s := Run(s0, es); HelperImage(s, s.procs[p].plan[i].helper).Complete?
  {
    var s := Run(s0, es);
    RunKeepsThrough(s0, es, p);
    InitBuilds(s0);
    RunKeepsInv(s0, es);
    assert ShellBuilt(s, p);
    var plan := s.procs[p].plan;
    if plan[i].Use? {
      var j :| 0 <= j < i && plan[..i][j] == Build(plan[i].helper);
      BuiltMeansComplete(s0, es, p, j, p);
    } else {
      BuiltMeansComplete(s0, es, p, i, p);
    }
  }

  // ---- runs, step by step

  lemma Then(s: State, es: seq<Event>, e: Event) returns (more: seq<Event>)
    ensures more == es + [e] && Run(s, more) == Next(Run(s, es), e)
  {
    more := es + [e];
    RunJoin(s, es, [e]);
    assert [e][1..] == [];
    assert Run(Run(s, es), [e]) == Run(Next(Run(s, es), e), []);
  }

  const FREE: Locks := Locks(map[], {})

  /** The lock is held by the locker q, with the file open in the given processes. */
  function Held(q: Pid, l: LockFile, open: set<Pid>): Locks {
    Locks(map[l := q], set x | x in open :: (x, l))
  }

  /** Nothing but the given process, and sd-locker and its copies, has changed. */
  predicate OnlyShell(s: State, p: Pid, me: Proc, s': State) {
    && s'.procs == s.procs[p := me] && s'.locks == s.locks
    && s'.files.helpers == s.files.helpers && s'.files.links == s.files.links
  }

  lemma BuildsLocker(s: State, p: Pid) returns (es: seq<Event>)
    requires AtTask(s, p) && s.procs[p].spc.CheckLocker? && s.files.sdLocker.Absent?
    ensures OnlyShell(s, p, s.procs[p].(spc := Verify), Run(s, es)) && Run(s, es).files.sdLocker.Complete?
  {
    var e := Good(p, p);
    es := Then(s, [], e);
    es := Then(s, es, e);
    es := Then(s, es, e);
    es := Then(s, es, e);
    es := Then(s, es, e);
  }

  lemma GetsLocker(s: State, p: Pid) returns (es: seq<Event>)
    requires AtTask(s, p) && s.procs[p].spc.CheckLocker? && !s.files.sdLocker.Partial?
    ensures OnlyShell(s, p, s.procs[p].(spc := ExecLocker), Run(s, es)) && Run(s, es).files.sdLocker.Complete?
  {
    if s.files.sdLocker.Absent? {
      es := BuildsLocker(s, p);
    } else {
      es := Then(s, [], Good(p, p));
    }
    es := Then(s, es, Good(p, p));
  }

  /** A new locker gets its lock at once, when nobody has it, and forks the command. */
  lemma LockerStarts(s: State, q: Pid, d: Pid) returns (es: seq<Event>)
    requires q in s.procs && s.procs[q].Locker? && s.procs[q].lpc.Open? && !s.procs[q].locked && d !in s.procs
    requires s.locks == FREE
    ensures var t := s.procs[q].task;
      && Run(s, es).files == s.files && Run(s, es).locks == Held(q, LockOf(t), {q, d})
      && Run(s, es).procs == s.procs[d := Command(CloseFd, t, q)][q := s.procs[q].(lpc := Wait(d), locked := true)]
  {
    es := Then(s, [], Good(q, d));
    es := Then(s, es, Good(q, d));
    es := Then(s, es, Good(q, d));
    es := Then(s, es, Good(q, d));
  }

  /** What a task does to the programs: its own is complete, and has been linked if it was not there. */
  ghost predicate Did(s: State, t: Task, s': State) {
    && (forall h :: h != t.helper ==> HelperImage(s', h) == HelperImage(s, h) && Links(s', h) == Links(s, h))
    && HelperImage(s', t.helper).Complete?
    && Links(s', t.helper) == Links(s, t.helper) + if HelperImage(s, t.helper).Complete? then 0 else 1
  }

  ghost predicate CanDo(s: State, t: Task) {
    !HelperImage(s, t.helper).Partial? && (t.Use? ==> HelperImage(s, t.helper).Complete?)
  }

  /** The command closes its copy of the descriptor. */
  lemma CommandStarts(s: State, d: Pid, q: Pid) returns (es: seq<Event>)
    requires d in s.procs && s.procs[d].Command? && s.procs[d].cpc.CloseFd? && q != d
    requires s.locks == Held(q, LockOf(s.procs[d].task), {q, d})
    ensures Run(s, es).procs == s.procs[d := s.procs[d].(cpc := Exec)] && Run(s, es).files == s.files
    ensures Run(s, es).locks == Held(q, LockOf(s.procs[d].task), {q})
  {
    es := Then(s, [], Good(d, d));
    assert Run(s, es).locks.fds == Held(q, LockOf(s.procs[d].task), {q}).fds;
  }

  lemma EndKeepsHeld(q: Pid, l: LockFile, d: Pid)
    requires q != d
    ensures Ended(Held(q, l, {q}), d) == Held(q, l, {q})
  {
    assert Ended(Held(q, l, {q}), d).owner == Held(q, l, {q}).owner;
  }

  lemma CommandWorks(s: State, d: Pid, q: Pid, l: LockFile) returns (es: seq<Event>)
    requires d in s.procs && s.procs[d].Command? && s.procs[d].cpc.Exec? && q != d && CanDo(s, s.procs[d].task)
    requires s.locks == Held(q, l, {q})
    ensures Run(s, es).procs == s.procs[d := s.procs[d].(cpc := Gone(Code(0)))] && Run(s, es).locks == s.locks
    ensures Did(s, s.procs[d].task, Run(s, es)) && Run(s, es).files.sdLocker == s.files.sdLocker
  {
    EndKeepsHeld(q, l, d);
    es := Then(s, [], Good(d, d));
    es := Then(s, es, Good(d, d));
    if s.procs[d].task.Build? && HelperImage(s, s.procs[d].task.helper).Absent? {
      es := Then(s, es, Good(d, d));
      es := Then(s, es, Good(d, d));
      es := Then(s, es, Good(d, d));
    }
  }

  /** The locker sees the command end, and ends with its code. */
  lemma LockerFinishes(s: State, q: Pid, d: Pid) returns (es: seq<Event>)
    requires q in s.procs && s.procs[q].Locker? && s.procs[q].lpc == Wait(d)
    requires s.locks == Held(q, LockOf(s.procs[q].task), {q})
    requires d in s.procs && s.procs[d].Command? && s.procs[d].cpc == Gone(Code(0))
    ensures Run(s, es).procs == s.procs[q := Locker(Exited(0), s.procs[q].task, false, 0)]
    ensures Run(s, es).locks == FREE && Run(s, es).files == s.files
  {
    es := Then(s, [], Good(q, q));
    es := Then(s, es, Good(q, q));
    assert Run(s, es).locks.owner == map[];
    es := Then(s, es, Good(q, q));
    es := Then(s, es, Good(q, q));
    assert Run(s, es).locks == FREE;
  }

  lemma Join(s: State, a: seq<Event>, b: seq<Event>) returns (es: seq<Event>)
    ensures Run(s, es) == Run(Run(s, a), b)
  {
    RunJoin(s, a, b);
    es := a + b;
  }

  predicate SamePrograms(a: State, b: State) {
    a.files.helpers == b.files.helpers && a.files.links == b.files.links
  }

  lemma DidBetween(a: State, s: State, t: Task, s': State, b: State)
    requires Did(s, t, s') && SamePrograms(a, s) && SamePrograms(s', b)
    ensures Did(a, t, b)
  {
    assert forall h :: HelperImage(a, h) == HelperImage(s, h) && Links(a, h) == Links(s, h);
    assert forall h :: HelperImage(b, h) == HelperImage(s', h) && Links(b, h) == Links(s', h);
  }

  lemma CanDoSame(a: State, b: State, t: Task)
    requires CanDo(a, t) && SamePrograms(a, b)
    ensures CanDo(b, t)
  {
    assert HelperImage(a, t.helper) == HelperImage(b, t.helper);
  }

  /** The command of a locker, to its end. */
  lemma CommandDoes(s: State, d: Pid, q: Pid, t: Task) returns (es: seq<Event>)
    requires d in s.procs && s.procs[d] == Command(CloseFd, t, q) && q != d && CanDo(s, t)
    requires s.locks == Held(q, LockOf(t), {q, d})
    ensures Run(s, es).procs == s.procs[d := Command(Gone(Code(0)), t, q)]
    ensures Run(s, es).locks == Held(q, LockOf(t), {q})
    ensures Did(s, t, Run(s, es)) && Run(s, es).files.sdLocker == s.files.sdLocker
  {
    es := CommandStarts(s, d, q);
    var s1 := Run(s, es);
    CanDoSame(s, s1, t);
    var more := CommandWorks(s1, d, q, LockOf(t));
    DidBetween(s, s1, t, Run(s1, more), Run(s1, more));
    es := Join(s, es, more);
  }

  /** A new locker and its command, to their ends. */
  lemma LockerDoes(s: State, q: Pid, d: Pid, t: Task) returns (es: seq<Event>)
    requires q in s.procs && s.procs[q] == Locker(Open, t, false, 0) && d !in s.procs && s.locks == FREE && CanDo(s, t)
    ensures Run(s, es).procs == s.procs[d := Command(Gone(Code(0)), t, q)][q := Locker(Exited(0), t, false, 0)]
    ensures Run(s, es).locks == FREE && Did(s, t, Run(s, es)) && Run(s, es).files.sdLocker == s.files.sdLocker
  {
    es := LockerStarts(s, q, d);
    var s1 := Run(s, es);
    CanDoSame(s, s1, t);
    var more := CommandDoes(s1, d, q, t);
    es := Join(s, es, more);
    var s2 := Run(s1, more);
    more := LockerFinishes(s2, q, d);
    es := Join(s, es, more);
    DidBetween(s, s1, t, s2, Run(s2, more));
  }

  /** One task of a shell. */
  lemma DoesTask(s: State, p: Pid, q: Pid, d: Pid) returns (es: seq<Event>)
    requires AtTask(s, p) && s.procs[p].spc.CheckLocker? && !s.files.sdLocker.Partial? && s.locks == FREE
    requires q !in s.procs && d !in s.procs && q != d && CanDo(s, s.procs[p].plan[s.procs[p].at])
    ensures var me := s.procs[p]; var t, s' := me.plan[me.at], Run(s, es);
      && s'.procs
         == s.procs[d := Command(Gone(Code(0)), t, q)][q := Locker(Exited(0), t, false, 0)][p := me.(at := me.at + 1)]
      && s'.locks == FREE && Did(s, t, s') && s'.files.sdLocker.Complete?
  {
    var me := s.procs[p];
    var t := me.plan[me.at];
    es := GetsLocker(s, p);
    es := Then(s, es, Good(p, q));
    var s1 := Run(s, es);
    CanDoSame(s, s1, t);
    var more := LockerDoes(s1, q, d, t);
    es := Join(s, es, more);
    var s2 := Run(s1, more);
    es := Then(s, es, Good(p, p));
    DidBetween(s, s1, t, s2, Run(s, es));
  }

  // ---- a whole plan

  /** A locker that ended well, or its command. */
  predicate Served(proc: Proc) {
    match proc
    case Shell(_, _, _) => false
    case Locker(pc, _, _, _) => pc == Exited(0)
    case Command(pc, _, _) => pc == Gone(Code(0))
  }

  /** A program stays complete; it is linked once when it becomes so. */
  ghost predicate Tally(s0: State, s: State, h: Helper) {
    && !HelperImage(s, h).Partial?
    && (HelperImage(s0, h).Complete? ==> HelperImage(s, h).Complete?)
    && Links(s, h) == Links(s0, h) + if HelperImage(s, h).Complete? && !HelperImage(s0, h).Complete? then 1 else 0
  }

  /** The program is complete, and a locker that was not there before ran the task and ended with 0. */
  ghost predicate Done(s0: State, s: State, t: Task) {
    && HelperImage(s, t.helper).Complete?
    && exists q :: q !in s0.procs && q in s.procs && s.procs[q] == Locker(Exited(0), t, false, 0)
  }

  /** Only the shell p has moved since, with the lockers it started. */
  ghost predicate OnlyItMoved(s0: State, s: State, p: Pid) {
    && (forall q :: q in s0.procs && q != p ==> q in s.procs && s.procs[q] == s0.procs[q])
    && (forall q :: q in s.procs && q !in s0.procs ==> Served(s.procs[q]))
    && s.locks == FREE && !s.files.sdLocker.Partial?
    && forall h :: Tally(s0, s, h)
  }

  /** The first n tasks of its plan are done. */
  ghost predicate Since(s0: State, s: State, p: Pid, plan: seq<Task>, n: nat) {
    && p in s0.procs && p in s.procs && n <= |plan| && s.procs[p] == Shell(CheckLocker, plan, n)
    && OnlyItMoved(s0, s, p)
    && forall i :: 0 <= i < n ==> Done(s0, s, plan[i])
  }

  lemma TallyOn(s0: State, s: State, t: Task, s': State, h: Helper)
    requires Tally(s0, s, h) && Tally(s0, s, t.helper) && Did(s, t, s')
    ensures Tally(s0, s', h)
  {
  }

  lemma DoneOn(s0: State, s: State, t: Task, s': State, u: Task)
    requires Done(s0, s, u) && Did(s, t, s')
    requires forall q :: q in s.procs && s.procs[q].Locker? ==> q in s'.procs && s'.procs[q] == s.procs[q]
    ensures Done(s0, s', u)
  {
    var q :| q !in s0.procs && q in s.procs && s.procs[q] == Locker(Exited(0), u, false, 0);
    assert s'.procs[q] == Locker(Exited(0), u, false, 0);
  }

  /** The task at hand can be done: what it uses has been built. */
  lemma TaskCanBeDone(s0: State, s: State, p: Pid, plan: seq<Task>, n: nat)
    requires Since(s0, s, p, plan, n) && n < |plan| && Disciplined(plan)
    ensures CanDo(s, plan[n])
  {
    assert Tally(s0, s, plan[n].helper);
    if plan[n].Use? {
      var i :| 0 <= i < n && plan[..n][i] == Build(plan[n].helper);
      assert Done(s0, s, plan[i]);
    }
  }

  /** What a finished task leaves of the processes. */
  function WithTask(procs: map<Pid, Proc>, p: Pid, q: Pid, d: Pid, plan: seq<Task>, n: nat): map<Pid, Proc>
    requires n < |plan|
  {
    procs[d := Command(Gone(Code(0)), plan[n], q)][q := Locker(Exited(0), plan[n], false, 0)]
      [p := Shell(CheckLocker, plan, n + 1)]
  }

  lemma OneMoreDone(s0: State, s: State, p: Pid, plan: seq<Task>, n: nat, q: Pid, d: Pid, s': State)
    requires Since(s0, s, p, plan, n) && n < |plan| && q !in s.procs && d !in s.procs && q != d
    requires s'.procs == WithTask(s.procs, p, q, d, plan, n) && Did(s, plan[n], s')
    ensures forall i :: 0 <= i < n + 1 ==> Done(s0, s', plan[i])
  {
    forall i | 0 <= i < n + 1 ensures Done(s0, s', plan[i]) {
      if i < n {
        DoneOn(s0, s, plan[n], s', plan[i]);
      } else {
        assert s'.procs[q] == Locker(Exited(0), plan[n], false, 0);
      }
    }
  }

  lemma SinceThen(s0: State, s: State, p: Pid, plan: seq<Task>, n: nat, q: Pid, d: Pid, s': State)
    requires Since(s0, s, p, plan, n) && n < |plan| && q !in s.procs && d !in s.procs && q != d
    requires s'.procs == WithTask(s.procs, p, q, d, plan, n) && Did(s, plan[n], s')
    requires s'.locks == FREE && s'.files.sdLocker.Complete?
    ensures Since(s0, s', p, plan, n + 1)
  {
    forall h ensures Tally(s0, s', h) { TallyOn(s0, s, plan[n], s', h); }
    OneMoreDone(s0, s, p, plan, n, q, d, s');
  }

  lemma NextTask(s0: State, s: State, p: Pid, plan: seq<Task>, n: nat) returns (es: seq<Event>)
    requires Since(s0, s, p, plan, n) && n < |plan| && Disciplined(plan)
    ensures Since(s0, Run(s, es), p, plan, n + 1)
  {
    TaskCanBeDone(s0, s, p, plan, n);
    var q := PidsAreBounded(s.procs.Keys);
    assert q !in s.procs.Keys && q + 1 !in s.procs.Keys;
    es := DoesTask(s, p, q, q + 1);
    var s' := Run(s, es);
    SinceThen(s0, s, p, plan, n, q, q + 1, s');
  }

  lemma {:induction false} PlanGoesOn(s0: State, s: State, p: Pid, plan: seq<Task>, n: nat) returns (es: seq<Event>)
    requires Since(s0, s, p, plan, n) && Disciplined(plan)
    ensures Since(s0, Run(s, es), p, plan, |plan|)
    decreases |plan| - n
  {
    es := [];
    if n < |plan| {
      es := NextTask(s0, s, p, plan, n);
      var more := PlanGoesOn(s0, Run(s, es), p, plan, n + 1);
      es := Join(s, es, more);
    }
  }

  /** Nothing is under way. */
  ghost predicate Idle(s: State) {
    s.locks == FREE && !s.files.sdLocker.Partial? && forall h :: !HelperImage(s, h).Partial?
  }

  /** The shell has finished, all its tasks are done, and nothing else has happened. */
  ghost predicate Finishes(s0: State, s: State, p: Pid)
    requires p in s0.procs && s0.procs[p].Shell?
  {
    var plan := s0.procs[p].plan;
    && p in s.procs && s.procs[p] == Shell(Finished, plan, |plan|)
    && OnlyItMoved(s0, s, p) && forall i :: 0 <= i < |plan| ==> Done(s0, s, plan[i])
  }

  lemma ShellCanFinish(s0: State, p: Pid) returns (es: seq<Event>)
    requires Idle(s0) && p in s0.procs && s0.procs[p].Shell? && s0.procs[p].spc.CheckLocker? && s0.procs[p].at == 0
    requires Disciplined(s0.procs[p].plan)
    ensures Finishes(s0, Run(s0, es), p)
  {
    var plan := s0.procs[p].plan;
    es := PlanGoesOn(s0, s0, p, plan, 0);
    var s := Run(s0, es);
    es := Then(s0, es, Good(p, p));
    var s' := Run(s0, es);
    forall h ensures Tally(s0, s', h) { assert Tally(s0, s, h); }
    forall i | 0 <= i < |plan| ensures Done(s0, s', plan[i]) { FinishedStillDone(s0, s, p, s', plan[i]); }
  }

  lemma FinishedStillDone(s0: State, s: State, p: Pid, s': State, t: Task)
    requires Done(s0, s, t) && p in s0.procs && p in s'.procs && s'.procs == s.procs[p := s'.procs[p]]
    requires s'.files == s.files
    ensures Done(s0, s', t)
  {
    var q :| q !in s0.procs && q in s.procs && s.procs[q] == Locker(Exited(0), t, false, 0);
    assert s'.procs[q] == s.procs[q];
  }

  /** From every initial state with a shell whose plan builds programs before it uses them, there is a
      run that ends with that shell finished, one locker for each task that ended with 0 and no other,
      every program of its plan complete, and each that was absent linked exactly once. */
  lemma BuildCompletes(s0: State, p: Pid) returns (es: seq<Event>)
    requires Init(s0) && p in s0.procs && Disciplined(s0.procs[p].plan)
    ensures var s, plan := Run(s0, es), s0.procs[p].plan;
      && p in s.procs && s.procs[p] == Shell(Finished, plan, |plan|)
      && (forall q :: q in s.procs && s.procs[q].Locker? ==> s.procs[q].lpc == Exited(0))
      && (forall i :: 0 <= i < |plan| ==> Done(s0, s, plan[i]))
      && (forall i :: 0 <= i < |plan| ==>
            HelperImage(s, plan[i].helper).Complete?
            && Links(s, plan[i].helper) == if HelperImage(s0, plan[i].helper).Absent? then 1 else 0)
  {
    es := ShellCanFinish(s0, p);
    var s, plan := Run(s0, es), s0.procs[p].plan;
    forall i | 0 <= i < |plan|
      ensures HelperImage(s, plan[i].helper).Complete?
      ensures Links(s, plan[i].helper) == if HelperImage(s0, plan[i].helper).Absent? then 1 else 0
    {
      assert Done(s0, s, plan[i]) && Tally(s0, s, plan[i].helper);
    }
  }

  // ---- all shells

  lemma TallyTrans(a: State, b: State, c: State, h: Helper)
    requires Tally(a, b, h) && Tally(b, c, h)
    ensures Tally(a, c, h)
  {
  }

  /** The shells still to come are about to start. */
  ghost predicate ToDo(s: State, todo: set<Pid>) {
    forall p :: p in todo ==>
      p in s.procs && s.procs[p].Shell? && s.procs[p].spc.CheckLocker? && s.procs[p].at == 0
      && Disciplined(s.procs[p].plan)
  }

  /** They have finished, and their programs are complete. */
  ghost predicate AllDone(s0: State, s: State, todo: set<Pid>)
    requires ToDo(s0, todo)
  {
    forall p :: p in todo ==>
      && p in s.procs && s.procs[p] == Shell(Finished, s0.procs[p].plan, |s0.procs[p].plan|)
      && forall i :: 0 <= i < |s0.procs[p].plan| ==> HelperImage(s, s0.procs[p].plan[i].helper).Complete?
  }

  lemma {:induction false} ShellsCanFinish(s0: State, todo: set<Pid>) returns (es: seq<Event>)
    requires Idle(s0) && ToDo(s0, todo)
    ensures var s := Run(s0, es);
      && Idle(s) && (forall h :: Tally(s0, s, h)) && AllDone(s0, s, todo)
      && forall q :: q in s0.procs && q !in todo ==> q in s.procs && s.procs[q] == s0.procs[q]
    decreases |todo|
  {
    es := [];
    if todo != {} {
      var p :| p in todo;
      es := ShellCanFinish(s0, p);
      var s1 := Run(s0, es);
      forall h ensures !HelperImage(s1, h).Partial? { assert Tally(s0, s1, h); }
      var more := ShellsCanFinish(s1, todo - {p});
      var s := Run(s1, more);
      es := Join(s0, es, more);
      forall h ensures Tally(s0, s, h) { TallyTrans(s0, s1, s, h); }
      forall i | 0 <= i < |s0.procs[p].plan| ensures HelperImage(s, s0.procs[p].plan[i].helper).Complete? {
        assert Done(s0, s1, s0.procs[p].plan[i]) && Tally(s1, s, s0.procs[p].plan[i].helper);
      }
    }
  }

  /** And there is one in which all shells finish, however many there are: each program that was absent
      and that some plan asks for is linked exactly once among them all. */
  lemma BuildsComplete(s0: State) returns (es: seq<Event>)
    requires Start(s0)
    ensures var s := Run(s0, es);
      && (forall p :: p in s0.procs ==>
            p in s.procs && s.procs[p] == Shell(Finished, s0.procs[p].plan, |s0.procs[p].plan|))
      && (forall p, i :: p in s0.procs && 0 <= i < |s0.procs[p].plan| ==>
            var h := s0.procs[p].plan[i].helper;
            HelperImage(s, h).Complete? && Links(s, h) == if HelperImage(s0, h).Absent? then 1 else 0)
  {
    es := ShellsCanFinish(s0, s0.procs.Keys);
    var s := Run(s0, es);
    forall p, i | p in s0.procs && 0 <= i < |s0.procs[p].plan|
      ensures var h := s0.procs[p].plan[i].helper;
        HelperImage(s, h).Complete? && Links(s, h) == if HelperImage(s0, h).Absent? then 1 else 0
    {
      assert p in s0.procs.Keys && Tally(s0, s, s0.procs[p].plan[i].helper);
    }
    forall p | p in s0.procs
      ensures p in s.procs && s.procs[p] == Shell(Finished, s0.procs[p].plan, |s0.procs[p].plan|)
    {
      assert p in s0.procs.Keys;
    }
  }
}
