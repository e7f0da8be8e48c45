/** Stretches of a run in which one process moves alone. */
module Phases {
  import opened Protocol
  import opened MutualExclusion
  import opened CommandExclusion

  /** A step that succeeds. */
  function Good(p: Pid, newPid: Pid): Event {
    Step(p, true, newPid, 0, false)
  }

  lemma RunOfThree(s: State, a: Event, b: Event, c: Event)
    ensures Run(s, [a, b, c]) == Next(Next(Next(s, a), b), c)
  {
    assert [a, b, c][1..] == [b, c] && [b, c][1..] == [c] && [c][1..] == [];
    assert Run(Next(Next(s, a), b), [c]) == Run(Next(Next(Next(s, a), b), c), []);
  }

  lemma RunOfTwo(s: State, a: Event, b: Event)
    ensures Run(s, [a, b]) == Next(Next(s, a), b)
  {
    assert [a, b][1..] == [b] && [b][1..] == [];
    assert Run(Next(s, a), [b]) == Run(Next(Next(s, a), b), []);
  }

  /** A locker waiting for a lock that is free takes it and forks its command. */
  lemma TakesLock(s: State, q: Pid, d: Pid)
    requires q in s.procs && s.procs[q].Locker? && s.procs[q].lpc.Acquire? && d !in s.procs
    requires var l := LockOf(s.procs[q].task); l in s.locks.owner ==> s.locks.owner[l] == q
    ensures var s' := Run(s, [Good(q, d), Good(q, d), Good(q, d)]);
      && s'.files == s.files && q in s'.procs && s'.procs[q].Locker?
      && s'.procs[q].lpc == Wait(d) && s'.procs[q].task == s.procs[q].task
      && d in s'.procs && s'.procs[d] == Command(CloseFd, s.procs[q].task, q)
      && forall p :: p in s.procs && p != q ==> p in s'.procs && s'.procs[p] == s.procs[p]
  {
    var s1 := Next(s, Good(q, d));
    var s2 := Next(s1, Good(q, d));
    RunOfThree(s, Good(q, d), Good(q, d), Good(q, d));
  }

  /** A new builder tests for its program. */
  lemma TestsProgram(s: State, d: Pid, there: bool)
    requires d in s.procs && s.procs[d].Command? && s.procs[d].cpc.CloseFd? && s.procs[d].task.Build?
    ensures var s' := Run(s, [Good(d, d), Good(d, d), Step(d, there, d, 0, false)]);
      && s'.files == s.files && d in s'.procs && s'.procs[d].Command? && s'.procs[d].task == s.procs[d].task
      && (HelperImage(s, s.procs[d].task.helper).Partial? ==>
            s'.procs[d].cpc == if there then Gone(Code(0)) else Compile)
      && (HelperImage(s, s.procs[d].task.helper).Absent? ==> s'.procs[d].cpc.Compile?)
      && forall p :: p in s.procs && p != d ==> p in s'.procs && s'.procs[p] == s.procs[p]
  {
    var s1 := Next(s, Good(d, d));
    var s2 := Next(s1, Good(d, d));
    RunOfThree(s, Good(d, d), Good(d, d), Step(d, there, d, 0, false));
  }

  /** A builder compiles and links. */
  lemma LinksProgram(s: State, d: Pid)
    requires d in s.procs && s.procs[d].Command? && s.procs[d].cpc.Compile?
    ensures var s' := Run(s, [Good(d, d), Good(d, d), Good(d, d)]);
      && HelperImage(s', s.procs[d].task.helper).Complete?
      && Links(s', s.procs[d].task.helper) == Links(s, s.procs[d].task.helper) + 1
      && forall p :: p in s.procs && p != d ==> p in s'.procs && s'.procs[p] == s.procs[p]
  {
    var s1 := Next(s, Good(d, d));
    var s2 := Next(s1, Good(d, d));
    RunOfThree(s, Good(d, d), Good(d, d), Good(d, d));
  }

  /** A locker whose command has ended releases its lock and ends itself. */
  lemma LockerEnds(s: State, q: Pid, code: int)
    requires q in s.procs && s.procs[q].Locker? && s.procs[q].lpc.Wait?
    requires var c := s.procs[q].lpc.child; c in s.procs && s.procs[c].Command? && s.procs[c].cpc.Gone?
    requires var end := s.procs[s.procs[q].lpc.child].cpc.end; code == if end.Code? then end.code else 0
    ensures var s' := Run(s, [Good(q, q), Good(q, q), Good(q, q), Good(q, q)]);
      && s'.files == s.files && q in s'.procs && s'.procs[q].Locker? && s'.procs[q].lpc == Exited(code)
      && (forall l :: l in s'.locks.owner ==> l in s.locks.owner && s.locks.owner[l] == s'.locks.owner[l] != q)
      && s'.procs.Keys == s.procs.Keys
      && forall p :: p in s.procs && p != q ==> p in s'.procs && s'.procs[p] == s.procs[p]
  {
    var s1 := Next(s, Good(q, q));
    assert s1.procs[q].lpc.Release? && s1.procs[q].exitCode == code;
    var s2 := Next(s1, Good(q, q));
    var s3 := Next(s2, Good(q, q));
    RunOfFour(s, Good(q, q), Good(q, q), Good(q, q), Good(q, q));
  }
}
