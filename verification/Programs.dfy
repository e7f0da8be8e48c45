/** The three programs of the protocol as they are written: sd-locker, sd-compile, and the shell
    functions that start them.  Between any two of a program's steps the other processes may do
    anything; every execution is a run of the transition system, so what is proved of all runs
    holds at every point of these programs. */
module Programs {
  import opened Protocol
  import opened MutualExclusion
  import opened CommandExclusion
  import opened Bootstrap
  import opened BuildOnce

  /** The outcome of a call, which the system grants if it grants everything. */
  method Outcome(grants: bool) returns (ok: bool)
    ensures grants ==> ok
  {
    ok := *;
    ok := ok || grants;
  }

  /** The system all processes run on. */
  class Machine {
    var state: State
    ghost const start: State
    ghost var history: seq<Event>
    /** The last step, and the state it was taken in. */
    ghost var last: Event
    ghost var before: State

    ghost predicate Valid()
      reads this
    {
      Start(start) && state == Run(start, history)
    }

    constructor (s: State)
      requires Start(s)
      ensures Valid() && state == s && history == []
    {
      state := s;
      start, before := s, s;
      history := [];
      last := Kill(0);
    }

    method Perform(e: Event)
      requires Valid()
      modifies this
      ensures Valid() && state == Next(before, e) && before == old(state) && last == e && history == old(history) + [e]
      ensures old(state).files.sdLocker.Complete? ==> state.files.sdLocker.Complete?
    {
      LockerIsWhole(start, history, [e], 0);
      RunJoin(start, history, [e]);
      assert [e][1..] == [];
      before, last := state, e;
      state := Next(state, e);
      history := history + [e];
    }

    /** Any number of steps of processes other than p. */
    method OthersRun(p: Pid)
      requires Valid() && p in state.procs
      modifies this
      ensures Valid() && p in state.procs && state.procs[p] == old(state.procs[p])
      ensures old(state).files.sdLocker.Complete? ==> state.files.sdLocker.Complete?
    {
      var n: nat := *;
      while n > 0
        invariant Valid() && p in state.procs && state.procs[p] == old(state.procs[p])
        invariant old(state).files.sdLocker.Complete? ==> state.files.sdLocker.Complete?
        decreases n
      {
        var e: Event := *;
        if e.pid != p { Perform(e); }
        n := n - 1;
      }
    }

    /** One step of p, after whatever the others did, with the given or any outcome. */
    method StepOf(p: Pid, ok: bool)
      requires Valid() && p in state.procs
      modifies this
      ensures Valid()
      ensures p in before.procs && before.procs[p] == old(state.procs[p]) && state == Next(before, last)
      ensures last.Step? && last.pid == p && last.ok == ok && last.newPid !in before.procs
      ensures old(state).files.sdLocker.Complete? ==> before.files.sdLocker.Complete?
      ensures BootInv(before)
    {
      OthersRun(p);
      RunKeepsBoot(start, history);
      ghost var bound := PidsAreBounded(state.procs.Keys);
      assert bound !in state.procs.Keys;
      var newPid: Pid :| newPid !in state.procs.Keys;
      var junk: int, leaves: bool := *, *;
      Perform(Step(p, ok, newPid, junk, leaves));
    }

    predicate LockerAt(p: Pid)
      reads this
    {
      p in state.procs && state.procs[p].Locker?
    }

    /** What holds of a locker wherever it is. */
    lemma LockerKnows(p: Pid)
      requires Valid() && LockerAt(p)
      ensures var me := state.procs[p];
        && (Holds(me.lpc) <==> LockOf(me.task) in state.locks.owner && state.locks.owner[LockOf(me.task)] == p)
        && (!me.lpc.Exited? ==> (me.locked <==> Flagged(me.lpc)))
    {
      LockersExclude(start, history, p, p);
    }

    // ---- sd-locker: each function returns whether the program goes on

    /** sd_locker_lock_file_open */
    method LockFileOpen(p: Pid, grants: bool) returns (on: bool)
      requires Valid() && LockerAt(p) && state.procs[p].lpc.Open?
      modifies this
      ensures Valid() && LockerAt(p) && state.procs[p].task == old(state.procs[p]).task
      ensures if on then state.procs[p].lpc.Acquire? else state.procs[p].lpc == Exited(1)
      ensures grants ==> on
    {
      on := Outcome(grants);
      StepOf(p, on);
    }

    /** Another process has the lock that p needs. */
    predicate HeldByOther(s: State, p: Pid) {
      && p in s.procs && s.procs[p].Locker?
      && var l := LockOf(s.procs[p].task); l in s.locks.owner && s.locks.owner[l] != p
    }

    /** sd_locker_lock_acquire: fcntl may fail, and may not have returned after any number of looks,
        for as long as another has the lock. */
    method LockAcquire(p: Pid, looks: nat, grants: bool) returns (on: bool)
      requires Valid() && LockerAt(p) && state.procs[p].lpc.Acquire?
      modifies this
      ensures Valid() && LockerAt(p) && state.procs[p].task == old(state.procs[p]).task
      ensures if on then state.procs[p].lpc.Fork? else state.procs[p].lpc.Acquire? || state.procs[p].lpc == Exited(1)
      ensures grants && !on ==> state.procs[p].lpc.Acquire?
      ensures !on && state.procs[p].lpc.Acquire? && looks > 0 ==> HeldByOther(before, p)
    {
      LockerKnows(p);
      assert !state.procs[p].locked;
      var tries := looks;
      while tries > 0 && state.procs[p].lpc.Acquire?
        invariant Valid() && LockerAt(p) && state.procs[p].task == old(state.procs[p]).task
        invariant state.procs[p].lpc.Acquire? || state.procs[p].lpc.SetFlag? || state.procs[p].lpc == Exited(1)
        invariant grants ==> !state.procs[p].lpc.Exited?
        invariant tries < looks && state.procs[p].lpc.Acquire? ==> HeldByOther(before, p)
        decreases tries
      {
        var ok := Outcome(grants);
        StepOf(p, ok);
        tries := tries - 1;
      }
      on := state.procs[p].lpc.SetFlag?;
      if on { StepOf(p, true); }
    }

    /** The command p waits for has ended; if it exited, with the given code. */
    predicate ReadsCode(s: State, p: Pid, code: int) {
      && p in s.procs && s.procs[p].Locker? && s.procs[p].lpc.Wait?
      && var c := s.procs[p].lpc.child;
         c in s.procs && s.procs[c].Command? && s.procs[c].cpc.Gone?
         && (s.procs[c].cpc.end.Code? ==> code == s.procs[c].cpc.end.code)
    }

    /** sd_locker_execute: fork, and waitpid, which may likewise fail or not have returned.  The
        program asserts that it is locked; and so it is, in the system's table too. */
    method Execute(p: Pid, looks: nat, grants: bool) returns (on: bool)
      requires Valid() && LockerAt(p) && state.procs[p].lpc.Fork?
      modifies this
      ensures Valid() && LockerAt(p) && state.procs[p].task == old(state.procs[p]).task
      ensures if on then state.procs[p].lpc.Release? else state.procs[p].lpc.Wait? || state.procs[p].lpc == Exited(1)
      ensures grants && !on ==> state.procs[p].lpc.Wait?
      ensures on ==> ReadsCode(before, p, state.procs[p].exitCode)
    {
      LockerKnows(p);
      assert state.procs[p].locked && state.locks.owner[LockOf(state.procs[p].task)] == p;
      var forked := Outcome(grants);
      StepOf(p, forked);
      var tries := looks;
      while tries > 0 && state.procs[p].lpc.Wait?
        invariant Valid() && LockerAt(p) && state.procs[p].task == old(state.procs[p]).task
        invariant state.procs[p].lpc.Wait? || state.procs[p].lpc.Release? || state.procs[p].lpc == Exited(1)
        invariant grants ==> !state.procs[p].lpc.Exited?
        invariant state.procs[p].lpc.Release? ==> ReadsCode(before, p, state.procs[p].exitCode)
        decreases tries
      {
        var ok := Outcome(grants);
        StepOf(p, ok);
        tries := tries - 1;
      }
      on := state.procs[p].lpc.Release?;
    }

    /** sd_locker_lock_release, and the flag. */
    method LockRelease(p: Pid, grants: bool) returns (on: bool)
      requires Valid() && LockerAt(p) && state.procs[p].lpc.Release?
      modifies this
      ensures Valid() && LockerAt(p) && state.procs[p].task == old(state.procs[p]).task
      ensures state.procs[p].exitCode == old(state.procs[p]).exitCode
      ensures if on then state.procs[p].lpc.Close? else state.procs[p].lpc == Exited(1)
      ensures grants ==> on
    {
      LockerKnows(p);
      assert state.procs[p].locked && state.locks.owner[LockOf(state.procs[p].task)] == p;
      on := Outcome(grants);
      StepOf(p, on);
      if on { StepOf(p, true); }
    }

    /** The main program of sd-locker.  When it ends well in an execution that abandons and spoils
        nothing, the program it was to build or run is complete. */
    method LockerMain(p: Pid, looks: nat, grants: bool) returns (code: int)
      requires Valid() && LockerAt(p) && state.procs[p].lpc.Open?
      modifies this
      ensures Valid() && LockerAt(p)
      ensures state.procs[p].lpc.Exited? ==> state.procs[p].lpc.code == code
      ensures code == 0 ==> state.procs[p].lpc.Exited?
      ensures state.procs[p].lpc.Exited? ==> code == 1 || code == state.procs[p].exitCode
      ensures grants ==>
        state.procs[p].lpc.Acquire? || state.procs[p].lpc.Wait? || state.procs[p].lpc == Exited(state.procs[p].exitCode)
      ensures code == 0 && Clean(start, history) ==> HelperImage(state, old(state.procs[p]).task.helper).Complete?
    {
      ghost var task := state.procs[p].task;
      code := 1;
      var on := LockFileOpen(p, grants);
      if !on { return; }
      on := LockAcquire(p, looks, grants);
      if !on { return; }
      on := Execute(p, looks, grants);
      if !on { return; }
      on := LockRelease(p, grants);
      if !on { return; }
      var closed := Outcome(grants);
      code := if closed then state.procs[p].exitCode else 1;
      StepOf(p, closed);
      if Clean(start, history) {
        InitBuilds(start);
        RunKeepsInv(start, history);
        assert LockerBuilt(state, p);
      }
    }

    // ---- sd-compile

    predicate CommandAt(c: Pid)
      reads this
    {
      c in state.procs && state.procs[c].Command?
    }

    /** sd-compile: nothing to do when the result is executable, else compile and link. */
    method SdCompile(c: Pid, grants: bool) returns (code: int)
      requires Valid() && CommandAt(c) && state.procs[c].cpc.Test? && state.procs[c].task.Build?
      modifies this
      ensures Valid() && CommandAt(c) && state.procs[c].cpc == Gone(Code(code)) && (code == 0 || code == 1)
      ensures grants ==> code == 0
      ensures state == Next(before, last) && last.Step? && c in before.procs && before.procs[c].Command?
      ensures match before.procs[c].cpc
        case Linking => code == 0 <==> last.ok
        case Compile => code == 1
        case _ => code == 0
      ensures code == 0 && Clean(start, history) ==> HelperImage(state, old(state.procs[c]).task.helper).Complete?
    {
      var executable: bool := *;
      StepOf(c, executable);
      if state.procs[c].cpc.Compile? {
        var compiled := Outcome(grants);
        StepOf(c, compiled);
        if compiled {
          StepOf(c, true);
          var linked := Outcome(grants);
          StepOf(c, linked);
        }
      }
      code := state.procs[c].cpc.end.code;
      if Clean(start, history) {
        InitBuilds(start);
        RunKeepsInv(start, history);
        assert CommandOk(state, c);
      }
    }

    // ---- sysdep-system

    predicate ShellAt(p: Pid)
      reads this
    {
      p in state.procs && state.procs[p].Shell? && state.procs[p].at < |state.procs[p].plan|
    }

    /** SDM_prepare_locker: build a copy under this shell's own name and move it into place, unless
        sd-locker is there. */
    method PrepareLocker(p: Pid, grants: bool) returns (on: bool)
      requires Valid() && ShellAt(p) && state.procs[p].spc.CheckLocker?
      modifies this
      ensures Valid() && ShellAt(p) && state.procs[p] == old(state.procs[p]).(spc := if on then Verify else Failed)
      ensures grants ==> on && state.files.sdLocker.Complete?
    {
      StepOf(p, true);
      if state.procs[p].spc.Verify? { return true; }
      on := BuildCopy(p, grants);
    }

    /** The copy is compiled, linked and moved; whether the move worked is not looked at. */
    method BuildCopy(p: Pid, grants: bool) returns (on: bool)
      requires Valid() && ShellAt(p) && state.procs[p].spc.TmpCompile?
      modifies this
      ensures Valid() && ShellAt(p) && state.procs[p] == old(state.procs[p]).(spc := if on then Verify else Failed)
      ensures grants ==> on && state.files.sdLocker.Complete?
    {
      var compiled := Outcome(grants);
      StepOf(p, compiled);
      if !compiled { return false; }
      StepOf(p, true);
      var linked := Outcome(grants);
      StepOf(p, linked);
      if !linked { return false; }
      MoveCopy(p, grants);
      return true;
    }

    method MoveCopy(p: Pid, grants: bool)
      requires Valid() && ShellAt(p) && state.procs[p].spc.Move?
      modifies this
      ensures Valid() && ShellAt(p) && state.procs[p] == old(state.procs[p]).(spc := Verify)
      ensures grants ==> state.files.sdLocker.Complete?
    {
      var moved := Outcome(grants);
      StepOf(p, moved);
      assert ShellOk(before, p);
    }

    /** SDM_lock_and_compile and SDM_lock_and_exec up to the start of the locker: by then sd-locker
        is complete, whoever built it. */
    method StartLocker(p: Pid, grants: bool) returns (on: bool)
      requires Valid() && ShellAt(p) && state.procs[p].spc.CheckLocker?
      modifies this
      ensures Valid() && ShellAt(p)
      ensures if on then state.procs[p].spc.Waiting? && state.files.sdLocker.Complete? else state.procs[p].spc.Failed?
      ensures grants ==> on
    {
      on := PrepareLocker(p, grants);
      if !on { return; }
      StepOf(p, true);
      on := state.procs[p].spc.ExecLocker?;
      if on {
        StepOf(p, true);
        LockerIsWhole(start, history, [], p);
      }
    }
  }
}
