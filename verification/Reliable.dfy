/** On a system that refuses nothing it could do: what of a list and of the initial state makes a
    whole run succeed. */
module Reliable {
  import opened Options
  import opened Paths
  import opened FileSystem
  import opened Lookup
  import opened Ways
  import opened OperatingSystem
  import opened MakeDirs
  import opened FileCopy
  import opened Translate
  import opened Operators
  import opened Engine
  import opened Footprint
  import opened InstallRuns
  import opened Reaching
  import opened Tables

  // ---- a way that was clear at first stays clear

  /** The walk ends at the same entry in both. */
  predicate SameEnd(f: Fs, g: Fs, at: Spot, names: seq<string>) {
    var x, y := Look(f, at, names, false), Look(g, at, names, false);
    (x.Some? <==> y.Some?) && (x.Some? ==> y.value.path == x.value.path)
  }

  /** The walk led to a directory at first, or to something new that is a directory by now, if it is
      there. */
  predicate StaysClear(f: Fs, g: Fs, at: Spot, names: seq<string>) {
    || LeadsAlong(f, at, names)
    || (SameEnd(f, g, at, names)
        && var e := Look(f, at, names, false);
        e.Some? && e.value.path !in f && (e.value.path in g ==> LeadsAlong(g, at, names)))
  }

  lemma StaysClearIsClear(f: Fs, g: Fs, at: Spot, names: seq<string>)
    requires Later(f, g) && StaysClear(f, g, at, names)
    ensures ClearAlong(g, at, names)
  {
    if LeadsAlong(f, at, names) {
      LookLater(f, g, at, names, true);
      LookLast(g, at, names);
    }
  }

  /** From a directory that was there at first. */
  lemma ClearFromOld(f: Fs, g: Fs, at: Spot, names: seq<string>, name: string)
    requires Later(f, g) && LeadsAlong(f, at, names) && ClearAlong(f, at, names + [name])
    requires SameEnd(f, g, at, names + [name])
    requires var q := Look(f, at, names + [name], false).value.path; q !in f && q in g ==> IsDir(g, q)
    ensures StaysClear(f, g, at, names + [name])
  {
    var y := Look(f, at, names, true).value;
    OneStep(f, at, names, name, y);
    LookLater(f, g, at, names, true);
    OneStep(g, at, names, name, y);
  }

  /** From one that was not. */
  lemma ClearFromNew(f: Fs, g: Fs, at: Spot, names: seq<string>, name: string)
    requires WellFormed(f) && WellFormed(g) && name != ".." && SameEnd(f, g, at, names + [name])
    requires StaysClear(f, g, at, names) && !LeadsAlong(f, at, names)
    requires var q := Look(f, at, names + [name], false); q.Some? && q.value.path !in f && q.value.path in g ==>
      IsDir(g, q.value.path)
    ensures StaysClear(f, g, at, names + [name])
  {
    LookLast(f, at, names);
    var x := Look(f, at, names, true).value;
    var q := Enter(x.path, name);
    OneStep(f, at, names, name, x);
    OnlyNewBelowNew(f, x.path, name);
    if q in g {
      assert Parent(x.path + [name]) == x.path;
      LookLast(g, at, names);
      OneStep(g, at, names, name, Look(g, at, names, true).value);
    }
  }

  /** A directory name of a path with all that comes before it. */
  lemma NamesBefore(dir: string, next: nat) returns (more: seq<string>)
    requires next <= |dir| && (next < |dir| ==> dir[next] == '/')
    ensures Components(dir) == Components(dir[..next]) + more
  {
    if next < |dir| {
      assert dir == dir[..next] + "/" + dir[next + 1..];
      ComponentsJoin(dir[..next], dir[next + 1..]);
      more := Components(dir[next + 1..]);
    } else {
      assert dir == dir[..next];
      more := [];
    }
  }

  /** What stands where the call would make its directory, and was not there at first, is one. */
  predicate NewIsDir(f: Fs, g: Fs, cwd: Path, c: string) {
    var e := Place(f, cwd, c);
    e.Some? && e.value !in f && e.value in g ==> IsDir(g, e.value)
  }

  /** One name further. */
  lemma NameStaysClear(f: Fs, g: Fs, at: Spot, names: seq<string>, name: string)
    requires WellFormed(f) && WellFormed(g) && Later(f, g) && name != ".."
    requires StaysClear(f, g, at, names) && SameEnd(f, g, at, names + [name]) && ClearAlong(f, at, names + [name])
    requires var q := Look(f, at, names + [name], false); q.Some? && q.value.path !in f && q.value.path in g ==>
      IsDir(g, q.value.path)
    ensures StaysClear(f, g, at, names + [name])
  {
    if LeadsAlong(f, at, names) { ClearFromOld(f, g, at, names, name); } else { ClearFromNew(f, g, at, names, name); }
  }

  /** A call was clear at first, goes where it went, and what it would have made is a directory if it is
      there by now. */
  predicate CallFine(f: Fs, g: Fs, cwd: Path, c: string) {
    Clear(f, cwd, c) && SameEnd(f, g, From(cwd, c), Components(c)) && NewIsDir(f, g, cwd, c)
  }

  ghost predicate Fine(f: Fs, g: Fs, cwd: Path, calls: seq<string>) {
    forall c :: c in calls ==> CallFine(f, g, cwd, c)
  }

  /** What the induction along a path is about: it goes up no more, and up to a slash it stays clear. */
  ghost predicate StaysDown(f: Fs, g: Fs, cwd: Path, dir: string, from: nat)
    requires from <= |dir|
  {
    && WellFormed(f) && WellFormed(g) && Later(f, g)
    && NoParentSteps(dir[from..]) && (from == 0 || dir[from - 1] == '/')
    && StaysClear(f, g, From(cwd, dir), Components(dir[..from]))
  }

  /** The same, call by call. */
  ghost predicate EachFine(f: Fs, g: Fs, cwd: Path, calls: seq<string>) {
    calls == [] || (CallFine(f, g, cwd, calls[0]) && EachFine(f, g, cwd, calls[1..]))
  }

  ghost predicate EachClear(fs: Fs, cwd: Path, calls: seq<string>) {
    calls == [] || (Clear(fs, cwd, calls[0]) && EachClear(fs, cwd, calls[1..]))
  }

  lemma {:induction false} FineIsEach(f: Fs, g: Fs, cwd: Path, calls: seq<string>)
    requires Fine(f, g, cwd, calls)
    ensures EachFine(f, g, cwd, calls)
    decreases |calls|
  {
    if calls != [] {
      assert calls[0] in calls && forall c :: c in calls[1..] ==> c in calls;
      FineIsEach(f, g, cwd, calls[1..]);
    }
  }

  lemma {:induction false} EachIsAllClear(fs: Fs, cwd: Path, calls: seq<string>)
    requires EachClear(fs, cwd, calls)
    ensures AllClear(fs, cwd, calls)
    decreases |calls|
  {
    if calls != [] {
      EachIsAllClear(fs, cwd, calls[1..]);
      assert forall c :: c in calls ==> c == calls[0] || c in calls[1..];
    }
  }

  /** The call at a position, and the calls still to come. */
  lemma FineAt(f: Fs, g: Fs, cwd: Path, dir: string, from: nat, at: nat)
    requires Fits(dir) && from < |dir| && at == NextSlashAt(dir, from)
    ensures EachFine(f, g, cwd, Rest(dir, from)) <==>
      CallFine(f, g, cwd, dir[..at] + "/") && EachFine(f, g, cwd, Rest(dir, at + 1))
    ensures EachClear(g, cwd, Rest(dir, from)) <==>
      Clear(g, cwd, dir[..at] + "/") && EachClear(g, cwd, Rest(dir, at + 1))
    ensures |dir| <= at + 1 ==> EachClear(g, cwd, Rest(dir, at + 1))
  {
    NextCall(dir, from);
    assert Rest(dir, from)[1..] == Rest(dir, at + 1);
  }

  lemma NextStaysClear(f: Fs, g: Fs, cwd: Path, dir: string, from: nat, next: nat)
    requires from < |dir| && next == NextSlashAt(dir, from) && StaysDown(f, g, cwd, dir, from)
    requires CallFine(f, g, cwd, dir[..next] + "/")
    ensures Clear(g, cwd, dir[..next] + "/") && StaysClear(f, g, From(cwd, dir), Components(dir[..next]))
  {
    var at, name := From(cwd, dir), dir[from..next];
    var before, names := Components(dir[..from]), Components(dir[..next]);
    NameInPath(dir, from, next);
    OneMoreName(dir, from, next);
    SameStart(cwd, dir, next);
    ComponentsSlash(dir[..next]);
    if name == "" { assert names == before; } else { NameStaysClear(f, g, at, before, name); }
    StaysClearIsClear(f, g, at, names);
  }

  /** Past a slash. */
  lemma PartsPast(dir: string, from: nat, at: nat)
    requires from <= at < |dir| && dir[at] == '/' && NoParentSteps(dir[from..])
    ensures Components(dir[..at + 1]) == Components(dir[..at]) && NoParentSteps(dir[at + 1..])
  {
    PastSlash(dir, at);
    RestGoesDown(dir, from, at);
  }

  /** One turn along the path. */
  lemma OneStaysClear(f: Fs, g: Fs, cwd: Path, dir: string, from: nat) returns (fine: bool)
    requires from < |dir| && StaysDown(f, g, cwd, dir, from)
    ensures var next := NextSlashAt(dir, from); var c := dir[..next] + "/";
      && (fine <==> CallFine(f, g, cwd, c)) && (fine ==> Clear(g, cwd, c))
      && (fine && next < |dir| ==> StaysDown(f, g, cwd, dir, next + 1))
  {
    var next := NextSlashAt(dir, from);
    fine := CallFine(f, g, cwd, dir[..next] + "/");
    if fine {
      NextStaysClear(f, g, cwd, dir, from, next);
      if next < |dir| { PartsPast(dir, from, next); }
    }
  }

  lemma {:induction false} CallsStayClear(f: Fs, g: Fs, cwd: Path, dir: string, from: nat)
    requires Fits(dir) && from < |dir| && StaysDown(f, g, cwd, dir, from)
    ensures EachFine(f, g, cwd, Rest(dir, from)) ==> EachClear(g, cwd, Rest(dir, from))
    decreases |dir| - from
  {
    var next := NextSlashAt(dir, from);
    var fine := OneStaysClear(f, g, cwd, dir, from);
    if fine && next + 1 < |dir| { CallsStayClear(f, g, cwd, dir, next + 1); }
    FineAt(f, g, cwd, dir, from, next);
  }

  /** A call goes where it went if no new link is on the way of the whole path. */
  lemma CallGoesSame(f: Fs, g: Fs, cwd: Path, dir: string, c: string)
    requires Later(f, g) && Undiverted(f, g, From(cwd, dir), Components(dir), false) && c in MakeDirCalls(dir)
    ensures SameEnd(f, g, From(cwd, c), Components(c))
  {
    var next := |c| - 1;
    CallShape(dir, c);
    var more := NamesBefore(dir, next);
    SameStart(cwd, dir, next);
    ComponentsSlash(dir[..next]);
    PartGoesSame(f, g, From(cwd, dir), Components(dir[..next]), more);
  }

  lemma CallShape(dir: string, c: string)
    requires c in MakeDirCalls(dir)
    ensures dir != "" && 0 < |c| <= |dir| + 1 && c == dir[..|c| - 1] + "/" && (|c| <= |dir| ==> dir[|c| - 1] == '/')
  {
    if c in SlashPrefixes(dir, 0) { SlashPrefixShape(dir, 0, c); }
  }

  lemma PartGoesSame(f: Fs, g: Fs, at: Spot, names: seq<string>, more: seq<string>)
    requires Later(f, g) && Undiverted(f, g, at, names + more, false)
    ensures SameEnd(f, g, at, names)
  {
    PassedPrefix(f, at, names, more, false);
    LookStable(f, g, at, at, names, false);
  }

  /** The whole path, whatever part of it led to a directory at first. */
  lemma WayStaysClear(f: Fs, g: Fs, cwd: Path, dir: string, n: Node)
    requires WellFormed(f) && WellFormed(g) && Later(f, g) && Fits(dir) && Downward(f, cwd, dir)
    requires Undiverted(f, g, From(cwd, dir), Components(dir), false) && IsDir(f, Start(cwd, dir))
    requires WayClear(f, cwd, dir) && forall c :: c in MakeDirCalls(dir) ==> NewIsDir(f, g, cwd, c)
    ensures WayClear(g, cwd, dir)
  {
    forall c | c in MakeDirCalls(dir) ensures CallFine(f, g, cwd, c) { CallGoesSame(f, g, cwd, dir, c); }
    FineWayStaysClear(f, g, cwd, dir, n);
  }

  lemma FineWayStaysClear(f: Fs, g: Fs, cwd: Path, dir: string, n: Node)
    requires WellFormed(f) && WellFormed(g) && Later(f, g) && Fits(dir) && Downward(f, cwd, dir)
    requires IsDir(f, Start(cwd, dir)) && Fine(f, g, cwd, MakeDirCalls(dir))
    ensures WayClear(g, cwd, dir)
  {
    var from: nat :| DownFrom(f, cwd, dir, from);
    if from > 0 { LeadsLater(f, g, cwd, dir[..from]); }
    LeadingPart(g, cwd, dir, 0, from, n);
    if from < |dir| {
      var x := PartArrives(f, cwd, dir, from);
      RestIsCalled(dir, from);
      FineIsEach(f, g, cwd, Rest(dir, from));
      CallsStayClear(f, g, cwd, dir, from);
      EachIsAllClear(g, cwd, Rest(dir, from));
    }
  }

  lemma RestIsCalled(dir: string, from: nat)
    requires Fits(dir) && from < |dir|
    ensures forall c :: c in Rest(dir, from) ==> c in MakeDirCalls(dir)
  {
    forall c | c in SlashPrefixes(dir, from) ensures c in SlashPrefixes(dir, 0) {
      SlashPrefixShape(dir, from, c);
      SlashIsCalled(dir, 0, |c| - 1);
    }
  }

  // ---- one directory item

  /** What an author can check of a directory item: its name fits, it starts from a directory, the
      way is clear, and no file of the list comes to stand in it. */
  ghost predicate ClearAt(w0: World, ts: seq<Item>, i: nat)
    requires i < |ts| && forall j :: 0 <= j < |ts| ==> Ready(ts[j])
  {
    assert Ready(ts[i]);
    var dir := ts[i].dir.value;
    && Fits(dir) && IsDir(w0.fs, Start(w0.cwd, dir)) && WayClear(w0.fs, w0.cwd, dir)
    && forall c :: c in MakeDirCalls(dir) ==> OnlyDirsAt(w0, ts, c)
  }

  ghost predicate OnlyDirsAt(w0: World, ts: seq<Item>, c: string)
    requires forall j :: 0 <= j < |ts| ==> Ready(ts[j])
  {
    forall j :: 0 <= j < |ts| && Place(w0.fs, w0.cwd, c) == Some(Target(w0, ts[j])) ==> ts[j].op.Mkdir?
  }

  /** The way stays clear until the item's turn. */
  lemma StillClear(w0: World, ts: seq<Item>, n: nat, w: World)
    requires GoodList(w0, ts) && n < |ts| && ts[n].op.Mkdir? && ClearAt(w0, ts, n) && RunState(w0, ts, n, w)
    ensures WayClear(w.fs, w.cwd, ts[n].dir.value) && IsDir(w.fs, Start(w.cwd, ts[n].dir.value))
    ensures Downward(w.fs, w.cwd, ts[n].dir.value)
  {
    var dir := ts[n].dir.value;
    assert GoodItem(w0, ts, n);
    NotDiverted(w0, ts, n, w, w.fs, dir);
    forall c | c in MakeDirCalls(dir) ensures NewIsDir(w0.fs, w.fs, w0.cwd, c) {
      var e := Place(w0.fs, w0.cwd, c);
      if e.Some? && e.value !in w0.fs && e.value in w.fs {
        var j := BroughtBy(w0, ts, n, w, e.value);
        assert OnlyDirsAt(w0, ts, c) && Stands(w0, ts[j], w.fs);
      }
    }
    WayStaysClear(w0.fs, w.fs, w0.cwd, dir, Dir(0, 0, 0));
    DownwardLater(w0.fs, w.fs, w0.cwd, dir);
  }

  /** A directory item whose way is clear makes its directory. */
  lemma MkdirMakes(proc: Process, w: World, t: Item, id: Identity, w': World, st: Status)
    requires Ready(t) && t.op.Mkdir? && !proc.faulty && WellFormed(w.fs) && MkdirStep(proc, w, t, false, w', st)
    requires Ids(proc, t.owner, t.group) == Some(id) && OwnerAllowed(proc, id.uid)
    requires Fits(t.dir.value) && Downward(w.fs, w.cwd, t.dir.value) && IsDir(w.fs, Start(w.cwd, t.dir.value))
    requires WayClear(w.fs, w.cwd, t.dir.value)
    ensures st.Ok? && w'.cwd == w.cwd && LeadsToDir(w'.fs, w'.cwd, t.dir.value)
    ensures Later(w.fs, w'.fs) && forall p :: IsSymlink(w'.fs, p) ==> IsSymlink(w.fs, p)
  {
    var dir := t.dir.value;
    var mid :| MadeDirs(proc, w, MakeDirCalls(dir), t.perm, mid) && DirOwned(proc, mid, dir, id, w', st)
      && MadeAll(w, MakeDirCalls(dir), NewDir(proc, t.perm), mid)
      && (|dir| < PATH_MAX && CanOwn(proc, mid, dir, id) ==> st.Ok?);
    ReachesIfClear(w.fs, w.cwd, dir, NewDir(proc, t.perm));
    MakingIsLater(proc, w, MakeDirCalls(dir), t.perm, mid);
    var k := Reach(mid.fs, mid.cwd, dir).value;
    OwningIsLater(mid.fs, w'.fs, k, id);
    LaterTransitive(w.fs, mid.fs, w'.fs);
    ReachLater(mid.fs, w'.fs, mid.cwd, dir);
  }

  lemma MkdirSucceeds(proc: Process, w0: World, ts: seq<Item>, n: nat, w: World, w': World, st: Status)
    requires GoodList(w0, ts) && n < |ts| && RunState(w0, ts, n, w) && ts[n].op.Mkdir? && !proc.faulty
    requires Permitted(proc, ts[n]) && ClearAt(w0, ts, n) && MkdirStep(proc, w, ts[n], false, w', st)
    ensures st.Ok? && Made(w', ts[n])
  {
    var t, k := ts[n], Target(w0, ts[n]);
    assert GoodItem(w0, ts, n);
    StillClear(w0, ts, n, w);
    MkdirMakes(proc, w, t, Ids(proc, t.owner, t.group).value, w', st);
    SamePlace(w0, ts, n, w, w'.fs, t.dir.value);
    EntryAndReach(w'.fs, w'.cwd, t.dir.value);
    if IsSymlink(w'.fs, k) { var j := BroughtBy(w0, ts, n, w, k); }
  }

  /** The accounts an item names exist, and the process may set the owner. */
  predicate Permitted(proc: Process, t: Item) {
    var id := Ids(proc, t.owner, t.group);
    id.Some? && OwnerAllowed(proc, id.value.uid)
  }

  // ---- one file or link

  /** Every directory on the way to a path is there at first or brought by an earlier directory item. */
  ghost predicate OpenWay(w0: World, ts: seq<Item>, n: nat, s: string)
    requires n <= |ts| && forall j :: 0 <= j < |ts| ==> Ready(ts[j])
  {
    && Place(w0.fs, w0.cwd, s).Some?
    && forall p :: p in Steps(w0.fs, From(w0.cwd, s), Components(s), false) ==>
      IsDir(w0.fs, p) || MadeBefore(w0, ts, n, p)
  }

  ghost predicate MadeBefore(w0: World, ts: seq<Item>, n: nat, p: Path)
    requires n <= |ts| && forall j :: 0 <= j < |ts| ==> Ready(ts[j])
  {
    exists j :: 0 <= j < n && ts[j].op.Mkdir? && Brings(w0, ts[j], p)
  }

  /** When its turn comes, such a path names the place seen from the initial state; and if nothing
      is there, it can be created. */
  lemma WayOpens(w0: World, ts: seq<Item>, n: nat, w: World, s: string)
    requires n <= |ts| && (forall j :: 0 <= j < |ts| ==> Ready(ts[j])) && RunState(w0, ts, n, w)
    requires NoLinkOnWay(w0, ts, s) && OpenWay(w0, ts, n, s)
    ensures Entry(w.fs, w.cwd, s) == Place(w0.fs, w0.cwd, s)
    ensures Place(w0.fs, w0.cwd, s).value !in w.fs ==> Creatable(w.fs, w.cwd, s)
  {
    var at, names := From(w0.cwd, s), Components(s);
    NotDiverted(w0, ts, n, w, w.fs, s);
    forall p | p in Steps(w0.fs, at, names, false) ensures IsDir(w.fs, p) {
      if !IsDir(w0.fs, p) {
        var j :| 0 <= j < n && ts[j].op.Mkdir? && Brings(w0, ts[j], p);
        assert Stands(w0, ts[j], w.fs);
        if p != Target(w0, ts[j]) { AncestorsAreDirs(w.fs, Target(w0, ts[j]), p); }
      }
    }
    LookSure(w0.fs, w.fs, at, names, false);
    LookStable(w0.fs, w.fs, at, at, names, false);
    if Place(w0.fs, w0.cwd, s).value !in w.fs {
      FreeIsCreatable(w.fs, at, names);
    }
  }

  /** What an author can check of a file item. */
  ghost predicate CopyReady(proc: Process, w0: World, ts: seq<Item>, i: nat)
    requires i < |ts| && (forall j :: 0 <= j < |ts| ==> Ready(ts[j])) && IsCopy(ts[i].op)
  {
    assert Ready(ts[i]);
    var s := Stat(w0.fs, w0.cwd, ts[i].src.value);
    && s.Some? && s.value.File? && Permitted(proc, ts[i]) && NothingBelow(w0, ts, i)
    && OpenWay(w0, ts, i, ts[i].dst.value) && OpenWay(w0, ts, i, TempName(ts[i].dst.value))
  }

  /** And of a link item. */
  ghost predicate LinkReady(w0: World, ts: seq<Item>, i: nat)
    requires i < |ts| && (forall j :: 0 <= j < |ts| ==> Ready(ts[j])) && IsLink(ts[i].op)
  {
    assert Ready(ts[i]);
    && ts[i].src.value != "" && ts[i].dir.value != "" && ts[i].dst.value != "" && IsDir(w0.fs, w0.cwd)
    && NothingBelow(w0, ts, i) && OpenWay(w0, ts, i, RemovedPath(ts[i]))
  }

  /** No earlier directory item takes its place for a directory on the way. */
  ghost predicate NothingBelow(w0: World, ts: seq<Item>, i: nat)
    requires i < |ts| && forall j :: 0 <= j < |ts| ==> Ready(ts[j])
  {
    forall j :: 0 <= j < i && ts[j].op.Mkdir? ==> !(Target(w0, ts[i]) < Target(w0, ts[j]))
  }

  lemma StillFree(w0: World, ts: seq<Item>, n: nat, w: World)
    requires GoodList(w0, ts) && n < |ts| && RunState(w0, ts, n, w) && NothingBelow(w0, ts, n)
    ensures Target(w0, ts[n]) !in w.fs
  {
    assert GoodItem(w0, ts, n);
    if Target(w0, ts[n]) in w.fs { var _ := BroughtBy(w0, ts, n, w, Target(w0, ts[n])); }
  }

  lemma CopySucceeds(proc: Process, w0: World, ts: seq<Item>, n: nat, w: World, w': World, st: Status)
    requires GoodList(w0, ts) && n < |ts| && RunState(w0, ts, n, w) && IsCopy(ts[n].op) && !proc.faulty
    requires CopyReady(proc, w0, ts, n) && CopyItemStep(proc, w, ts[n], false, w', st)
    ensures st.Ok?
  {
    var t := ts[n];
    assert GoodItem(w0, ts, n);
    StatFileLater(w0.fs, w.fs, w0.cwd, t.src.value);
    StillFree(w0, ts, n, w);
    WayOpens(w0, ts, n, w, t.dst.value);
    WayOpens(w0, ts, n, w, TempName(t.dst.value));
    CopyIsRegular(w0, ts, n, w, w');
    EntryAndReach(w.fs, w.cwd, TempName(t.dst.value));
  }

  lemma LinkSucceeds(proc: Process, w0: World, ts: seq<Item>, n: nat, w: World, w': World, st: Status)
    requires GoodList(w0, ts) && n < |ts| && RunState(w0, ts, n, w) && IsLink(ts[n].op) && !proc.faulty
    requires LinkReady(w0, ts, n) && LinkStep(proc, w, ts[n], false, w', st)
    ensures st.Ok?
  {
    var t := ts[n];
    assert GoodItem(w0, ts, n);
    StillFree(w0, ts, n, w);
    WayOpens(w0, ts, n, w, RemovedPath(t));
    SomeComponent(t.dst.value);
    EntryJoin(w.fs, w.cwd, t.dir.value, t.dst.value);
    PathGoesOn(w.fs, w.cwd, t.dir.value, t.dst.value);
  }

  // ---- the whole run

  ghost predicate ReadyAt(proc: Process, w0: World, ts: seq<Item>, i: nat)
    requires i < |ts| && forall j :: 0 <= j < |ts| ==> Ready(ts[j])
  {
    if ts[i].op.Mkdir? then Permitted(proc, ts[i]) && ClearAt(w0, ts, i)
    else if IsLink(ts[i].op) then LinkReady(w0, ts, i)
    else CopyReady(proc, w0, ts, i)
  }

  /** The list as it translates in the initial state, and what its author can check of it there. */
  ghost predicate ReadyList(cfg: Config, proc: Process, w0: World, items: seq<Item>, ts: seq<Item>) {
    && GoodList(w0, ts) && |ts| == |items|
    && (forall i :: 0 <= i < |items| ==>
          Sane(items[i]) && Translated(cfg, w0.fs, w0.cwd, items[i]) == Success(ts[i]))
    && forall i :: 0 <= i < |items| ==> ReadyAt(proc, w0, ts, i)
  }

  /** One item, when its turn comes. */
  lemma ItemSucceeds(cfg: Config, proc: Process, items: seq<Item>, ts: seq<Item>, ws: seq<World>, sts: seq<Status>,
                     n: nat)
    requires InstallRun(cfg, proc, items, false, ws, sts) && !proc.faulty && ReadyList(cfg, proc, ws[0], items, ts)
    requires n < |items| && RunState(ws[0], ts, n, ws[n])
    ensures sts[n].Ok? && CleanAt(cfg, proc, items, ts, ws, n) && TranslatedAt(cfg, items, ws, ts, n)
  {
    var w0, w, w' := ws[0], ws[n], ws[n + 1];
    assert InstallAt(cfg, proc, items, false, ws, sts, n) && ReadyAt(proc, w0, ts, n) && Ready(ts[n]);
    TranslationLater(cfg, w0.fs, w.fs, w.cwd, items[n]);
    if ts[n].op.Mkdir? {
      MkdirSucceeds(proc, w0, ts, n, w, w', sts[n]);
    } else if IsLink(ts[n].op) {
      LinkSucceeds(proc, w0, ts, n, w, w', sts[n]);
    } else {
      CopySucceeds(proc, w0, ts, n, w, w', sts[n]);
    }
  }

  lemma CleanKeepsState(cfg: Config, proc: Process, items: seq<Item>, ts: seq<Item>, ws: seq<World>, n: nat)
    requires |ts| == |items| && |ws| == |items| + 1 && n < |items| && GoodList(ws[0], ts)
    requires CleanAt(cfg, proc, items, ts, ws, n) && RunState(ws[0], ts, n, ws[n])
    ensures RunState(ws[0], ts, n + 1, ws[n + 1])
  {
    CleanAtProgresses(cfg, proc, items, ts, ws, n);
    StepKeepsState(proc, ws[0], ts, n, ws[n], ws[n + 1]);
  }

  lemma {:induction false} ReliableRunReaches(cfg: Config, proc: Process, items: seq<Item>, ts: seq<Item>,
                                              ws: seq<World>, sts: seq<Status>, n: nat)
    requires InstallRun(cfg, proc, items, false, ws, sts) && !proc.faulty && ReadyList(cfg, proc, ws[0], items, ts)
    requires WellFormed(ws[0].fs) && n <= |items|
    ensures RunState(ws[0], ts, n, ws[n])
    decreases n
  {
    if n > 0 {
      ReliableRunReaches(cfg, proc, items, ts, ws, sts, n - 1);
      ItemSucceeds(cfg, proc, items, ts, ws, sts, n - 1);
      CleanKeepsState(cfg, proc, items, ts, ws, n - 1);
    }
  }

  /** Every item comes back OK and no mkdir fails: what the theorems on installing and then checking
      or deinstalling ask of a run follows from the list and the initial state. */
  lemma ReadyListInstalls(cfg: Config, proc: Process, items: seq<Item>, ts: seq<Item>, ws: seq<World>, sts: seq<Status>)
    requires InstallRun(cfg, proc, items, false, ws, sts) && !proc.faulty && ReadyList(cfg, proc, ws[0], items, ts)
    requires WellFormed(ws[0].fs)
    ensures AllOk(sts) && AsTranslated(cfg, items, ws, ts) && NoMkdirFailed(ws, ts)
  {
    forall i | 0 <= i < |items|
      ensures sts[i].Ok? && TranslatedAt(cfg, items, ws, ts, i) && CleanAt(cfg, proc, items, ts, ws, i)
    {
      ReliableRunReaches(cfg, proc, items, ts, ws, sts, i);
      ItemSucceeds(cfg, proc, items, ts, ws, sts, i);
    }
    forall i | 0 <= i < |ts| && ts[i].op.Mkdir? && Ready(ts[i]) ensures Made(ws[i + 1], ts[i]) {
      assert CleanAt(cfg, proc, items, ts, ws, i);
    }
  }
}
