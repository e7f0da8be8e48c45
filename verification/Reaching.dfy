/** When install_rmkdir gets where it was sent. */
module Reaching {
  import opened Options
  import opened Paths
  import opened FileSystem
  import opened Lookup
  import opened OperatingSystem
  import opened MakeDirs
  import opened FileCopy
  import opened Translate
  import opened Operators
  import opened Footprint

  /** A walk whose end will be free when its turn comes, or that ends at a directory, perhaps by a
      link. */
  predicate ClearAlong(fs: Fs, at: Spot, names: seq<string>) {
    var e := Look(fs, at, names, false);
    e.Some? && (e.value.path in fs ==> LeadsAlong(fs, at, names))
  }

  predicate Clear(fs: Fs, cwd: Path, c: string) {
    ClearAlong(fs, From(cwd, c), Components(c))
  }

  /** Every prefix on the way is absent or leads to a directory. */
  ghost predicate WayClear(fs: Fs, cwd: Path, dir: string) {
    AllClear(fs, cwd, MakeDirCalls(dir))
  }

  ghost predicate AllClear(fs: Fs, cwd: Path, calls: seq<string>) {
    forall c :: c in calls ==> Clear(fs, cwd, c)
  }

  /** The last slash is still asked for only if it fits. */
  predicate Fits(dir: string) {
    dir != "" && |dir| < PATH_MAX && (|dir| == PATH_MAX - 1 ==> dir[|dir| - 1] == '/')
  }

  function NameOrNothing(name: string): seq<string> {
    if name == "" then [] else [name]
  }

  /** Between one slash and the next lies at most one name. */
  lemma OneMoreName(dir: string, from: nat, next: nat)
    requires from <= next <= |dir| && '/' !in dir[from..next]
    requires from == 0 || dir[from - 1] == '/'
    ensures Components(dir[..next]) == Components(dir[..from]) + NameOrNothing(dir[from..next])
  {
    var name := dir[from..next];
    if name != "" { ComponentsOfName(name); }
    if from == 0 {
      assert dir[..next] == name;
    } else {
      var before := dir[..from - 1];
      assert dir[..next] == before + "/" + name;
      assert dir[..from] == before + "/" + "";
      ComponentsJoin(before, name);
      ComponentsJoin(before, "");
    }
  }

  /** A path that starts like another starts its walk at the same place. */
  lemma SameStart(cwd: Path, dir: string, next: nat)
    requires dir != "" && next <= |dir| && (next < |dir| ==> dir[next] == '/')
    ensures From(cwd, dir[..next] + "/") == From(cwd, dir)
  {
    if next == 0 { assert dir[..next] + "/" == "/"; }
  }

  lemma PastSlash(dir: string, next: nat)
    requires next < |dir| && dir[next] == '/'
    ensures Components(dir[..next + 1]) == Components(dir[..next])
  {
    assert dir[..next + 1] == dir[..next] + "/";
    ComponentsSlash(dir[..next]);
  }

  /** At the last name of a path. */
  lemma LastName(dir: string, next: nat)
    requires next <= |dir| <= next + 1 && (next < |dir| ==> dir[next] == '/')
    ensures Components(dir) == Components(dir[..next])
  {
    if next < |dir| { PastSlash(dir, next); }
    assert dir[..|dir|] == dir;
  }

  /** A name between two slashes is a component. */
  lemma NameInPath(dir: string, from: nat, next: nat)
    requires from <= next <= |dir| && '/' !in dir[from..next] && NoParentSteps(dir[from..])
    requires next < |dir| ==> dir[next] == '/'
    ensures dir[from..next] != ".."
  {
    var name := dir[from..next];
    if name != "" {
      ComponentsOfName(name);
      if next < |dir| {
        assert dir[from..] == name + "/" + dir[next + 1..];
        ComponentsJoin(name, dir[next + 1..]);
      } else {
        assert dir[from..] == name;
      }
    }
  }

  /** The next slash, or the end. */
  function NextSlashAt(dir: string, from: nat): (next: nat)
    requires from <= |dir|
    ensures from <= next <= |dir| && '/' !in dir[from..next]
    ensures next < |dir| ==> dir[next] == '/'
  {
    assert dir[from..][..NameLength(dir[from..])] == dir[from..from + NameLength(dir[from..])];
    from + NameLength(dir[from..])
  }

  // ---- one call

  /** The walk along the names dealt with ended at a directory, which is new if anything is: then
      it was entered by its own name. */
  ghost predicate Arrived(fs0: Fs, fs: Fs, at: Spot, names: seq<string>, x: Spot) {
    && Look(fs, at, names, true) == Some(x) && x.sure && IsDir(fs, x.path)
    && (fs != fs0 ==> Look(fs, at, names, false) == Some(x) && x.path !in fs0)
  }

  /** g is f and new directories. */
  ghost predicate Grown(f: Fs, g: Fs) {
    Preserves(f, g) && forall p :: p in g && p !in f ==> g[p].Dir?
  }

  lemma GrownKeepsPlace(f: Fs, g: Fs, at: Spot, names: seq<string>)
    requires Grown(f, g)
    ensures var x, y := Look(f, at, names, false), Look(g, at, names, false);
      (x.Some? <==> y.Some?) && (x.Some? ==> x.value.path == y.value.path)
  {
    LookStable(f, g, at, at, names, false);
  }

  /** What mkdir at the end of a walk leaves. */
  function AfterMkdir(fs: Fs, at: Spot, names: seq<string>, n: Node): Fs {
    var e := Look(fs, at, names, false);
    if e.Some? && e.value.sure && CanCreate(fs, e.value.path) then fs[e.value.path := n] else fs
  }

  /** mkdir of the directory the walk is in. */
  lemma AlreadyThere(fs0: Fs, fs: Fs, at: Spot, names: seq<string>, x: Spot, n: Node)
    requires Grown(fs0, fs) && Arrived(fs0, fs, at, names, x)
    ensures AfterMkdir(fs, at, names, n) == fs && ClearAlong(fs0, at, names)
  {
    LookLast(fs, at, names);
    GrownKeepsPlace(fs0, fs, at, names);
  }

  /** One name further. */
  lemma OneStep(fs: Fs, at: Spot, names: seq<string>, name: string, x: Spot)
    requires Look(fs, at, names, true) == Some(x)
    ensures Look(fs, at, names + [name], false) == Some(Spot(Enter(x.path, name), x.hops, x.sure && IsDir(fs, x.path)))
    ensures Look(fs, at, names + [name], true) == Look(fs, x, [name], true)
  {
    LookJoin(fs, at, names, [name], false);
    LookJoin(fs, at, names, [name], true);
    assert Look(fs, x, [name], false)
        == Look(fs, Spot(Enter(x.path, name), x.hops, x.sure && IsDir(fs, x.path)), [], false);
  }

  /** mkdir of a name that is free. */
  lemma MakesNext(fs0: Fs, fs: Fs, at: Spot, names: seq<string>, name: string, x: Spot, n: Node)
    requires Grown(fs0, fs) && Arrived(fs0, fs, at, names, x) && n.Dir? && name != "." && name != ".."
    requires x.path + [name] !in fs
    ensures var fs' := AfterMkdir(fs, at, names + [name], n);
      && (WellFormed(fs) ==> WellFormed(fs'))
      && Grown(fs0, fs') && Arrived(fs0, fs', at, names + [name], Spot(x.path + [name], x.hops, true))
      && ClearAlong(fs0, at, names + [name])
  {
    var q := x.path + [name];
    OneStep(fs, at, names, name, x);
    assert CanCreate(fs, q);
    var fs' := fs[q := n];
    assert Later(fs, fs');
    LookLater(fs, fs', at, names + [name], false);
    LookLast(fs', at, names + [name]);
    GrownKeepsPlace(fs0, fs, at, names + [name]);
  }

  /** An entry that is not there has nothing in it. */
  lemma OnlyNewBelowNew(fs: Fs, p: Path, name: string)
    requires WellFormed(fs) && p !in fs && name != ".."
    ensures Enter(p, name) !in fs
  {
    assert Parent(p + [name]) == p;
  }

  /** mkdir of a name that is taken: it leads to a directory, or nothing has been made so far and
      the way is not clear. */
  lemma FindsNext(fs0: Fs, fs: Fs, at: Spot, names: seq<string>, name: string, x: Spot, n: Node)
    requires WellFormed(fs0) && Grown(fs0, fs) && Arrived(fs0, fs, at, names, x) && (fs != fs0 ==> name != "..")
    requires Enter(x.path, name) in fs
    ensures AfterMkdir(fs, at, names + [name], n) == fs
    ensures LeadsAlong(fs, at, names + [name]) ==>
      && Arrived(fs0, fs, at, names + [name], Look(fs, at, names + [name], true).value)
      && ClearAlong(fs0, at, names + [name])
    ensures !LeadsAlong(fs, at, names + [name]) ==> fs == fs0 && !ClearAlong(fs0, at, names + [name])
  {
    var q := Enter(x.path, name);
    OneStep(fs, at, names, name, x);
    GrownKeepsPlace(fs0, fs, at, names + [name]);
    if fs != fs0 {
      assert q !in fs0 by { OnlyNewBelowNew(fs0, x.path, name); }
      LookLast(fs, at, names + [name]);
    }
  }

  /** One mkdir from a directory: either the walk arrives at the next one, or it is stuck. */
  lemma OneMkdir(fs0: Fs, fs: Fs, at: Spot, names: seq<string>, name: string, x: Spot, n: Node)
      returns (x': Spot, arrived: bool)
    requires WellFormed(fs0) && WellFormed(fs) && Grown(fs0, fs) && Arrived(fs0, fs, at, names, x) && n.Dir?
    requires fs != fs0 ==> name != ".."
    ensures var after := names + NameOrNothing(name); var fs' := AfterMkdir(fs, at, after, n);
      && WellFormed(fs') && Grown(fs0, fs') && (arrived <==> ClearAlong(fs0, at, after))
      && (arrived ==> Arrived(fs0, fs', at, after, x'))
      && (!arrived ==> fs' == fs && !LeadsAlong(fs, at, after))
  {
    if name == "" {
      assert names + NameOrNothing(name) == names;
      AlreadyThere(fs0, fs, at, names, x, n);
      return x, true;
    } else if Enter(x.path, name) in fs {
      FindsNext(fs0, fs, at, names, name, x, n);
      arrived := LeadsAlong(fs, at, names + [name]);
      x' := if arrived then Look(fs, at, names + [name], true).value else x;
    } else {
      assert name != ".." by { assert Parent(x.path) in fs; }
      MakesNext(fs0, fs, at, names, name, x, n);
      return Spot(x.path + [name], x.hops, true), true;
    }
  }

  // ---- all the calls

  /** Where a path leads nowhere and makes nothing, a longer one does not either. */
  lemma StuckBeyond(fs: Fs, cwd: Path, a: string, c: string, n: Node)
    requires Through(a, c) && !LeadsToDir(fs, cwd, a + "/") && AfterCall(fs, cwd, a + "/", n) == fs
    requires n.Dir?
    ensures !LeadsToDir(fs, cwd, c) && AfterCall(fs, cwd, c, n) == fs
  {
    var at, names, b := From(cwd, a + "/"), Components(a), Components(c[|a| + 1..]);
    ThroughIsJoin(cwd, a, c);
    ComponentsSlash(a);
    if b == [] {
      assert Components(c) == names;
    } else {
      if LeadsToDir(fs, cwd, c) { NothingBeyond(fs, at, names, b, true); }
      if Entry(fs, cwd, c).Some? { NothingBeyond(fs, at, names, b, false); }
    }
  }

  lemma {:induction false} Stuck(fs: Fs, cwd: Path, a: string, calls: seq<string>, n: Node)
    requires !LeadsToDir(fs, cwd, a + "/") && AfterCall(fs, cwd, a + "/", n) == fs && n.Dir?
    requires forall c :: c in calls ==> Through(a, c)
    ensures MakeAll(fs, cwd, calls, n) == fs
    decreases |calls|
  {
    if calls != [] {
      assert Through(a, calls[0]);
      StuckBeyond(fs, cwd, a, calls[0], n);
      assert forall d :: d in calls[1..] ==> d in calls;
      Stuck(fs, cwd, a, calls[1..], n);
    }
  }

  lemma RestGoesThrough(dir: string, next: nat, c: string)
    requires next < |dir| && dir[next] == '/' && c in Rest(dir, next + 1)
    ensures Through(dir[..next], c)
  {
    if c in SlashPrefixes(dir, next + 1) {
      SlashPrefixShape(dir, next + 1, c);
    } else {
      assert c == dir + "/";
    }
  }

  /** What one mkdir leaves, in terms of the walk. */
  lemma CallIsMkdir(fs: Fs, cwd: Path, dir: string, next: nat, n: Node)
    requires dir != "" && next <= |dir| && (next < |dir| ==> dir[next] == '/')
    ensures var c, at, names := dir[..next] + "/", From(cwd, dir), Components(dir[..next]);
      && AfterCall(fs, cwd, c, n) == AfterMkdir(fs, at, names, n)
      && (LeadsToDir(fs, cwd, c) <==> LeadsAlong(fs, at, names))
      && (Clear(fs, cwd, c) <==> ClearAlong(fs, at, names))
  {
    SameStart(cwd, dir, next);
    ComponentsSlash(dir[..next]);
  }

  /** When one call has got stuck, so have all. */
  lemma StuckForGood(fs: Fs, cwd: Path, dir: string, next: nat, n: Node)
    requires dir != "" && next <= |dir| && (next < |dir| ==> dir[next] == '/') && n.Dir?
    requires AfterCall(fs, cwd, dir[..next] + "/", n) == fs && !LeadsToDir(fs, cwd, dir[..next] + "/")
    ensures MakeAll(fs, cwd, Rest(dir, next + 1), n) == fs && !LeadsToDir(fs, cwd, dir)
  {
    if next < |dir| {
      forall c | c in Rest(dir, next + 1) ensures Through(dir[..next], c) { RestGoesThrough(dir, next, c); }
      Stuck(fs, cwd, dir[..next], Rest(dir, next + 1), n);
      StuckBeyond(fs, cwd, dir[..next], dir, n);
    } else {
      LastName(dir, next);
      CallIsMkdir(fs, cwd, dir, next, n);
    }
  }

  /** The calls from a position, when there is room for all of them. */
  lemma NextCall(dir: string, from: nat)
    requires Fits(dir) && from < |dir|
    ensures var next := NextSlashAt(dir, from); CallsFrom(dir, from) == [dir[..next] + "/"] + Rest(dir, next + 1)
  {
    var next := NextSlashAt(dir, from);
    forall i | from <= i < next ensures dir[i] != '/' { assert dir[i] == dir[from..next][i - from]; }
    FirstCall(dir, from, next);
    if next == |dir| { assert dir[|dir| - 1] != '/'; }
  }

  /** One call of the sequence: either the walk arrives at the next slash, or it is stuck. */
  lemma OneCall(fs0: Fs, fs: Fs, cwd: Path, dir: string, from: nat, n: Node, x: Spot)
      returns (x': Spot, arrived: bool)
    requires WellFormed(fs0) && WellFormed(fs) && Grown(fs0, fs) && n.Dir? && from < |dir|
    requires fs != fs0 ==> NoParentSteps(dir[from..])
    requires from == 0 || dir[from - 1] == '/'
    requires Arrived(fs0, fs, From(cwd, dir), Components(dir[..from]), x)
    ensures var next := NextSlashAt(dir, from); var c := dir[..next] + "/"; var fs' := AfterCall(fs, cwd, c, n);
      && WellFormed(fs') && Grown(fs0, fs') && (arrived <==> Clear(fs0, cwd, c))
      && (arrived ==> Arrived(fs0, fs', From(cwd, dir), Components(dir[..next]), x'))
      && (!arrived ==> fs' == fs && !LeadsToDir(fs, cwd, c))
  {
    var next := NextSlashAt(dir, from);
    OneMoreName(dir, from, next);
    if fs != fs0 { NameInPath(dir, from, next); }
    x', arrived := OneMkdir(fs0, fs, From(cwd, dir), Components(dir[..from]), dir[from..next], x, n);
    CallIsMkdir(fs, cwd, dir, next, n);
    CallIsMkdir(fs0, cwd, dir, next, n);
  }

  lemma ArrivedAtLast(fs0: Fs, fs: Fs, cwd: Path, dir: string, next: nat, x: Spot)
    requires dir != "" && next <= |dir| <= next + 1 && (next < |dir| ==> dir[next] == '/')
    requires Arrived(fs0, fs, From(cwd, dir), Components(dir[..next]), x)
    ensures Rest(dir, next + 1) == [] && LeadsToDir(fs, cwd, dir)
  {
    LastName(dir, next);
  }

  /** Each call, when its turn comes, finds nothing or a directory. */
  ghost predicate ClearInTurn(fs: Fs, cwd: Path, calls: seq<string>, n: Node)
    decreases |calls|
  {
    calls == [] || (Clear(fs, cwd, calls[0]) && ClearInTurn(AfterCall(fs, cwd, calls[0], n), cwd, calls[1..], n))
  }

  /** The first of the calls, and the others. */
  lemma FirstOfCalls(fs: Fs, cwd: Path, calls: seq<string>, c: string, rest: seq<string>, n: Node)
    requires calls == [c] + rest
    ensures MakeAll(fs, cwd, calls, n) == MakeAll(AfterCall(fs, cwd, c, n), cwd, rest, n)
    ensures ClearInTurn(fs, cwd, calls, n) <==> Clear(fs, cwd, c) && ClearInTurn(AfterCall(fs, cwd, c, n), cwd, rest, n)
  {
    assert calls[1..] == rest;
  }

  lemma FirstAllClear(fs: Fs, cwd: Path, calls: seq<string>, c: string, rest: seq<string>)
    requires calls == [c] + rest
    ensures AllClear(fs, cwd, calls) <==> Clear(fs, cwd, c) && AllClear(fs, cwd, rest)
  {
    assert c in calls;
    assert forall d :: d in calls <==> d == c || d in rest;
  }

  /** The call at a position, and the calls still to come. */
  lemma CallAt(fs0: Fs, fs: Fs, cwd: Path, dir: string, from: nat, at: nat, n: Node)
    requires Fits(dir) && from < |dir| && at == NextSlashAt(dir, from)
    ensures var c := dir[..at] + "/";
      && (ClearInTurn(fs, cwd, Rest(dir, from), n) <==>
            Clear(fs, cwd, c) && ClearInTurn(AfterCall(fs, cwd, c, n), cwd, Rest(dir, at + 1), n))
      && (AllClear(fs0, cwd, Rest(dir, from)) <==> Clear(fs0, cwd, c) && AllClear(fs0, cwd, Rest(dir, at + 1)))
      && MakeAll(fs, cwd, Rest(dir, from), n) == MakeAll(AfterCall(fs, cwd, c, n), cwd, Rest(dir, at + 1), n)
  {
    var c := dir[..at] + "/";
    NextCall(dir, from);
    FirstOfCalls(fs, cwd, Rest(dir, from), c, Rest(dir, at + 1), n);
    FirstAllClear(fs0, cwd, Rest(dir, from), c, Rest(dir, at + 1));
  }

  /** The calls from a directory on end at a directory if and only if none of them, in its turn, meets
      anything else. */
  lemma {:induction false} CallsReach(fs: Fs, cwd: Path, dir: string, from: nat, n: Node, x: Spot)
    requires WellFormed(fs) && Fits(dir) && from < |dir| && n.Dir?
    requires from == 0 || dir[from - 1] == '/'
    requires Arrived(fs, fs, From(cwd, dir), Components(dir[..from]), x)
    ensures LeadsToDir(MakeAll(fs, cwd, Rest(dir, from), n), cwd, dir) <==> ClearInTurn(fs, cwd, Rest(dir, from), n)
    decreases |dir| - from
  {
    var next := NextSlashAt(dir, from);
    var x', arrived := OneCall(fs, fs, cwd, dir, from, n, x);
    var fs' := AfterCall(fs, cwd, dir[..next] + "/", n);
    CallAt(fs, fs, cwd, dir, from, next, n);
    if !arrived {
      StuckForGood(fs, cwd, dir, next, n);
    } else if next + 1 < |dir| {
      PastSlash(dir, next);
      CallsReach(fs', cwd, dir, next + 1, n, x');
    } else {
      ArrivedAtLast(fs, fs', cwd, dir, next, x');
    }
  }

  /** One call finds its way clear, or not, as it would have at first. */
  lemma ClearAsAtFirst(fs0: Fs, fs: Fs, cwd: Path, dir: string, from: nat, n: Node, x: Spot)
      returns (x': Spot, arrived: bool)
    requires WellFormed(fs0) && WellFormed(fs) && Grown(fs0, fs) && n.Dir? && from < |dir|
    requires NoParentSteps(dir[from..]) && (from == 0 || dir[from - 1] == '/')
    requires Arrived(fs0, fs, From(cwd, dir), Components(dir[..from]), x)
    ensures var next := NextSlashAt(dir, from); var c := dir[..next] + "/"; var fs' := AfterCall(fs, cwd, c, n);
      && WellFormed(fs') && Grown(fs0, fs')
      && (arrived <==> Clear(fs0, cwd, c)) && (arrived <==> Clear(fs, cwd, c))
      && (arrived ==> Arrived(fs0, fs', From(cwd, dir), Components(dir[..next]), x'))
  {
    var next := NextSlashAt(dir, from);
    x', arrived := OneCall(fs0, fs, cwd, dir, from, n, x);
    var _, again := OneCall(fs, fs, cwd, dir, from, n, x);
    CallIsMkdir(fs, cwd, dir, next, n);
  }

  /** What the induction along a path that goes up no more is about. */
  ghost predicate GoesDown(fs0: Fs, fs: Fs, cwd: Path, dir: string, from: nat, x: Spot)
    requires from <= |dir|
  {
    && WellFormed(fs0) && WellFormed(fs) && Grown(fs0, fs)
    && NoParentSteps(dir[from..]) && (from == 0 || dir[from - 1] == '/')
    && Arrived(fs0, fs, From(cwd, dir), Components(dir[..from]), x)
  }

  /** One turn along such a path. */
  lemma OneTurn(fs0: Fs, fs: Fs, cwd: Path, dir: string, from: nat, n: Node, x: Spot)
      returns (x': Spot, arrived: bool)
    requires from < |dir| && GoesDown(fs0, fs, cwd, dir, from, x) && n.Dir?
    ensures var at := NextSlashAt(dir, from); var c := dir[..at] + "/";
      && (arrived <==> Clear(fs0, cwd, c)) && (arrived <==> Clear(fs, cwd, c))
      && (arrived && at < |dir| ==> GoesDown(fs0, AfterCall(fs, cwd, c, n), cwd, dir, at + 1, x'))
  {
    var at := NextSlashAt(dir, from);
    x', arrived := ClearAsAtFirst(fs0, fs, cwd, dir, from, n, x);
    if at < |dir| {
      PastSlash(dir, at);
      RestGoesDown(dir, from, at);
    }
  }

  /** So it is clear in turn if and only if it is clear at first. */
  lemma {:induction false} TurnsAsAtFirst(fs0: Fs, fs: Fs, cwd: Path, dir: string, from: nat, n: Node, x: Spot)
    requires Fits(dir) && from < |dir| && GoesDown(fs0, fs, cwd, dir, from, x) && n.Dir?
    ensures ClearInTurn(fs, cwd, Rest(dir, from), n) <==> AllClear(fs0, cwd, Rest(dir, from))
    decreases |dir| - from
  {
    var at := NextSlashAt(dir, from);
    var x', arrived := OneTurn(fs0, fs, cwd, dir, from, n, x);
    if arrived && at + 1 < |dir| {
      TurnsAsAtFirst(fs0, AfterCall(fs, cwd, dir[..at] + "/", n), cwd, dir, at + 1, n, x');
    }
    CallAt(fs0, fs, cwd, dir, from, at, n);
  }

  /** Calls for what leads to a directory change nothing and are clear. */
  lemma LeadingIsClear(fs: Fs, cwd: Path, c: string, n: Node)
    requires LeadsToDir(fs, cwd, c)
    ensures Clear(fs, cwd, c) && AfterCall(fs, cwd, c, n) == fs
  {
    LookLast(fs, From(cwd, c), Components(c));
  }

  /** One call in a part of the path that leads to a directory. */
  lemma LeadingCall(fs: Fs, cwd: Path, dir: string, at: nat, from: nat, n: Node) returns (next: nat)
    requires Fits(dir) && at < from <= |dir| && dir[from - 1] == '/' && LeadsToDir(fs, cwd, dir[..from])
    ensures at < next <= from
    ensures MakeAll(fs, cwd, Rest(dir, at), n) == MakeAll(fs, cwd, Rest(dir, next), n)
    ensures AllClear(fs, cwd, Rest(dir, at)) <==> AllClear(fs, cwd, Rest(dir, next))
    ensures ClearInTurn(fs, cwd, Rest(dir, at), n) <==> ClearInTurn(fs, cwd, Rest(dir, next), n)
  {
    var slash := NextSlashAt(dir, at);
    next := slash + 1;
    LeadingPrefix(fs, cwd, dir, at, from);
    LeadingIsClear(fs, cwd, dir[..slash] + "/", n);
    CallAt(fs, fs, cwd, dir, at, slash, n);
  }

  lemma LeadingPrefix(fs: Fs, cwd: Path, dir: string, at: nat, from: nat)
    requires at < from <= |dir| && dir[from - 1] == '/' && LeadsToDir(fs, cwd, dir[..from])
    ensures NextSlashAt(dir, at) < from && LeadsToDir(fs, cwd, dir[..NextSlashAt(dir, at)] + "/")
  {
    var slash, all := NextSlashAt(dir, at), dir[..from];
    if slash + 1 < from {
      PrefixLeads(fs, cwd, dir[..slash], all);
    } else {
      assert dir[..slash] + "/" == all;
    }
  }

  lemma {:induction false} LeadingPart(fs: Fs, cwd: Path, dir: string, at: nat, from: nat, n: Node)
    requires Fits(dir) && at <= from <= |dir| && (from > 0 ==> dir[from - 1] == '/' && LeadsToDir(fs, cwd, dir[..from]))
    ensures MakeAll(fs, cwd, Rest(dir, at), n) == MakeAll(fs, cwd, Rest(dir, from), n)
    ensures AllClear(fs, cwd, Rest(dir, at)) <==> AllClear(fs, cwd, Rest(dir, from))
    ensures ClearInTurn(fs, cwd, Rest(dir, at), n) <==> ClearInTurn(fs, cwd, Rest(dir, from), n)
    decreases from - at
  {
    if at < from {
      var next := LeadingCall(fs, cwd, dir, at, from, n);
      LeadingPart(fs, cwd, dir, next, from, n);
    }
  }

  /** A relative path leads nowhere from a working directory that is gone. */
  lemma NowhereToStart(fs: Fs, cwd: Path, s: string)
    requires s != "" && !IsAbsolute(s) && !IsDir(fs, cwd)
    ensures Entry(fs, cwd, s).None? && !LeadsToDir(fs, cwd, s)
  {
    SomeComponent(s);
    LookBack(fs, From(cwd, s), Components(s), false);
    LookBack(fs, From(cwd, s), Components(s), true);
  }

  lemma {:induction false} NothingToStart(fs: Fs, cwd: Path, calls: seq<string>, n: Node)
    requires !IsDir(fs, cwd) && forall c :: c in calls ==> c != "" && !IsAbsolute(c)
    ensures MakeAll(fs, cwd, calls, n) == fs
    decreases |calls|
  {
    if calls != [] {
      assert calls[0] in calls;
      NowhereToStart(fs, cwd, calls[0]);
      assert forall d :: d in calls[1..] ==> d in calls;
      NothingToStart(fs, cwd, calls[1..], n);
    }
  }

  /** The calls start where the path starts. */
  lemma CallsStartThere(dir: string, c: string)
    requires c in MakeDirCalls(dir)
    ensures c != "" && (IsAbsolute(c) <==> IsAbsolute(dir))
  {
    if c in SlashPrefixes(dir, 0) { SlashPrefixShape(dir, 0, c); }
  }

  /** On a system that refuses nothing it could do, the directory is there in the end if and only
      if the path starts in one and each call, when its turn comes, finds nothing or a directory. */
  lemma MakeAllReaches(fs: Fs, cwd: Path, dir: string, n: Node)
    requires WellFormed(fs) && n.Dir? && Fits(dir)
    ensures LeadsToDir(MakeAll(fs, cwd, MakeDirCalls(dir), n), cwd, dir)
            <==> IsDir(fs, Start(cwd, dir)) && ClearInTurn(fs, cwd, MakeDirCalls(dir), n)
  {
    if IsDir(fs, Start(cwd, dir)) {
      assert Components(dir[..0]) == [];
      CallsReach(fs, cwd, dir, 0, n, From(cwd, dir));
    } else {
      forall c | c in MakeDirCalls(dir) ensures c != "" && !IsAbsolute(c) { CallsStartThere(dir, c); }
      NothingToStart(fs, cwd, MakeDirCalls(dir), n);
      NowhereToStart(fs, cwd, dir);
    }
  }

  /** Where a part of the path leads, the walk has arrived. */
  lemma PartArrives(fs: Fs, cwd: Path, dir: string, from: nat) returns (x: Spot)
    requires from < |dir| && DownFrom(fs, cwd, dir, from) && IsDir(fs, Start(cwd, dir))
    requires WellFormed(fs)
    ensures GoesDown(fs, fs, cwd, dir, from, x)
  {
    if from == 0 {
      assert Components(dir[..from]) == [];
      x := From(cwd, dir);
    } else {
      assert From(cwd, dir[..from]) == From(cwd, dir);
      x := Look(fs, From(cwd, dir), Components(dir[..from]), true).value;
    }
  }

  /** For a path that goes up only where it already leads to a directory this can be seen at first:
      every prefix on the way is absent or leads to a directory. */
  lemma ClearAtFirst(fs: Fs, cwd: Path, dir: string, n: Node)
    requires WellFormed(fs) && n.Dir? && Fits(dir) && Downward(fs, cwd, dir) && IsDir(fs, Start(cwd, dir))
    ensures ClearInTurn(fs, cwd, MakeDirCalls(dir), n) <==> WayClear(fs, cwd, dir)
  {
    var from: nat :| DownFrom(fs, cwd, dir, from);
    LeadingPart(fs, cwd, dir, 0, from, n);
    if from < |dir| {
      var x := PartArrives(fs, cwd, dir, from);
      TurnsAsAtFirst(fs, fs, cwd, dir, from, n, x);
    }
  }

  lemma ReachesIfClear(fs: Fs, cwd: Path, dir: string, n: Node)
    requires WellFormed(fs) && n.Dir? && Fits(dir) && Downward(fs, cwd, dir)
    ensures LeadsToDir(MakeAll(fs, cwd, MakeDirCalls(dir), n), cwd, dir)
            <==> IsDir(fs, Start(cwd, dir)) && WayClear(fs, cwd, dir)
  {
    MakeAllReaches(fs, cwd, dir, n);
    if IsDir(fs, Start(cwd, dir)) { ClearAtFirst(fs, cwd, dir, n); }
  }

  /** A directory item of the process's own reports OK in either case: the failure of mkdir goes
      unnoticed. */
  lemma FailureUnnoticed(proc: Process, w: World, t: Item, w': World, st: Status)
    requires Ready(t) && t.op.Mkdir? && Ids(proc, t.owner, t.group).Some? && !proc.faulty
    requires Ids(proc, t.owner, t.group).value.uid == proc.uid
    requires WellFormed(w.fs) && Fits(t.dir.value)
    requires MkdirStep(proc, w, t, false, w', st)
    ensures st.Ok?
    ensures LeadsToDir(w'.fs, w'.cwd, t.dir.value)
            <==> IsDir(w.fs, Start(w.cwd, t.dir.value))
                 && ClearInTurn(w.fs, w.cwd, MakeDirCalls(t.dir.value), NewDir(proc, t.perm))
  {
    MakeAllReaches(w.fs, w.cwd, t.dir.value, NewDir(proc, t.perm));
  }

  lemma {:induction false} SlashIsCalled(dir: string, from: nat, at: nat)
    requires from <= at < |dir| && dir[at] == '/'
    ensures dir[..at + 1] in SlashPrefixes(dir, from)
    decreases at - from
  {
    if from < at { SlashIsCalled(dir, from + 1, at); }
  }

  /** So a plain file on the way is an obstacle. */
  lemma FileOnTheWay(fs: Fs, cwd: Path, a: string, b: string, n: Node)
    requires var dir := a + "/" + b; WellFormed(fs) && n.Dir? && Fits(dir) && Downward(fs, cwd, dir)
    requires Stat(fs, cwd, a).Some? && Stat(fs, cwd, a).value.File?
    ensures var dir := a + "/" + b;
      !WayClear(fs, cwd, dir) && !LeadsToDir(MakeAll(fs, cwd, MakeDirCalls(dir), n), cwd, dir)
  {
    var dir := a + "/" + b;
    SlashIsCalled(dir, 0, |a|);
    assert dir[..|a| + 1] == a + "/";
    ComponentsSlash(a);
    EntryAndReach(fs, cwd, a);
    assert a + "/" in MakeDirCalls(dir) && !Clear(fs, cwd, a + "/");
    ReachesIfClear(fs, cwd, dir, n);
  }

  lemma AtRoot(a: string, b: string)
    requires '/' !in a && a != "" && '/' !in b && b != ""
    ensures Components("/" + a) == [a] && Components("/" + a + "/" + b) == [a, b]
  {
    assert "/" + a == "" + "/" + a;
    ComponentsJoin("", a);
    ComponentsJoin("/" + a, b);
    ComponentsOfName(a);
    ComponentsOfName(b);
  }

  /** For one, a root directory with nothing but a plain file in it: nothing is made below the file. */
  lemma FileInRoot(file: string, sub: string, n: Node)
    requires n.Dir? && '/' !in file && file != "" && '/' !in sub && sub != ""
    requires file != "." && file != ".." && sub != ".." && |file| + |sub| < 1000
    ensures var fs: Fs := map[[] := Dir(0x1ED, 0, 0), [file] := File([], 0x1A4, 0, 0)];
      var dir := "/" + file + "/" + sub;
      WellFormed(fs) && !LeadsToDir(MakeAll(fs, [], MakeDirCalls(dir), n), [], dir)
  {
    var fs: Fs := map[[] := Dir(0x1ED, 0, 0), [file] := File([], 0x1A4, 0, 0)];
    AtRoot(file, sub);
    assert Parent([file]) == [];
    assert Enter([], file) == [file];
    assert Look(fs, From([], "/" + file), [file], true) == Look(fs, Spot([file], SYMLOOP_MAX, true), [], true);
    var dir := "/" + file + "/" + sub;
    assert dir[0..] == dir;
    assert DownFrom(fs, [], dir, 0);
    FileOnTheWay(fs, [], "/" + file, sub, n);
  }

  lemma FileExample(n: Node)
    requires n.Dir?
    ensures var fs: Fs := map[[] := Dir(0x1ED, 0, 0), ["file"] := File([], 0x1A4, 0, 0)];
      var dir := "/" + "file" + "/" + "sub";
      WellFormed(fs) && !LeadsToDir(MakeAll(fs, [], MakeDirCalls(dir), n), [], dir)
  {
    FileInRoot("file", "sub", n);
  }

  /** The calls for a path with one name more than a are for prefixes of a, and then for all of it. */
  lemma CallsBefore(a: string, name: string, c: string) returns (p: string)
    requires c in MakeDirCalls(a + "/" + name) && c != a + "/" + name + "/" && '/' !in name
    ensures c == p + "/" && (p == a || Through(p, a))
  {
    var dir, b := a + "/" + name, "";
    p, b := SlashPrefixSplits(dir, c);
    assert dir[|p|] == '/';
    assert p == dir[..|p|] && a == dir[..|a|];
    if |p| < |a| { assert a[|p|] == '/' && a[..|p|] == p; }
  }

  /** A directory that is there, reached through links or not, is no obstacle: from it one more name
      can be made if and only if it is free or leads to a directory. */
  lemma DirectoryOnTheWay(fs: Fs, cwd: Path, a: string, name: string)
    requires LeadsToDir(fs, cwd, a) && '/' !in name && name != "" && |a + "/" + name| < PATH_MAX - 1
    ensures WayClear(fs, cwd, a + "/" + name) <==> Clear(fs, cwd, a + "/" + name + "/")
  {
    var dir := a + "/" + name;
    assert dir[|dir| - 1] == name[|name| - 1];
    assert dir + "/" in MakeDirCalls(dir);
    forall c | c in MakeDirCalls(dir) && c != dir + "/" ensures Clear(fs, cwd, c) {
      var p := CallsBefore(a, name, c);
      if p != a { PrefixLeads(fs, cwd, p, a); } else { ComponentsSlash(a); }
      LookLast(fs, From(cwd, c), Components(c));
    }
  }
}
