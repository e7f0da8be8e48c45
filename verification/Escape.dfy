/** How a run can leave the fake root: the clean-up of a failed copy removes its temporary name, and if
    that is a link on the way to the root, the next directory item makes a directory in its place. */
module Escape {
  import opened Options
  import opened Paths
  import opened FileSystem
  import opened Lookup
  import opened Ways
  import opened OperatingSystem
  import opened MakeDirs
  import opened FileCopy
  import opened CopyFacts
  import opened Names
  import opened Translate
  import opened Operators
  import opened Engine
  import opened Footprint
  import opened Reaching
  import opened Confinement

  // ---- a directory item

  lemma NoSlashBefore(dir: string, from: nat, next: nat)
    requires from <= next <= |dir| && '/' !in dir[from..next]
    ensures forall i :: from <= i < next ==> dir[i] != '/'
  {
    forall i | from <= i < next ensures dir[i] != '/' { assert dir[i] == dir[from..next][i - from]; }
  }

  /** The prefixes from a position on, when a slash is still to come: the first one, and the others. */
  lemma SlashSplits(dir: string, from: nat, next: nat)
    requires from < |dir| && next == NextSlashAt(dir, from) < |dir|
    ensures SlashPrefixes(dir, from) == [dir[..next] + "/"] + SlashPrefixes(dir, next + 1)
  {
    NoSlashBefore(dir, from, next);
    NextSlash(dir, from, next);
    assert dir[..next + 1] == dir[..next] + "/";
  }

  lemma RestSplits(dir: string, from: nat, next: nat)
    requires from < |dir| < PATH_MAX && next == NextSlashAt(dir, from) < |dir|
    ensures Rest(dir, from) == [dir[..next] + "/"] + Rest(dir, next + 1)
  {
    NoSlashBefore(dir, from, next);
    FirstCall(dir, from, next);
  }

  /** The next call, when a slash is still to come. */
  lemma SlashCall(dir: string, from: nat)
    requires from < |dir| < PATH_MAX && NextSlashAt(dir, from) < |dir|
    ensures var next := NextSlashAt(dir, from); var first := dir[..next] + "/";
      && Rest(dir, from) == [first] + Rest(dir, next + 1)
      && SlashPrefixes(dir, from) == [first] + SlashPrefixes(dir, next + 1)
      && first in SlashPrefixes(dir, from)
  {
    SlashSplits(dir, from, NextSlashAt(dir, from));
    RestSplits(dir, from, NextSlashAt(dir, from));
  }

  lemma NoSlashLeft(dir: string, from: nat)
    requires from < |dir| && NextSlashAt(dir, from) == |dir|
    ensures SlashPrefixes(dir, from) == []
  {
    NoSlashBefore(dir, from, |dir|);
    NoSlashNoPrefix(dir, from);
  }

  lemma FirstMade(fs: Fs, cwd: Path, calls: seq<string>, c: string, rest: seq<string>, n: Node)
    requires calls == [c] + rest
    ensures MadeLog(fs, cwd, calls, n)
         == (if Creatable(fs, cwd, c) then [c] else []) + MadeLog(AfterCall(fs, cwd, c, n), cwd, rest, n)
  {
    assert calls[1..] == rest;
  }

  lemma SlashIsToCome(dir: string, from: nat, c: string)
    requires from <= |dir| && c in SlashPrefixes(dir, from)
    ensures from < |dir| && NextSlashAt(dir, from) < |dir|
  {
    SlashPrefixShape(dir, from, c);
    if NextSlashAt(dir, from) == |dir| { NoSlashLeft(dir, from); }
  }

  /** The next call is made if it is free; otherwise it is as if it had not been. */
  lemma FirstOrRestMade(fs: Fs, cwd: Path, dir: string, from: nat, next: nat, n: Node)
    requires from < |dir| < PATH_MAX && next == NextSlashAt(dir, from) < |dir|
    ensures var first, made := dir[..next] + "/", MadeLog(fs, cwd, Rest(dir, from), n);
      if Creatable(fs, cwd, first) then first in made else made == MadeLog(fs, cwd, Rest(dir, next + 1), n)
  {
    RestSplits(dir, from, next);
    FirstMade(fs, cwd, Rest(dir, from), dir[..next] + "/", Rest(dir, next + 1), n);
  }

  lemma FirstOrLater(dir: string, from: nat, next: nat, c: string)
    requires from < |dir| && next == NextSlashAt(dir, from) < |dir| && c in SlashPrefixes(dir, from)
    ensures next + 1 <= |c| && (c == dir[..next] + "/" || c in SlashPrefixes(dir, next + 1))
  {
    SlashSplits(dir, from, next);
    if c != dir[..next] + "/" { SlashPrefixShape(dir, next + 1, c); }
  }

  /** One turn with a free prefix to come: the next call is made, or the prefix comes later. */
  lemma OneLook(fs: Fs, cwd: Path, dir: string, from: nat, c: string, n: Node)
      returns (made: bool, s: string, later: nat)
    requires from <= |dir| < PATH_MAX && c in SlashPrefixes(dir, from) && Creatable(fs, cwd, c)
    ensures made ==> s in MadeLog(fs, cwd, Rest(dir, from), n) && |s| <= |c|
    ensures !made ==> from < later <= |dir| && c in SlashPrefixes(dir, later)
                      && MadeLog(fs, cwd, Rest(dir, from), n) == MadeLog(fs, cwd, Rest(dir, later), n)
  {
    SlashIsToCome(dir, from, c);
    var next := NextSlashAt(dir, from);
    FirstOrLater(dir, from, next, c);
    FirstOrRestMade(fs, cwd, dir, from, next, n);
    s, later := dir[..next] + "/", next + 1;
    made := Creatable(fs, cwd, s);
  }

  /** If a prefix is free, it or an earlier one is made. */
  lemma {:induction false} FreePrefixIsMade(fs: Fs, cwd: Path, dir: string, from: nat, c: string, n: Node)
      returns (s: string)
    requires from <= |dir| < PATH_MAX && c in SlashPrefixes(dir, from) && Creatable(fs, cwd, c)
    ensures s in MadeLog(fs, cwd, Rest(dir, from), n) && |s| <= |c|
    decreases |dir| - from
  {
    var made, first, later := OneLook(fs, cwd, dir, from, c, n);
    s := first;
    if !made { s := FreePrefixIsMade(fs, cwd, dir, later, c, n); }
  }

  lemma ShortIsPrefix(dir: string, from: nat, s: string)
    requires from < |dir| && s in Rest(dir, from) && |s| <= |dir|
    ensures s in SlashPrefixes(dir, from)
  {
  }

  lemma {:induction false} MadeIsCalled(fs: Fs, cwd: Path, calls: seq<string>, s: string, n: Node)
    requires s in MadeLog(fs, cwd, calls, n)
    ensures s in calls
    decreases |calls|
  {
    if !(Creatable(fs, cwd, calls[0]) && s == calls[0]) {
      MadeIsCalled(AfterCall(fs, cwd, calls[0], n), cwd, calls[1..], s, n);
    }
  }

  lemma NothingLeft(fs: Fs, cwd: Path, dir: string, from: nat, n: Node)
    ensures |dir| <= from ==> MadeLog(fs, cwd, Rest(dir, from), n) == []
  {
  }

  /** What is made up to the length of the path comes at or after the next slash. */
  lemma MadePrefix(fs: Fs, cwd: Path, dir: string, from: nat, s: string, n: Node)
    requires |dir| < PATH_MAX && from < |dir| && s in MadeLog(fs, cwd, Rest(dir, from), n) && |s| <= |dir|
    ensures var next := NextSlashAt(dir, from); next < |dir| && next + 1 <= |s|
  {
    MadeIsCalled(fs, cwd, Rest(dir, from), s, n);
    ShortIsPrefix(dir, from, s);
    SlashPrefixShape(dir, from, s);
    if NextSlashAt(dir, from) == |dir| { NoSlashLeft(dir, from); }
    SlashCall(dir, from);
  }

  lemma MadeLater(fs: Fs, cwd: Path, dir: string, from: nat, s: string, n: Node)
    requires from < |dir| < PATH_MAX && NextSlashAt(dir, from) < |dir| && s in MadeLog(fs, cwd, Rest(dir, from), n)
    requires !Creatable(fs, cwd, dir[..NextSlashAt(dir, from)] + "/")
    ensures var next := NextSlashAt(dir, from); next + 1 < |dir| && s in MadeLog(fs, cwd, Rest(dir, next + 1), n)
  {
    var next := NextSlashAt(dir, from);
    SlashCall(dir, from);
    FirstMade(fs, cwd, Rest(dir, from), dir[..next] + "/", Rest(dir, next + 1), n);
    NothingLeft(fs, cwd, dir, next + 1, n);
  }

  lemma LaterPrefixes(dir: string, from: nat, next: nat)
    requires from <= next < |dir|
    ensures forall c :: c in SlashPrefixes(dir, next + 1) ==> c in SlashPrefixes(dir, from)
  {
    forall c | c in SlashPrefixes(dir, next + 1) ensures c in SlashPrefixes(dir, from) {
      SlashPrefixShape(dir, next + 1, c);
      SlashIsCalled(dir, from, |c| - 1);
    }
  }

  /** If a prefix is made, it or an earlier one was free. */
  lemma {:induction false} MadePrefixWasFree(fs: Fs, cwd: Path, dir: string, from: nat, s: string, n: Node)
      returns (c: string)
    requires |dir| < PATH_MAX && from < |dir| && s in MadeLog(fs, cwd, Rest(dir, from), n) && |s| <= |dir|
    ensures c in SlashPrefixes(dir, from) && Creatable(fs, cwd, c) && |c| <= |s|
    decreases |dir| - from
  {
    var next := NextSlashAt(dir, from);
    MadePrefix(fs, cwd, dir, from, s, n);
    if Creatable(fs, cwd, dir[..next] + "/") {
      SlashCall(dir, from);
      c := dir[..next] + "/";
    } else {
      MadeLater(fs, cwd, dir, from, s, n);
      c := MadePrefixWasFree(fs, cwd, dir, next + 1, s, n);
      LaterPrefixes(dir, from, next);
    }
  }

  // ---- one directory item

  /** On a system that refuses nothing, a directory item leaves the root if and only if a prefix of the
      root is free. */
  lemma MkdirEscapesIff(root: string, proc: Process, w: World, t: Item, w': World, st: Status)
    requires GoodRoot(root) && Ready(t) && Below(root, t.dir.value) && |t.dir.value| < PATH_MAX && !proc.faulty
    requires t.op.Mkdir? && Ids(proc, t.owner, t.group).Some? && MkdirStep(proc, w, t, false, w', st)
    ensures w.log <= w'.log
    ensures LogBelow(root, w.log, w'.log) <==> forall c :: c in SlashPrefixes(root, 0) ==> !Creatable(w.fs, w.cwd, c)
  {
    var id, dir, n := Ids(proc, t.owner, t.group).value, t.dir.value, NewDir(proc, t.perm);
    var mid :| MadeDirs(proc, w, MakeDirCalls(dir), t.perm, mid) && DirOwned(proc, mid, dir, id, w', st)
      && MadeAll(w, MakeDirCalls(dir), n, mid);
    MadeLogBelow(root, w.fs, w.cwd, dir, n);
    LogBelowIff(root, w.log, MadeLog(w.fs, w.cwd, MakeDirCalls(dir), n), if w' == mid then [] else [dir]);
  }

  lemma LogBelowIff(root: string, before: seq<string>, made: seq<string>, owned: seq<string>)
    requires forall s :: s in owned ==> Below(root, s)
    ensures LogBelow(root, before, before + made + owned) <==> forall s :: s in made ==> Below(root, s)
    ensures before + made + [] == before + made
  {
    var after := before + made + owned;
    if LogBelow(root, before, after) {
      forall s | s in made ensures Below(root, s) {
        var i :| 0 <= i < |made| && made[i] == s;
        assert after[|before| + i] == s;
      }
    }
  }

  lemma MadeLogBelow(root: string, fs: Fs, cwd: Path, dir: string, n: Node)
    requires GoodRoot(root) && Below(root, dir) && |dir| < PATH_MAX && n.Dir?
    ensures (forall s :: s in MadeLog(fs, cwd, MakeDirCalls(dir), n) ==> Below(root, s))
       <==> forall c :: c in SlashPrefixes(root, 0) ==> !Creatable(fs, cwd, c)
  {
    assert MakeDirCalls(dir) == Rest(dir, 0);
    forall c | c in SlashPrefixes(root, 0) && Creatable(fs, cwd, c)
      ensures exists s :: s in MadeLog(fs, cwd, MakeDirCalls(dir), n) && !Below(root, s)
    {
      RootPrefixIsCalled(root, dir, c);
      var s := FreePrefixIsMade(fs, cwd, dir, 0, c, n);
    }
    forall s | s in MadeLog(fs, cwd, MakeDirCalls(dir), n) && !Below(root, s)
      ensures exists c :: c in SlashPrefixes(root, 0) && Creatable(fs, cwd, c)
    {
      MadeIsCalled(fs, cwd, MakeDirCalls(dir), s, n);
      if s !in SlashPrefixes(root, 0) { CallBelow(root, dir, s); }
      SlashPrefixShape(root, 0, s);
      var c := MadePrefixWasFree(fs, cwd, dir, 0, s, n);
      CallOnWay(root, dir, c);
    }
  }

  lemma RootPrefixIsCalled(root: string, dir: string, c: string)
    requires Below(root, dir) && c in SlashPrefixes(root, 0)
    ensures c in SlashPrefixes(dir, 0) && |c| <= |root|
  {
    SlashPrefixShape(root, 0, c);
    assert dir[..|root|] == root && c == dir[..|c|];
    SlashIsCalled(dir, 0, |c| - 1);
  }

  // ---- one copy

  /** On a system that refuses nothing, a copy whose source can be opened removes a link on the way to
      the root if and only if that is its temporary name. */
  lemma CopyLosesLinkIff(root: string, proc: Process, w: World, t: Item, w': World, st: Status, l: Path)
    requires Standing(root, w) && l in LinksOnWay(root, w) && Ready(t) && IsCopy(t.op) && !proc.faulty
    requires Ids(proc, t.owner, t.group).Some? && HasSource(w, t.src.value)
    requires CopyItemStep(proc, w, t, false, w', st)
    ensures w'.cwd == w.cwd && (l !in w'.fs <==> TempEntry(w, t.dst.value) == Some(l))
    ensures TempEntry(w, t.dst.value) == Some(l) ==> w'.fs == w.fs - {l}
  {
    if TempEntry(w, t.dst.value) == Some(l) {
      var hops := WayLinkLeads(w.fs, From(w.cwd, root), Components(root), l);
      WayLinkNotWritable(w.fs, w.cwd, TempName(t.dst.value), l, hops);
    } else if st.Ok? {
      EntryAndReach(w.fs, w.cwd, TempName(t.dst.value));
    }
  }

  /** With that link gone, a prefix of the root is free if and only if it names the link, and does not
      pass through it before. */
  lemma FreeWithoutLinkIff(root: string, w: World, l: Path, c: string)
    requires Standing(root, w) && l in LinksOnWay(root, w) && c in SlashPrefixes(root, 0)
    ensures Creatable(w.fs - {l}, w.cwd, c) <==>
      Entry(w.fs, w.cwd, c) == Some(l) && l !in Passed(w.fs, From(w.cwd, c), Components(c), false)
  {
    var g, at := w.fs - {l}, From(w.cwd, c);
    var p := WayOfPrefix(root, w, w, c);
    LookReplaced(w.fs, g, at, Components(c), l);
    LookNamesOld(w.fs, g, at, Components(c), LinksOnWay(root, w));
    if l != [] { assert IsDir(w.fs, Parent(l)); }
  }

  // ---- a copy and a directory item

  /** A prefix of the root names the link, and does not pass through it before. */
  ghost predicate NamedOnWay(root: string, w: World, l: Path) {
    exists c :: c in SlashPrefixes(root, 0)
      && Entry(w.fs, w.cwd, c) == Some(l) && l !in Passed(w.fs, From(w.cwd, c), Components(c), false)
  }

  /** The copy removes a link on the way, named by a prefix of the root. */
  ghost predicate OpensWay(root: string, w: World, dst: string) {
    exists l :: l in TempSet(w, dst) && l in LinksOnWay(root, w) && NamedOnWay(root, w, l)
  }

  lemma FreeAfterCopy(root: string, proc: Process, w: World, t: Item, w': World, st: Status)
    requires Standing(root, w) && Ready(t) && IsCopy(t.op) && !proc.faulty
    requires Ids(proc, t.owner, t.group).Some? && HasSource(w, t.src.value)
    requires forall x :: x in TempSet(w, t.dst.value) && IsSymlink(w.fs, x) ==> x in LinksOnWay(root, w)
    requires CopyItemStep(proc, w, t, false, w', st)
    ensures (exists c :: c in SlashPrefixes(root, 0) && Creatable(w'.fs, w'.cwd, c)) <==> OpensWay(root, w, t.dst.value)
  {
    var dst := t.dst.value;
    if l :| l in TempSet(w, dst) && l in LinksOnWay(root, w) {
      CopyLosesLinkIff(root, proc, w, t, w', st, l);
      forall c | c in SlashPrefixes(root, 0)
        ensures Creatable(w'.fs, w'.cwd, c) <==>
          Entry(w.fs, w.cwd, c) == Some(l) && l !in Passed(w.fs, From(w.cwd, c), Components(c), false)
      {
        FreeWithoutLinkIff(root, w, l, c);
      }
      assert OpensWay(root, w, dst) <==> NamedOnWay(root, w, l);
    } else {
      var id := Ids(proc, t.owner, t.group).value;
      CopyKeeps(root, w, proc, w, t.src.value, dst, id.uid, id.gid, t.perm, w', st);
      forall c | c in SlashPrefixes(root, 0) ensures !Creatable(w'.fs, w'.cwd, c) { PrefixNamesOld(root, w, w', c); }
    }
  }

  /** On a system that refuses nothing: a copy whose source can be opened, then a directory.  Exactly
      then does the run leave the root when the copy's temporary name is a link on the way to the root
      that a prefix of the root names. */
  lemma CopyThenMkdirEscapesIff(root: string, cfg: Config, proc: Process, items: seq<Item>,
                                ws: seq<World>, sts: seq<Status>, t: Item)
    requires |items| == 2 && InstallRun(cfg, proc, items, false, ws, sts) && !proc.faulty
    requires GoodRoot(root) && cfg.fakeRoot == Some(root) && Standing(root, ws[0])
    requires IsCopy(items[0].op) && items[1].op.Mkdir? && Sane(items[0]) && Sane(items[1])
    requires Translated(cfg, ws[0].fs, ws[0].cwd, items[0]) == Success(t)
    requires Ids(proc, t.owner, t.group).Some? && Ids(proc, items[1].owner, items[1].group).Some?
    requires HasSource(ws[0], t.src.value)
    requires forall x :: x in TempSet(ws[0], t.dst.value) && IsSymlink(ws[0].fs, x) ==> x in LinksOnWay(root, ws[0])
    ensures LogBelow(root, ws[0].log, ws[2].log) <==> !OpensWay(root, ws[0], t.dst.value)
  {
    assert InstallAt(cfg, proc, items, false, ws, sts, 0) && InstallAt(cfg, proc, items, false, ws, sts, 1);
    TranslatedBelow(root, cfg, ws[0].fs, ws[0].cwd, items[0]);
    FreeAfterCopy(root, proc, ws[0], t, ws[1], sts[0]);
    CopyLogs(root, proc, ws[0], t, ws[1], sts[0]);
    MkdirItemEscapesIff(root, cfg, proc, ws[1], items[1], ws[2], sts[1]);
    LogsGoOn(root, ws[0].log, ws[1].log, ws[2].log);
  }

  lemma MkdirItemEscapesIff(root: string, cfg: Config, proc: Process, w: World, it: Item, w': World, st: Status)
    requires GoodRoot(root) && cfg.fakeRoot == Some(root) && !proc.faulty
    requires Sane(it) && it.op.Mkdir? && Ids(proc, it.owner, it.group).Some?
    requires InstallStep(cfg, proc, w, it, false, w', st)
    ensures w.log <= w'.log
    ensures LogBelow(root, w.log, w'.log) <==> forall c :: c in SlashPrefixes(root, 0) ==> !Creatable(w.fs, w.cwd, c)
  {
    var t := Translated(cfg, w.fs, w.cwd, it).value;
    TranslatedBelow(root, cfg, w.fs, w.cwd, it);
    MkdirEscapesIff(root, proc, w, t, w', st);
  }

  lemma CopyLogs(root: string, proc: Process, w: World, t: Item, w': World, st: Status)
    requires GoodRoot(root) && Ready(t) && IsCopy(t.op) && Below(root, t.dst.value)
    requires CopyItemStep(proc, w, t, false, w', st)
    ensures LogBelow(root, w.log, w'.log)
  {
  }

  // ---- any run

  /** A directory item of which the accounts are known, and a free prefix of the root. */
  ghost predicate FindsFree(root: string, proc: Process, w: World, it: Item) {
    && it.op.Mkdir? && Ids(proc, it.owner, it.group).Some?
    && exists c :: c in SlashPrefixes(root, 0) && Creatable(w.fs, w.cwd, c)
  }

  lemma LinkLogs(root: string, proc: Process, w: World, t: Item, w': World, st: Status)
    requires GoodRoot(root) && Ready(t) && t.op != Mkdir && Below(root, t.dir.value)
    requires !IsAbsolute(t.dst.value) || Below(root, t.dst.value)
    requires LinkStep(proc, w, t, false, w', st)
    ensures LogBelow(root, w.log, w'.log)
  {
  }

  lemma OtherLogsBelow(root: string, cfg: Config, proc: Process, w: World, it: Item, w': World, st: Status)
    requires GoodRoot(root) && cfg.fakeRoot == Some(root) && Sane(it) && !it.op.Mkdir?
    requires LinkStaysBelow(root, it) && InstallStep(cfg, proc, w, it, false, w', st)
    ensures LogBelow(root, w.log, w'.log)
  {
    if Translated(cfg, w.fs, w.cwd, it).Success? {
      var t := Translated(cfg, w.fs, w.cwd, it).value;
      TranslatedBelow(root, cfg, w.fs, w.cwd, it);
      if IsLink(t.op) {
        LinkLogs(root, proc, w, t, w', st);
      } else {
        CopyLogs(root, proc, w, t, w', st);
      }
    }
  }

  lemma StepEscapesIff(root: string, cfg: Config, proc: Process, w: World, it: Item, w': World, st: Status)
    requires GoodRoot(root) && cfg.fakeRoot == Some(root) && !proc.faulty
    requires Sane(it) && LinkStaysBelow(root, it) && InstallStep(cfg, proc, w, it, false, w', st)
    ensures w.log <= w'.log
    ensures LogBelow(root, w.log, w'.log) <==> !FindsFree(root, proc, w, it)
  {
    if it.op.Mkdir? {
      if Ids(proc, it.owner, it.group).Some? { MkdirItemEscapesIff(root, cfg, proc, w, it, w', st); }
    } else {
      OtherLogsBelow(root, cfg, proc, w, it, w', st);
    }
  }

  lemma ItemEscapesIff(root: string, cfg: Config, proc: Process, items: seq<Item>,
                       ws: seq<World>, sts: seq<Status>, i: nat)
    requires GoodRoot(root) && cfg.fakeRoot == Some(root) && !proc.faulty
    requires InstallRun(cfg, proc, items, false, ws, sts) && i < |items|
    requires LinkStaysBelow(root, items[i])
    ensures ws[i].log <= ws[i + 1].log
    ensures LogBelow(root, ws[i].log, ws[i + 1].log) <==> !FindsFree(root, proc, ws[i], items[i])
  {
    assert InstallAt(cfg, proc, items, false, ws, sts, i);
    StepEscapesIff(root, cfg, proc, ws[i], items[i], ws[i + 1], sts[i]);
  }

  /** On a system that refuses nothing, whatever else is in the list, a run leaves the root if and only
      if some directory item finds a prefix of the root free when its turn comes. */
  lemma {:induction false} RunEscapesIff(root: string, cfg: Config, proc: Process, items: seq<Item>,
                                         ws: seq<World>, sts: seq<Status>, n: nat)
    requires GoodRoot(root) && cfg.fakeRoot == Some(root) && !proc.faulty
    requires InstallRun(cfg, proc, items, false, ws, sts) && n <= |items|
    requires forall i :: 0 <= i < |items| ==> LinkStaysBelow(root, items[i])
    ensures ws[0].log <= ws[n].log
    ensures LogBelow(root, ws[0].log, ws[n].log)
            <==> forall i :: 0 <= i < n ==> !FindsFree(root, proc, ws[i], items[i])
    decreases n
  {
    if n > 0 {
      RunEscapesIff(root, cfg, proc, items, ws, sts, n - 1);
      ItemEscapesIff(root, cfg, proc, items, ws, sts, n - 1);
      LogsGoOn(root, ws[0].log, ws[n - 1].log, ws[n].log);
    }
  }

  lemma LogsGoOn(root: string, a: seq<string>, b: seq<string>, c: seq<string>)
    requires a <= b <= c
    ensures LogBelow(root, a, c) <==> LogBelow(root, a, b) && LogBelow(root, b, c)
  {
    if LogBelow(root, a, c) {
      forall i | |a| <= i < |b| ensures Below(root, b[i]) { assert b[i] == c[i]; }
    }
  }

  // ---- a run that leaves the root

  predicate PlainName(s: string) {
    '/' !in s && s != "" && s != "." && s != ".." && |s| < 100
  }

  /** Four names: of a link "<base>.tmp" in the top directory, of the directory it leads to, of the root
      in that, and of a file to install. */
  predicate FourNames(base: string, dir: string, sub: string, file: string) {
    && PlainName(base) && PlainName(dir) && PlainName(sub) && PlainName(file)
    && dir != base + ".tmp" && file != base + ".tmp" && file != dir
    && !StrEnds(base, ".vlb") && !StrEnds("/" + file, ".vlb")
  }

  /** The root "/<base>.tmp/<sub>", through the link. */
  function RootOf(base: string, sub: string): string {
    "/" + (base + ".tmp") + "/" + sub
  }

  function WorldOf(base: string, dir: string, sub: string, file: string): World {
    World(map[[] := Dir(0x1ED, 0, 0), [dir] := Dir(0x1ED, 0, 0), [dir, sub] := Dir(0x1ED, 0, 0),
              [base + ".tmp"] := Link("/" + dir), [file] := File([], 0x1A4, 0, 0)], [], [])
  }

  /** COPY the file to "../../<base>", then MKDIR "sub". */
  function ItemsOf(base: string, file: string): seq<Item> {
    [Item(Copy, Some("/" + file), Some(base), Some("../.."), None, None, 0x1A4),
     Item(Mkdir, None, None, Some("sub"), None, None, 0x1ED)]
  }

  lemma WorldIsTree(base: string, dir: string, sub: string, file: string)
    requires FourNames(base, dir, sub, file)
    ensures WellFormed(WorldOf(base, dir, sub, file).fs)
  {
    assert forall x: string :: Parent([x]) == [];
    assert Parent([dir, sub]) == [dir];
  }

  lemma WorldHolds(base: string, dir: string, sub: string, file: string)
    requires FourNames(base, dir, sub, file)
    ensures var fs, l := WorldOf(base, dir, sub, file).fs, base + ".tmp";
      && IsDir(fs, []) && IsDir(fs, [dir]) && IsDir(fs, [dir, sub]) && IsFile(fs, [file])
      && IsSymlink(fs, [l]) && fs[[l]].target == "/" + dir && '/' !in l
      && Enter([], l) == [l] && Enter([], dir) == [dir] && Enter([], file) == [file] && Enter([dir], sub) == [dir, sub]
  {
    var l := base + ".tmp";
    assert l[|l| - 1] == 'p';
    assert [] + [dir] == [dir] && [] + [file] == [file] && [] + [l] == [l] && [dir] + [sub] == [dir, sub];
    assert [l][0] == l && [file][0] == file && [dir][0] == dir;
  }

  lemma RootNames(base: string, dir: string, sub: string, file: string)
    requires FourNames(base, dir, sub, file)
    ensures var l := base + ".tmp";
      && Components(RootOf(base, sub)) == [l, sub] && Components("/" + l) == [l]
      && Components("/" + dir) == [dir] && Components("/" + file) == [file]
      && From([], RootOf(base, sub)) == Spot([], SYMLOOP_MAX, true)
  {
    AtRoot(base + ".tmp", sub);
    AtRoot(dir, sub);
    AtRoot(file, sub);
  }

  /** Where the link leads. */
  lemma LinkWalk(base: string, dir: string, sub: string, file: string)
    requires FourNames(base, dir, sub, file)
    ensures var fs, l := WorldOf(base, dir, sub, file).fs, base + ".tmp";
      Look(fs, Spot([], SYMLOOP_MAX, true), [l], true) == Some(Spot([dir], SYMLOOP_MAX - 1, true))
  {
    var fs, l, there := WorldOf(base, dir, sub, file).fs, base + ".tmp", Spot([], SYMLOOP_MAX - 1, true);
    WorldHolds(base, dir, sub, file);
    RootNames(base, dir, sub, file);
    assert Components("/" + dir) + [l][1..] == [dir];
    assert Look(fs, Spot([], SYMLOOP_MAX, true), [l], true) == Look(fs, there, [dir], true);
    assert Look(fs, there, [dir], true) == Look(fs, Spot([dir], SYMLOOP_MAX - 1, true), [], true);
  }

  /** And the root beyond it. */
  lemma RootWalk(base: string, dir: string, sub: string, file: string)
    requires FourNames(base, dir, sub, file)
    ensures var fs, l := WorldOf(base, dir, sub, file).fs, base + ".tmp";
      Look(fs, Spot([], SYMLOOP_MAX, true), [l, sub], true) == Some(Spot([dir, sub], SYMLOOP_MAX - 1, true))
  {
    var fs, l, there := WorldOf(base, dir, sub, file).fs, base + ".tmp", Spot([dir], SYMLOOP_MAX - 1, true);
    WorldHolds(base, dir, sub, file);
    LinkWalk(base, dir, sub, file);
    OneStep(fs, Spot([], SYMLOOP_MAX, true), [l], sub, there);
    assert [l] + [sub] == [l, sub];
    assert Look(fs, there, [sub], true) == Look(fs, Spot([dir, sub], SYMLOOP_MAX - 1, true), [], true);
  }

  /** Up twice from the root, and the link by its name. */
  lemma BackWalk(base: string, dir: string, sub: string, file: string)
    requires FourNames(base, dir, sub, file)
    ensures var fs, l := WorldOf(base, dir, sub, file).fs, base + ".tmp";
      Look(fs, Spot([], SYMLOOP_MAX, true), [l, sub] + ([".."] + [".."]) + [l], false)
      == Some(Spot([l], SYMLOOP_MAX - 1, true))
  {
    var fs, l, h := WorldOf(base, dir, sub, file).fs, base + ".tmp", SYMLOOP_MAX - 1;
    var at := Spot([], SYMLOOP_MAX, true);
    WorldHolds(base, dir, sub, file);
    RootWalk(base, dir, sub, file);
    OneStep(fs, at, [l, sub], "..", Spot([dir, sub], h, true));
    assert [dir, sub][..1] == [dir];
    assert Look(fs, Spot([dir, sub], h, true), [".."], true) == Look(fs, Spot([dir], h, true), [], true);
    OneStep(fs, at, [l, sub] + [".."], "..", Spot([dir], h, true));
    assert [dir][..0] == [];
    assert Look(fs, Spot([dir], h, true), [".."], true) == Look(fs, Spot([], h, true), [], true);
    OneStep(fs, at, [l, sub] + [".."] + [".."], l, Spot([], h, true));
    assert [l, sub] + [".."] + [".."] == [l, sub] + ([".."] + [".."]);
  }

  /** The temporary name of the copy. */
  lemma TempComponents(base: string, sub: string)
    requires PlainName(base) && PlainName(sub)
    ensures var dst := RootOf(base, sub) + "/" + ("../.." + "/" + base);
      && |dst| < 500 && TempName(dst) == RootOf(base, sub) + "/" + ("../.." + "/" + (base + ".tmp"))
      && Components(TempName(dst)) == Components(RootOf(base, sub)) + (([".."] + [".."]) + [base + ".tmp"])
  {
    var root, l := RootOf(base, sub), base + ".tmp";
    var dst := root + "/" + ("../.." + "/" + base);
    assert dst + ".tmp" == root + "/" + ("../.." + "/" + l);
    ComponentsOfName("..");
    ComponentsOfName(l);
    assert "../.." == ".." + "/" + "..";
    ComponentsJoin("..", "..");
    ComponentsJoin("../..", l);
    ComponentsJoin(root, "../.." + "/" + l);
  }

  /** The copy, as translated. */
  lemma CopyNames(base: string, dir: string, sub: string, file: string, cfg: Config) returns (t: Item)
    requires FourNames(base, dir, sub, file) && cfg.fakeRoot == Some(RootOf(base, sub))
    ensures var w, it := WorldOf(base, dir, sub, file), ItemsOf(base, file)[0];
      && Translated(cfg, w.fs, w.cwd, it) == Success(t) && t.src == Some("/" + file) && t.owner.None? && t.group.None?
      && t.dst == Some(RootOf(base, sub) + "/" + ("../.." + "/" + base))
  {
    var w, it, root := WorldOf(base, dir, sub, file), ItemsOf(base, file)[0], RootOf(base, sub);
    ComponentsOfName(base);
    t := it.(dst := Some(root + "/" + ("../.." + "/" + base)));
    assert BaseNameOf(base) == base;
    assert RealName(w.fs, w.cwd, base) == Some(base) && RealName(w.fs, w.cwd, "/" + file) == Some("/" + file);
    assert |t.dst.value| < PATH_MAX;
  }

  /** The temporary name of the copy is the link. */
  lemma TempIsLink(base: string, dir: string, sub: string, file: string)
    requires FourNames(base, dir, sub, file)
    ensures TempEntry(WorldOf(base, dir, sub, file), RootOf(base, sub) + "/" + ("../.." + "/" + base))
         == Some([base + ".tmp"])
  {
    var l, root := base + ".tmp", RootOf(base, sub);
    TempComponents(base, sub);
    RootNames(base, dir, sub, file);
    BackWalk(base, dir, sub, file);
    assert [l, sub] + (([".."] + [".."]) + [l]) == [l, sub] + ([".."] + [".."]) + [l];
    assert From([], root + "/" + ("../.." + "/" + l)) == From([], root);
  }

  /** The first prefix of the root that ends with the link names it. */
  lemma LinkIsNamed(base: string, dir: string, sub: string, file: string)
    requires FourNames(base, dir, sub, file)
    ensures var w, root, l := WorldOf(base, dir, sub, file), RootOf(base, sub), [base + ".tmp"];
      l in LinksOnWay(root, w) && NamedOnWay(root, w, l)
  {
    var w, root, name := WorldOf(base, dir, sub, file), RootOf(base, sub), base + ".tmp";
    WorldHolds(base, dir, sub, file);
    RootNames(base, dir, sub, file);
    var c := "/" + name + "/";
    SlashIsCalled(root, 0, |name| + 1);
    assert root[..|name| + 2] == c;
    ComponentsSlash("/" + name);
    assert Look(w.fs, From([], c), [name], false) == Look(w.fs, Spot([name], SYMLOOP_MAX, true), [], false);
    assert Entry(w.fs, w.cwd, c) == Some([name]);
    assert Passed(w.fs, From(w.cwd, c), Components(c), false) == {};
    assert [name] in Passed(w.fs, From(w.cwd, root), Components(root), true);
  }

  lemma SourceIsThere(base: string, dir: string, sub: string, file: string)
    requires FourNames(base, dir, sub, file)
    ensures HasSource(WorldOf(base, dir, sub, file), "/" + file)
  {
    var w := WorldOf(base, dir, sub, file);
    WorldHolds(base, dir, sub, file);
    RootNames(base, dir, sub, file);
    assert Look(w.fs, From([], "/" + file), [file], true) == Look(w.fs, Spot([file], SYMLOOP_MAX, true), [], true);
  }

  /** Every run of the installer over these two items, in that world, on a system that refuses nothing,
      makes a directory outside the root. */
  lemma EscapingRun(base: string, dir: string, sub: string, file: string, cfg: Config, proc: Process,
                    ws: seq<World>, sts: seq<Status>)
    requires FourNames(base, dir, sub, file) && cfg.fakeRoot == Some(RootOf(base, sub)) && !proc.faulty
    requires InstallRun(cfg, proc, ItemsOf(base, file), false, ws, sts) && ws[0] == WorldOf(base, dir, sub, file)
    ensures Standing(RootOf(base, sub), ws[0]) && !LogBelow(RootOf(base, sub), ws[0].log, ws[2].log)
  {
    var root, l := RootOf(base, sub), [base + ".tmp"];
    WorldHolds(base, dir, sub, file);
    WorldIsTree(base, dir, sub, file);
    RootNames(base, dir, sub, file);
    RootWalk(base, dir, sub, file);
    var t := CopyNames(base, dir, sub, file, cfg);
    TempIsLink(base, dir, sub, file);
    assert TempSet(ws[0], t.dst.value) == {l};
    LinkIsNamed(base, dir, sub, file);
    SourceIsThere(base, dir, sub, file);
    CopyThenMkdirEscapesIff(root, cfg, proc, ItemsOf(base, file), ws, sts, t);
  }

  /** For one, root "/l.tmp/r" where /l.tmp leads to /d: COPY "/f" to "../../l", then MKDIR "sub". */
  lemma EscapingExample(cfg: Config, proc: Process, ws: seq<World>, sts: seq<Status>)
    requires cfg.fakeRoot == Some(RootOf("l", "r")) && !proc.faulty
    requires InstallRun(cfg, proc, ItemsOf("l", "f"), false, ws, sts) && ws[0] == WorldOf("l", "d", "r", "f")
    ensures !LogBelow(RootOf("l", "r"), ws[0].log, ws[2].log)
  {
    EscapingRun("l", "d", "r", "f", cfg, proc, ws, sts);
  }
}
