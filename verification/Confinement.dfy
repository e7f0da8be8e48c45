/** Installing below a fake root: whatever the item list and whatever fails, every path string a
    run creates, replaces, chowns or removes starts with the root and a slash. */
module Confinement {
  import opened Options
  import opened Paths
  import opened FileSystem
  import opened Lookup
  import opened Ways
  import opened OperatingSystem
  import opened MakeDirs
  import opened FileCopy
  import opened CopyFacts
  import opened Names
  import opened Translate
  import opened Operators
  import opened Engine
  import opened Footprint
  import opened Reaching

  predicate Below(root: string, s: string) {
    root + "/" <= s
  }

  /** A root that leaves room in the buffers for what follows it. */
  predicate GoodRoot(root: string) {
    root != "" && |root| + 1 < PATH_MAX
  }

  /** The links that are followed on the way to the root. */
  function LinksOnWay(root: string, w: World): set<Path> {
    set q | q in Passed(w.fs, From(w.cwd, root), Components(root), true) && IsSymlink(w.fs, q)
  }

  /** The root leads to a directory. */
  ghost predicate Standing(root: string, w: World) {
    WellFormed(w.fs) && LeadsToDir(w.fs, w.cwd, root)
  }

  /** What a run keeps: directories, and the links on the way to the root, save that a copy may have
      put a plain file in the place of one. */
  ghost predicate Kept(root: string, w0: World, w: World) {
    && WellFormed(w.fs) && (IsAbsolute(root) || w.cwd == w0.cwd) && Hardly(w0.fs, w.fs, LinksOnWay(root, w0))
    && forall q :: q in LinksOnWay(root, w0) ==> q in w.fs
  }

  /** A link item that fails can leave the process in another directory, where a relative root
      means something else. */
  predicate Steady(root: string, proc: Process) {
    IsAbsolute(root) || !proc.faulty
  }

  ghost predicate LogBelow(root: string, before: seq<string>, after: seq<string>) {
    before <= after && forall i :: |before| <= i < |after| ==> Below(root, after[i])
  }

  /** A link item is created under its own name when that is absolute: it must be relative, or
      lie below the root itself.  The name of a LIBLINK is the last part of the one given. */
  predicate LinkStaysBelow(root: string, it: Item) {
    match it.op
    case Symlink => it.dst.Some? ==> !IsAbsolute(it.dst.value) || Below(root, it.dst.value)
    case LibLink => it.dst.Some? ==> BaseNameOf(it.dst.value) != "/"
    case Copy => true
    case CopyExec => true
    case Mkdir => true
  }

  lemma FormatStaysBelow(root: string, s: string)
    requires GoodRoot(root) && Below(root, s)
    ensures Below(root, Format(s))
  {
  }

  lemma Joined(root: string, s: string)
    requires GoodRoot(root)
    ensures Below(root, Format(root + "/" + s))
  {
  }

  /** Below the root as a string is below the root as an entry, unless ".." or a link leads out
      again. */
  lemma BelowDescends(fs: Fs, cwd: Path, root: string, rest: string)
    requires root != "" && Entry(fs, cwd, root + "/" + rest).Some? && Components(rest) != [] && NoParentSteps(rest)
    ensures LeadsToDir(fs, cwd, root)
    ensures var top := Reach(fs, cwd, root).value;
      (forall q :: q in Passed(fs, Spot(top, SYMLOOP_MAX, true), Components(rest), false) ==> !IsSymlink(fs, q)) ==>
      top <= Entry(fs, cwd, root + "/" + rest).value
  {
    EntryJoin(fs, cwd, root, rest);
    var at := Spot(Reach(fs, cwd, root).value, SYMLOOP_MAX, true);
    if forall q :: q in Passed(fs, at, Components(rest), false) ==> !IsSymlink(fs, q) {
      LookDescends(fs, at, Components(rest), false);
    }
  }

  // ---- the way to the root

  /** A prefix of the root that ends with a slash. */
  lemma PrefixSplits(root: string, c: string) returns (p: string)
    requires c in SlashPrefixes(root, 0)
    ensures c == p + "/" && Through(p, root)
  {
    SlashPrefixShape(root, 0, c);
    p := root[..|c| - 1];
  }

  /** The way to the root, in terms of the walk. */
  lemma WayOfPrefix(root: string, w0: World, w: World, c: string) returns (p: string)
    requires Standing(root, w0) && (IsAbsolute(root) || w.cwd == w0.cwd) && c in SlashPrefixes(root, 0)
    ensures c == p + "/" && From(w.cwd, c) == From(w0.cwd, root) && Components(c) == Components(p)
    ensures LeadsAlong(w0.fs, From(w0.cwd, root), Components(c))
    ensures Passed(w0.fs, From(w0.cwd, root), Components(c), true)
      <= Passed(w0.fs, From(w0.cwd, root), Components(root), true)
  {
    p := PrefixSplits(root, c);
    ThroughIsJoin(w0.cwd, p, root);
    PrefixLeads(w0.fs, w0.cwd, p, root);
    ComponentsSlash(p);
    PassedPrefix(w0.fs, From(w0.cwd, root), Components(p), Components(root[|p| + 1..]), true);
  }

  /** So a prefix of the root names nothing but what was there at first, and none is free for mkdir. */
  lemma PrefixNamesOld(root: string, w0: World, w: World, c: string)
    requires Standing(root, w0) && Kept(root, w0, w) && c in SlashPrefixes(root, 0)
    ensures var k := Entry(w.fs, w.cwd, c); k.Some? ==> IsDir(w0.fs, k.value) || k.value in LinksOnWay(root, w0)
    ensures !Creatable(w.fs, w.cwd, c)
  {
    var p := WayOfPrefix(root, w0, w, c);
    LookNamesOld(w0.fs, w.fs, From(w0.cwd, root), Components(c), LinksOnWay(root, w0));
  }

  /** If the root leads to a directory, then to the one it led to at first, and no link on its way has
      been replaced. */
  lemma RootLeadsSame(root: string, w0: World, w: World)
    requires Standing(root, w0) && Kept(root, w0, w) && LeadsToDir(w.fs, w.cwd, root)
    ensures Reach(w.fs, w.cwd, root) == Reach(w0.fs, w0.cwd, root)
    ensures forall q :: q in LinksOnWay(root, w0) ==> IsSymlink(w.fs, q)
  {
    LookSameIfAny(w0.fs, w.fs, From(w0.cwd, root), Components(root), LinksOnWay(root, w0));
  }

  /** A run keeps this while it keeps directories and replaces the links by files at most. */
  lemma StillKept(root: string, w0: World, w: World, w': World)
    requires Kept(root, w0, w) && WellFormed(w'.fs) && (IsAbsolute(root) || w'.cwd == w.cwd)
    requires forall p :: IsDir(w.fs, p) ==> IsDir(w'.fs, p)
    requires forall q :: q in LinksOnWay(root, w0) ==>
      q in w'.fs && (w'.fs[q] == w.fs[q] || w'.fs[q].File?)
    ensures Kept(root, w0, w')
  {
  }

  /** The temporary name of a copy is not a link on the way to the root; nor is a link moved over one. */
  ghost predicate SparesWay(cfg: Config, w: World, it: Item, links: set<Path>)
    requires Sane(it)
  {
    match Translated(cfg, w.fs, w.cwd, it)
    case Success(t) => IsCopy(t.op) ==> SparedBy(w, t.dst.value, links)
    case Failure(_) => true
  }

  ghost predicate SparedBy(w: World, dst: string, links: set<Path>) {
    && TempSet(w, dst) !! links
    && ((forall x :: x in TempSet(w, dst) ==> !IsSymlink(w.fs, x)) || ReplacedBy(w, dst) !! links)
  }

  // ---- one item

  /** What translation leaves in the fields the operators use. */
  lemma TranslatedBelow(root: string, cfg: Config, fs: Fs, cwd: Path, it: Item)
    requires GoodRoot(root) && cfg.fakeRoot == Some(root)
    requires Sane(it) && Translated(cfg, fs, cwd, it).Success?
    ensures var t := Translated(cfg, fs, cwd, it).value;
      && (IsCopy(t.op) ==> Below(root, t.dst.value))
      && (!IsCopy(t.op) ==> Below(root, t.dir.value))
      && (IsLink(t.op) && LinkStaysBelow(root, it) ==> !IsAbsolute(t.dst.value) || Below(root, t.dst.value))
  {
    if IsCopy(it.op) {
      var c := CopyItem(cfg, fs, cwd, it).value;
      var dst := RealName(fs, cwd, if it.dst.Some? then it.dst.value else it.src.value).value;
      Joined(root, it.dir.value + "/" + BaseNameOf(dst));
      FormatStaysBelow(root, c.dst.value + cfg.execSuffix);
    } else {
      Joined(root, it.dir.value);
      if it.op.LibLink? { BaseNameIsName(it.dst.value); }
    }
  }

  lemma CopyKeeps(root: string, w0: World, proc: Process, w: World, src: string, dst: string,
                  uid: int, gid: int, mode: Mode, w': World, st: Status)
    requires Kept(root, w0, w) && SparedBy(w, dst, LinksOnWay(root, w0))
    requires CopyStep(proc, w, src, dst, uid, gid, mode, w', st)
    ensures Kept(root, w0, w')
  {
    if st.Ok? {
      EntryAndReach(w.fs, w.cwd, TempName(dst));
      CopyDelivers(proc, w, src, dst, uid, gid, mode);
    }
    forall q | q in LinksOnWay(root, w0) ensures q in w'.fs && (w'.fs[q] == w.fs[q] || w'.fs[q].File?) {
      assert q !in TempSet(w, dst);
    }
    StillKept(root, w0, w, w');
  }

  lemma CopyLogsBelow(root: string, w0: World, proc: Process, w: World, src: string, dst: string,
                      uid: int, gid: int, mode: Mode, w': World, st: Status)
    requires GoodRoot(root) && Below(root, dst) && Kept(root, w0, w) && SparedBy(w, dst, LinksOnWay(root, w0))
    requires CopyStep(proc, w, src, dst, uid, gid, mode, w', st)
    ensures LogBelow(root, w.log, w'.log) && Kept(root, w0, w')
  {
    CopyKeeps(root, w0, proc, w, src, dst, uid, gid, mode, w', st);
  }

  /** A call for a prefix that is no longer than the root is for a prefix of the root. */
  lemma CallOnWay(root: string, dir: string, c: string)
    requires Below(root, dir) && c in SlashPrefixes(dir, 0) && |c| <= |root|
    ensures c in SlashPrefixes(root, 0)
  {
    SlashPrefixShape(dir, 0, c);
    assert root == dir[..|root|];
    assert c == root[..|c|];
    SlashIsCalled(root, 0, |c| - 1);
  }

  /** A call that is not for a prefix of the root is for a path below it. */
  lemma CallBelow(root: string, dir: string, c: string)
    requires GoodRoot(root) && Below(root, dir) && c in MakeDirCalls(dir) && c !in SlashPrefixes(root, 0)
    ensures Below(root, c)
  {
    if c in SlashPrefixes(dir, 0) {
      SlashPrefixShape(dir, 0, c);
      if |c| <= |root| { CallOnWay(root, dir, c); }
      assert root + "/" == dir[..|root| + 1] == c[..|root| + 1];
    }
  }

  /** The directories leading to the root are asked for, but none is made. */
  lemma MadeBelow(root: string, w0: World, proc: Process, w: World, dir: string, perm: Mode, mid: World)
    requires GoodRoot(root) && Below(root, dir) && Standing(root, w0) && Kept(root, w0, w)
    requires MadeDirs(proc, w, MakeDirCalls(dir), perm, mid)
    ensures LogBelow(root, w.log, mid.log) && Kept(root, w0, mid)
  {
    StillKept(root, w0, w, mid);
    forall i | |w.log| <= i < |mid.log| ensures Below(root, mid.log[i]) {
      var c := mid.log[i];
      assert NamesNew(w, mid, c);
      if c in SlashPrefixes(root, 0) { PrefixNamesOld(root, w0, mid, c); }
      CallBelow(root, dir, c);
    }
  }

  lemma OwnedBelow(root: string, w0: World, proc: Process, mid: World, dir: string, id: Identity, w': World, st: Status)
    requires Below(root, dir) && Kept(root, w0, mid) && DirOwned(proc, mid, dir, id, w', st)
    ensures LogBelow(root, mid.log, w'.log) && Kept(root, w0, w')
  {
    if w' != mid {
      var k := Reach(mid.fs, mid.cwd, dir).value;
      WellFormedAfterUpdate(mid.fs, k, w'.fs[k]);
      StillKept(root, w0, mid, w');
    }
  }

  lemma MkdirLogsBelow(root: string, w0: World, proc: Process, w: World, t: Item, dry: bool, w': World, st: Status)
    requires GoodRoot(root) && Ready(t) && Below(root, t.dir.value) && Standing(root, w0) && Kept(root, w0, w)
    requires MkdirStep(proc, w, t, dry, w', st)
    ensures LogBelow(root, w.log, w'.log) && Kept(root, w0, w')
  {
    if w' != w {
      var id, dir := Ids(proc, t.owner, t.group).value, t.dir.value;
      var mid :| MadeDirs(proc, w, MakeDirCalls(dir), t.perm, mid) && DirOwned(proc, mid, dir, id, w', st);
      MadeBelow(root, w0, proc, w, dir, t.perm, mid);
      OwnedBelow(root, w0, proc, mid, dir, id, w', st);
    }
  }

  /** A relative root that stands does so from a directory. */
  lemma StandsSomewhere(root: string, w: World)
    requires Standing(root, w) && !IsAbsolute(root)
    ensures IsDir(w.fs, w.cwd)
  {
    SomeComponent(root);
    LookBack(w.fs, From(w.cwd, root), Components(root), true);
  }

  lemma LinkLogsBelow(root: string, w0: World, proc: Process, w: World, t: Item, dry: bool, w': World, st: Status)
    requires GoodRoot(root) && Ready(t) && t.op != Mkdir && Below(root, t.dir.value)
    requires Standing(root, w0) && Kept(root, w0, w)
    requires !IsAbsolute(t.dst.value) || Below(root, t.dst.value)
    requires Steady(root, proc) && LinkStep(proc, w, t, dry, w', st)
    ensures LogBelow(root, w.log, w'.log) && Kept(root, w0, w')
  {
    if !IsAbsolute(root) { StandsSomewhere(root, w0); }
    if w'.fs != w.fs {
      WellFormedAfterCreate(w.fs, LinkKey(w, t), Link(t.src.value));
    }
    StillKept(root, w0, w, w');
  }

  /** One installation, whatever its verdict. */
  lemma InstallLogsBelow(root: string, w0: World, cfg: Config, proc: Process, w: World, it: Item, dry: bool,
                         w': World, st: Status)
    requires GoodRoot(root) && cfg.fakeRoot == Some(root) && Steady(root, proc)
    requires Standing(root, w0) && Kept(root, w0, w)
    requires Sane(it) && LinkStaysBelow(root, it) && (dry || SparesWay(cfg, w, it, LinksOnWay(root, w0)))
    requires InstallStep(cfg, proc, w, it, dry, w', st)
    ensures LogBelow(root, w.log, w'.log) && Kept(root, w0, w')
  {
    if Translated(cfg, w.fs, w.cwd, it).Success? {
      var t := Translated(cfg, w.fs, w.cwd, it).value;
      TranslatedBelow(root, cfg, w.fs, w.cwd, it);
      if t.op.Mkdir? {
        MkdirLogsBelow(root, w0, proc, w, t, dry, w', st);
      } else if IsLink(t.op) {
        LinkLogsBelow(root, w0, proc, w, t, dry, w', st);
      } else if Ids(proc, t.owner, t.group).Some? && !dry {
        var id := Ids(proc, t.owner, t.group).value;
        CopyLogsBelow(root, w0, proc, w, t.src.value, t.dst.value, id.uid, id.gid, t.perm, w', st);
      }
    }
  }

  // ---- whole runs

  /** Any run of the installer, over any list, with any outcome, in which no copy's temporary name is a
      link on the way to the root. */
  lemma {:induction false} InstallConfined(root: string, cfg: Config, proc: Process, items: seq<Item>, dry: bool,
                                           ws: seq<World>, sts: seq<Status>, n: nat)
    requires GoodRoot(root) && cfg.fakeRoot == Some(root) && Steady(root, proc)
    requires InstallRun(cfg, proc, items, dry, ws, sts) && Standing(root, ws[0])
    requires forall i :: 0 <= i < |items| ==> Sane(items[i]) && LinkStaysBelow(root, items[i])
    requires dry || forall i :: 0 <= i < |items| ==> SparesWay(cfg, ws[i], items[i], LinksOnWay(root, ws[0]))
    requires n <= |items|
    ensures LogBelow(root, ws[0].log, ws[n].log) && Kept(root, ws[0], ws[n])
    decreases n
  {
    if n > 0 {
      InstallConfined(root, cfg, proc, items, dry, ws, sts, n - 1);
      assert InstallAt(cfg, proc, items, dry, ws, sts, n - 1);
      InstallLogsBelow(root, ws[0], cfg, proc, ws[n - 1], items[n - 1], dry, ws[n], sts[n - 1]);
    }
  }

  /** A root reached without links needs no such condition, and stays where it is. */
  lemma ConfinedToPlainRoot(root: string, cfg: Config, proc: Process, items: seq<Item>, dry: bool,
                            ws: seq<World>, sts: seq<Status>, n: nat)
    requires GoodRoot(root) && cfg.fakeRoot == Some(root) && Steady(root, proc)
    requires InstallRun(cfg, proc, items, dry, ws, sts) && Standing(root, ws[0]) && LinksOnWay(root, ws[0]) == {}
    requires forall i :: 0 <= i < |items| ==> LinkStaysBelow(root, items[i])
    requires n <= |items|
    ensures LogBelow(root, ws[0].log, ws[n].log)
    ensures LeadsToDir(ws[n].fs, ws[n].cwd, root)
    ensures Reach(ws[n].fs, ws[n].cwd, root) == Reach(ws[0].fs, ws[0].cwd, root)
  {
    forall i | 0 <= i < |items| ensures Sane(items[i]) { assert InstallAt(cfg, proc, items, dry, ws, sts, i); }
    InstallConfined(root, cfg, proc, items, dry, ws, sts, n);
    LookKept(ws[0].fs, ws[n].fs, From(ws[0].cwd, root), Components(root));
  }

  /** A copy may well put a file in the place of a link on the way.  From then on the root leads
      nowhere, and nothing is made on the way to it. */
  lemma ReplacedLinkBlocks(root: string, w0: World, w: World, q: Path, c: string)
    requires Standing(root, w0) && Kept(root, w0, w) && q in LinksOnWay(root, w0) && IsFile(w.fs, q)
    ensures !LeadsToDir(w.fs, w.cwd, root)
    ensures c in SlashPrefixes(root, 0) ==> !Creatable(w.fs, w.cwd, c)
  {
    if LeadsToDir(w.fs, w.cwd, root) { RootLeadsSame(root, w0, w); }
    if c in SlashPrefixes(root, 0) { PrefixNamesOld(root, w0, w, c); }
  }

  // ---- what can be seen in the initial state

  /** What a path names that is not a directory has the last name of the path. */
  lemma EntryHasName(fs: Fs, cwd: Path, s: string)
    requires WellFormed(fs) && Entry(fs, cwd, s).Some? && !IsDir(fs, Entry(fs, cwd, s).value)
    requires IsAbsolute(s) || Components(s) != []
    ensures var k, names := Entry(fs, cwd, s).value, Components(s);
      names != [] && k != [] && k[|k| - 1] == names[|names| - 1]
  {
    if Components(s) != [] { LookHasName(fs, From(cwd, s), Components(s)); }
  }

  lemma LookHasName(fs: Fs, at: Spot, names: seq<string>)
    requires WellFormed(fs) && names != [] && Look(fs, at, names, false).Some?
    requires Look(fs, at, names, false).value.sure && !IsDir(fs, Look(fs, at, names, false).value.path)
    ensures var k := Look(fs, at, names, false).value.path; k != [] && k[|k| - 1] == names[|names| - 1]
  {
    var front, name := names[..|names| - 1], names[|names| - 1];
    assert names == front + [name];
    LookJoin(fs, at, front, [name], false);
    LastStep(fs, Look(fs, at, front, true).value, name);
  }

  lemma LastStep(fs: Fs, x: Spot, name: string)
    requires WellFormed(fs) && Look(fs, x, [name], false).Some? && Look(fs, x, [name], false).value.sure
    requires !IsDir(fs, Look(fs, x, [name], false).value.path)
    ensures Look(fs, x, [name], false).value.path == x.path + [name]
  {
    assert Look(fs, x, [name], false)
        == Look(fs, Spot(Enter(x.path, name), x.hops, x.sure && IsDir(fs, x.path)), [], false);
    LinkHasParent(fs, x.path, name);
  }

  /** The path does not end with the name of one of the links. */
  predicate OtherName(s: string, links: set<Path>) {
    var names := Components(s);
    forall l :: l in links && l != [] && names != [] ==> l[|l| - 1] != names[|names| - 1]
  }

  lemma NotNamed(root: string, w0: World, w: World, s: string, k: Path)
    requires Kept(root, w0, w) && OtherName(s, LinksOnWay(root, w0)) && Entry(w.fs, w.cwd, s) == Some(k)
    ensures k !in LinksOnWay(root, w0)
  {
    if k in LinksOnWay(root, w0) {
      if !IsAbsolute(s) { SomeComponent(s); }
      EntryHasName(w.fs, w.cwd, s);
    }
  }

  /** An item whose names do not come from a virtual library file. */
  predicate FixedNames(it: Item) {
    && (it.src.Some? ==> !StrEnds(it.src.value, ".vlb"))
    && (it.dst.Some? ==> !StrEnds(it.dst.value, ".vlb"))
  }

  /** It translates the same way in any state. */
  lemma FixedTranslation(cfg: Config, f: Fs, c: Path, g: Fs, d: Path, it: Item)
    requires IsCopy(it.op) && FixedNames(it)
    ensures Translated(cfg, g, d, it) == Translated(cfg, f, c, it)
  {
    FixedCopy(cfg, f, c, g, d, it);
  }

  lemma FixedCopy(cfg: Config, f: Fs, c: Path, g: Fs, d: Path, it: Item)
    requires FixedNames(it)
    ensures CopyItem(cfg, g, d, it) == CopyItem(cfg, f, c, it)
  {
    if it.src.Some? {
      assert RealName(g, d, it.src.value) == RealName(f, c, it.src.value);
      if it.dst.Some? { assert RealName(g, d, it.dst.value) == RealName(f, c, it.dst.value); }
    }
  }

  /** A copy item whose names have nothing to do with the links on the way to the root. */
  ghost predicate NamesApart(cfg: Config, w0: World, it: Item, links: set<Path>)
    requires Sane(it)
  {
    match Translated(cfg, w0.fs, w0.cwd, it)
    case Success(t) =>
      IsCopy(t.op) ==> FixedNames(it) && OtherName(TempName(t.dst.value), links) && OtherName(t.dst.value, links)
    case Failure(_) => IsCopy(it.op) ==> FixedNames(it)
  }

  lemma ApartSpares(root: string, cfg: Config, w0: World, w: World, it: Item)
    requires Kept(root, w0, w) && Sane(it) && NamesApart(cfg, w0, it, LinksOnWay(root, w0))
    ensures SparesWay(cfg, w, it, LinksOnWay(root, w0))
  {
    if IsCopy(it.op) && Translated(cfg, w.fs, w.cwd, it).Success? {
      FixedTranslation(cfg, w0.fs, w0.cwd, w.fs, w.cwd, it);
      var dst := Translated(cfg, w.fs, w.cwd, it).value.dst.value;
      forall k | k in ReplacedBy(w, dst) ensures k !in LinksOnWay(root, w0) {
        if k in TempSet(w, dst) {
          NotNamed(root, w0, w, TempName(dst), k);
        } else {
          NotNamed(root, w0, w, dst, k);
        }
      }
    }
  }

  /** Any run over a list of which this can be seen in the initial state: no link item names an absolute
      path outside the root, and no file is named like a link on the way to it, with or without the
      suffix of its temporary file. */
  lemma {:induction false} ConfinedByNames(root: string, cfg: Config, proc: Process, items: seq<Item>, dry: bool,
                                           ws: seq<World>, sts: seq<Status>, n: nat)
    requires GoodRoot(root) && cfg.fakeRoot == Some(root) && Steady(root, proc)
    requires InstallRun(cfg, proc, items, dry, ws, sts) && Standing(root, ws[0])
    requires forall i :: 0 <= i < |items| ==> Sane(items[i]) && LinkStaysBelow(root, items[i])
    requires forall i :: 0 <= i < |items| ==> NamesApart(cfg, ws[0], items[i], LinksOnWay(root, ws[0]))
    requires n <= |items|
    ensures LogBelow(root, ws[0].log, ws[n].log) && Kept(root, ws[0], ws[n])
    decreases n
  {
    if n > 0 {
      ConfinedByNames(root, cfg, proc, items, dry, ws, sts, n - 1);
      assert InstallAt(cfg, proc, items, dry, ws, sts, n - 1);
      ApartSpares(root, cfg, ws[0], ws[n - 1], items[n - 1]);
      InstallLogsBelow(root, ws[0], cfg, proc, ws[n - 1], items[n - 1], dry, ws[n], sts[n - 1]);
    }
  }

  /** The condition on links is needed: a SYMLINK item that breaks it and is installed leaves the
      root. */
  lemma AbsoluteLinkEscapes(root: string, cfg: Config, proc: Process, w: World, it: Item, w': World)
    requires cfg.fakeRoot == Some(root) && it.op.Symlink?
    requires InstallStep(cfg, proc, w, it, false, w', Ok)
    ensures it.dst.Some? && |w'.log| == |w.log| + 1
    ensures GoodRoot(root) ==> (Below(root, w'.log[|w.log|]) <==> LinkStaysBelow(root, it))
  {
    if GoodRoot(root) { TranslatedBelow(root, cfg, w.fs, w.cwd, it); }
  }

  /** deinstall formats a link's directory in front of any name, so no condition is needed. */
  lemma DeinstallLogsBelow(root: string, cfg: Config, proc: Process, w: World, it: Item, dry: bool, w': World,
                           st: Status)
    requires GoodRoot(root) && cfg.fakeRoot == Some(root)
    requires Sane(it) && DeinstallStep(cfg, proc, w, it, dry, w', st)
    ensures LogBelow(root, w.log, w'.log)
  {
    if Translated(cfg, w.fs, w.cwd, it).Success? {
      TranslatedBelow(root, cfg, w.fs, w.cwd, it);
      var t := Translated(cfg, w.fs, w.cwd, it).value;
      if IsLink(t.op) { FormatStaysBelow(root, t.dir.value + "/" + t.dst.value); }
    }
  }

  lemma {:induction false} DeinstallConfined(root: string, cfg: Config, proc: Process, items: seq<Item>, dry: bool,
                                             ws: seq<World>, sts: seq<Status>, n: nat)
    requires GoodRoot(root) && cfg.fakeRoot == Some(root)
    requires DeinstallRun(cfg, proc, items, dry, ws, sts) && n <= |items|
    ensures LogBelow(root, ws[|items|].log, ws[n].log)
    decreases |items| - n
  {
    if n < |items| {
      DeinstallConfined(root, cfg, proc, items, dry, ws, sts, n + 1);
      assert DeinstallAt(cfg, proc, items, dry, ws, sts, n);
      DeinstallLogsBelow(root, cfg, proc, ws[n + 1], items[n], dry, ws[n], sts[n]);
    }
  }
}
