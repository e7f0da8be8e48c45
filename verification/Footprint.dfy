/** Where an item lands, and what a successful installation of one item leaves there. */
module Footprint {
  import opened Options
  import opened Paths
  import opened FileSystem
  import opened Lookup
  import opened OperatingSystem
  import opened MakeDirs
  import opened FileCopy
  import opened Translate
  import opened Operators

  predicate IsCopy(op: Op) { op.Copy? || op.CopyExec? }

  predicate IsLink(op: Op) { op.Symlink? || op.LibLink? }

  /** The path of an item, as deinstall forms it, names the entry. */
  predicate Lands(w: World, t: Item, k: Path)
    requires Ready(t)
  {
    Entry(w.fs, w.cwd, RemovedPath(t)) == Some(k)
  }

  /** Owner and group of an installed file or directory: a group alone is never set. */
  function InstalledOwner(proc: Process, id: Identity): Identity {
    if id.uid == proc.uid then Identity(proc.uid, proc.gid) else id
  }

  /** What the names of an item must look like for its footprint to be the one entry k, where its
      path leads: a copy's temporary name and destination are free; a link has a relative name that
      fits a buffer with its directory; a directory path goes up only where it already
      leads to a directory, and mkdir did not fail. */
  ghost predicate Regular(w: World, t: Item, k: Path, w': World)
    requires Ready(t)
  {
    match t.op
    case Copy => FreshAt(w, t, k)
    case CopyExec => FreshAt(w, t, k)
    case Symlink => LinkNames(w, t, k)
    case LibLink => LinkNames(w, t, k)
    case Mkdir => Downward(w.fs, w.cwd, t.dir.value) && Lands(w', t, k) && IsDir(w'.fs, k)
  }

  predicate FreshAt(w: World, t: Item, k: Path)
    requires Ready(t) && !t.op.Mkdir?
  {
    && Place(w.fs, w.cwd, t.dst.value) == Some(k) && k !in w.fs
    && forall x :: x in TempSet(w, t.dst.value) ==> x !in w.fs
  }

  predicate LinkNames(w: World, t: Item, k: Path)
    requires Ready(t) && !t.op.Mkdir?
  {
    && !IsAbsolute(t.dst.value) && |t.dir.value + "/" + t.dst.value| < PATH_MAX
    && Place(w.fs, w.cwd, t.dir.value + "/" + t.dst.value) == Some(k)
  }

  /** An installation adds the entry k, for a directory the missing directories above it, and
      nothing else; the only entry it may alter is a directory that already stood at k. */
  ghost predicate Grew(proc: Process, w: World, t: Item, k: Path, w': World)
    requires Ready(t)
  {
    && w'.cwd == w.cwd && WellFormed(w'.fs) && Lands(w', t, k)
    && (forall p :: p in w.fs && p != k ==> p in w'.fs && w'.fs[p] == w.fs[p])
    && k in w'.fs && (IsDir(w'.fs, k) <==> t.op.Mkdir?) && (IsSymlink(w'.fs, k) <==> IsLink(t.op))
    && (k in w.fs ==> t.op.Mkdir? && IsDir(w.fs, k) && w'.fs[k].mode == w.fs[k].mode)
    && (forall p :: p in w'.fs && p !in w.fs && p != k ==> t.op.Mkdir? && p < k && w'.fs[p] == NewDir(proc, t.perm))
  }

  /** The node at k. */
  ghost predicate Delivered(proc: Process, w: World, t: Item, k: Path, w': World)
    requires Ready(t) && Ids(proc, t.owner, t.group).Some? && k in w'.fs
  {
    var id := Ids(proc, t.owner, t.group).value;
    var o, n := InstalledOwner(proc, id), w'.fs[k];
    match t.op
    case Copy => CopyOf(Stat(w.fs, w.cwd, t.src.value), n, t.perm, o)
    case CopyExec => CopyOf(Stat(w.fs, w.cwd, t.src.value), n, t.perm, o)
    case Symlink => n == Link(t.src.value)
    case LibLink => n == Link(t.src.value)
    case Mkdir =>
      && n.Dir?
      && (k !in w.fs ==> n.mode == NewDir(proc, t.perm).mode && OwnerOf(n) == o)
      && (k in w.fs ==> OwnerOf(n) == if id.uid == proc.uid then OwnerOf(w.fs[k]) else id)
  }

  predicate CopyOf(src: Option<Node>, n: Node, perm: Mode, o: Identity) {
    src.Some? && src.value.File? && n == File(src.value.content, perm & 0xFFF, o.uid, o.gid)
  }

  lemma GrewByOne(proc: Process, w: World, t: Item, k: Path, n: Node, w': World)
    requires Ready(t) && !t.op.Mkdir? && !n.Dir? && (n.Link? <==> IsLink(t.op)) && k !in w.fs && Lands(w, t, k)
    requires w'.cwd == w.cwd && WellFormed(w'.fs) && w'.fs == w.fs[k := n]
    ensures Grew(proc, w, t, k, w')
  {
    EntryLater(w.fs, w'.fs, w.cwd, RemovedPath(t));
  }

  /** A new file at the target, with the source's bytes. */
  lemma CopyAddsFile(proc: Process, w: World, t: Item, k: Path, id: Identity, w': World)
    requires Ready(t) && IsCopy(t.op) && WellFormed(w.fs) && Ids(proc, t.owner, t.group) == Some(id)
    requires FreshAt(w, t, k)
    requires CopyStep(proc, w, t.src.value, t.dst.value, id.uid, id.gid, t.perm, w', Ok)
    ensures w'.cwd == w.cwd && WellFormed(w'.fs) && Lands(w, t, k) && k in w'.fs && w'.fs == w.fs[k := w'.fs[k]]
    ensures CopyOf(Stat(w.fs, w.cwd, t.src.value), w'.fs[k], t.perm, InstalledOwner(proc, id))
  {
    assert FreshNames(w, t.dst.value);
    FreshCopyStep(proc, w, t.src.value, t.dst.value, id.uid, id.gid, t.perm, w');
  }

  lemma CopyGrows(proc: Process, w: World, t: Item, k: Path, w': World)
    requires Ready(t) && IsCopy(t.op) && WellFormed(w.fs) && Regular(w, t, k, w')
    requires CopyItemStep(proc, w, t, false, w', Ok)
    ensures Grew(proc, w, t, k, w') && Ids(proc, t.owner, t.group).Some? && Delivered(proc, w, t, k, w')
  {
    CopyAddsFile(proc, w, t, k, Ids(proc, t.owner, t.group).value, w');
    GrewByOne(proc, w, t, k, w'.fs[k], w');
  }

  /** A relative name looked up after chdir is the path formatted from both, unless that needs more
      than SYMLOOP_MAX links. */
  lemma LinkLands(w: World, t: Item, k: Path)
    requires Ready(t) && !t.op.Mkdir? && LeadsToDir(w.fs, w.cwd, t.dir.value) && Linkable(w, t)
    requires !IsAbsolute(t.dst.value) && Place(w.fs, w.cwd, t.dir.value + "/" + t.dst.value) == Some(k)
    ensures LinkKey(w, t) == k && Entry(w.fs, w.cwd, t.dir.value + "/" + t.dst.value) == Some(k)
  {
    var dir, dst, at := t.dir.value, t.dst.value, From(w.cwd, t.dir.value);
    SomeComponent(dst);
    ComponentsJoin(dir, dst);
    LookJoin(w.fs, at, Components(dir), Components(dst), false);
    var x := Look(w.fs, at, Components(dir), true).value;
    LookBack(w.fs, at, Components(dir), true);
    LookMoreHops(w.fs, x, Components(dst), false, SYMLOOP_MAX - x.hops);
    assert x.(hops := SYMLOOP_MAX) == From(LinkDir(w, t), dst);
  }

  lemma LinkGrows(proc: Process, w: World, t: Item, k: Path, w': World)
    requires Ready(t) && IsLink(t.op) && WellFormed(w.fs) && Regular(w, t, k, w')
    requires LinkStep(proc, w, t, false, w', Ok)
    ensures Grew(proc, w, t, k, w') && w'.fs[k] == Link(t.src.value)
  {
    LinkLands(w, t, k);
    WellFormedAfterCreate(w.fs, k, Link(t.src.value));
    GrewByOne(proc, w, t, k, Link(t.src.value), w');
  }

  lemma PrefixIsAbove(fs: Fs, cwd: Path, a: string, b: string, p: Path, k: Path)
    requires NoParentSteps(b)
    requires Entry(fs, cwd, a + "/") == Some(p) && Entry(fs, cwd, a + "/" + b) == Some(k)
    requires forall q :: p <= q && q in fs ==> !fs[q].Link?
    ensures p <= k
  {
    ComponentsSlash(a);
    ComponentsJoin(a, b);
    assert From(cwd, a + "/") == From(cwd, a + "/" + b);
    GoesOnBelow(fs, From(cwd, a + "/" + b), Components(a), Components(b), p);
  }

  /** A call for a part of the path that already leads to a directory makes none. */
  lemma NoneMadeBefore(f: Fs, g: Fs, cwd: Path, dir: string, from: nat, c: string, p: Path)
    requires Later(f, g) && DownFrom(f, cwd, dir, from) && c in SlashPrefixes(dir, 0) && |c| <= from
    requires Entry(g, cwd, c) == Some(p) && IsDir(g, p)
    ensures p in f
  {
    var a, b := SlashPrefixSplits(dir, c);
    assert c == dir[..|c|];
    if |c| < from {
      assert Through(a, dir[..from]);
      PrefixLeads(f, cwd, a, dir[..from]);
    }
    LeadsLater(f, g, cwd, c);
    EntryAndReach(g, cwd, c);
  }

  /** A directory made on a call lies on the way to where the whole path leads. */
  lemma CallIsAbove(f: Fs, g: Fs, cwd: Path, dir: string, c: string, p: Path, k: Path)
    requires Later(f, g) && Downward(f, cwd, dir) && c in MakeDirCalls(dir)
    requires Entry(g, cwd, c) == Some(p) && Entry(g, cwd, dir) == Some(k) && p !in f && IsDir(g, p)
    requires forall q :: p <= q && q in g ==> !g[q].Link?
    ensures p <= k
  {
    var from: nat :| DownFrom(f, cwd, dir, from);
    if c in SlashPrefixes(dir, 0) {
      if |c| <= from { NoneMadeBefore(f, g, cwd, dir, from, c, p); }
      var a, b := SlashPrefixSplits(dir, c);
      RestGoesDown(dir, from, |a|);
      assert dir[|a| + 1..] == b;
      PrefixIsAbove(g, cwd, a, b, p, k);
    } else {
      ComponentsSlash(dir);
      assert From(cwd, c) == From(cwd, dir);
    }
  }

  /** Everything the mkdir calls add lies on the way to the directory. */
  lemma MadeDirsAbove(proc: Process, w: World, dir: string, perm: Mode, mid: World, k: Path)
    requires MadeDirs(proc, w, MakeDirCalls(dir), perm, mid) && Downward(w.fs, w.cwd, dir) && WellFormed(w.fs)
    requires Entry(mid.fs, mid.cwd, dir) == Some(k)
    ensures forall p :: p in mid.fs && p !in w.fs ==> p <= k && mid.fs[p] == NewDir(proc, perm)
  {
    forall p | p in mid.fs && p !in w.fs ensures p <= k {
      assert MadeBy(mid, mid.log[|w.log|..], p);
      var c := NamedBy(mid, mid.log[|w.log|..], p);
      forall q | p <= q && q in mid.fs ensures !mid.fs[q].Link? {
        if q in w.fs && p != q { AncestorsAreDirs(w.fs, q, p); }
      }
      CallIsAbove(w.fs, mid.fs, mid.cwd, dir, c, p, k);
    }
  }

  /** The chown of a directory changes the owner of that entry. */
  lemma ChownsTarget(proc: Process, mid: World, dir: string, id: Identity, w': World, k: Path)
    requires WellFormed(mid.fs) && DirOwned(proc, mid, dir, id, w', Ok)
    requires Entry(w'.fs, w'.cwd, dir) == Some(k) && IsDir(w'.fs, k)
    ensures w'.cwd == mid.cwd && WellFormed(w'.fs) && IsDir(mid.fs, k) && Entry(mid.fs, mid.cwd, dir) == Some(k)
    ensures w'.fs == if id.uid == proc.uid then mid.fs else mid.fs[k := Owned(mid.fs[k], id.uid, id.gid)]
  {
    if id.uid != proc.uid {
      var q := Reach(mid.fs, mid.cwd, dir).value;
      WellFormedAfterUpdate(mid.fs, q, Owned(mid.fs[q], id.uid, id.gid));
      SameShapeLooksSame(mid.fs, w'.fs, mid.cwd, dir);
      EntryAndReach(mid.fs, mid.cwd, dir);
    }
  }

  /** Directories made, then the owner of the last one set. */
  lemma GrewDirs(proc: Process, w: World, t: Item, k: Path, mid: Fs, w': World)
    requires Ready(t) && t.op.Mkdir? && Ids(proc, t.owner, t.group).Some?
    requires w'.cwd == w.cwd && WellFormed(w'.fs) && Lands(w', t, k)
    requires Preserves(w.fs, mid) && IsDir(mid, k)
    requires forall p :: p in mid && p !in w.fs ==> p <= k && mid[p] == NewDir(proc, t.perm)
    requires var id := Ids(proc, t.owner, t.group).value;
      w'.fs == if id.uid == proc.uid then mid else mid[k := Owned(mid[k], id.uid, id.gid)]
    ensures Grew(proc, w, t, k, w') && Delivered(proc, w, t, k, w')
  {
  }

  lemma MkdirGrows(proc: Process, w: World, t: Item, k: Path, w': World)
    requires Ready(t) && t.op.Mkdir? && WellFormed(w.fs) && Regular(w, t, k, w')
    requires MkdirStep(proc, w, t, false, w', Ok)
    ensures Grew(proc, w, t, k, w') && Ids(proc, t.owner, t.group).Some? && Delivered(proc, w, t, k, w')
  {
    var id, dir := Ids(proc, t.owner, t.group).value, t.dir.value;
    var mid :| MadeDirs(proc, w, MakeDirCalls(dir), t.perm, mid) && DirOwned(proc, mid, dir, id, w', Ok);
    ChownsTarget(proc, mid, dir, id, w', k);
    MadeDirsAbove(proc, w, dir, t.perm, mid, k);
    GrewDirs(proc, w, t, k, mid.fs, w');
  }

  lemma OwningIsLater(f: Fs, g: Fs, k: Path, id: Identity)
    requires IsDir(f, k) && (g == f || g == f[k := Owned(f[k], id.uid, id.gid)])
    ensures Later(f, g) && forall p :: IsSymlink(g, p) ==> IsSymlink(f, p)
  {
  }

  lemma MakingIsLater(proc: Process, w: World, calls: seq<string>, perm: Mode, mid: World)
    requires MadeDirs(proc, w, calls, perm, mid)
    ensures Later(w.fs, mid.fs) && forall p :: IsSymlink(mid.fs, p) ==> IsSymlink(w.fs, p)
  {
  }

  /** A directory item that left a directory lost nothing and added no link. */
  lemma MkdirIsLater(proc: Process, w: World, t: Item, k: Path, w': World)
    requires Ready(t) && t.op.Mkdir? && WellFormed(w.fs) && MkdirStep(proc, w, t, false, w', Ok)
    requires Lands(w', t, k) && IsDir(w'.fs, k)
    ensures w'.cwd == w.cwd && Later(w.fs, w'.fs) && forall p :: IsSymlink(w'.fs, p) ==> IsSymlink(w.fs, p)
  {
    var id, dir := Ids(proc, t.owner, t.group).value, t.dir.value;
    var mid :| MadeDirs(proc, w, MakeDirCalls(dir), t.perm, mid) && DirOwned(proc, mid, dir, id, w', Ok);
    ChownsTarget(proc, mid, dir, id, w', k);
    MakingIsLater(proc, w, MakeDirCalls(dir), t.perm, mid);
    OwningIsLater(mid.fs, w'.fs, k, id);
    LaterTransitive(w.fs, mid.fs, w'.fs);
  }

  /** One successful installation. */
  lemma StepGrows(cfg: Config, proc: Process, w: World, it: Item, t: Item, k: Path, w': World)
    requires Sane(it) && Translated(cfg, w.fs, w.cwd, it) == Success(t)
    requires WellFormed(w.fs) && Regular(w, t, k, w') && InstallStep(cfg, proc, w, it, false, w', Ok)
    ensures Grew(proc, w, t, k, w')
    ensures !IsLink(t.op) ==> Ids(proc, t.owner, t.group).Some? && Delivered(proc, w, t, k, w')
  {
    match t.op
    case Copy => CopyGrows(proc, w, t, k, w');
    case CopyExec => CopyGrows(proc, w, t, k, w');
    case Symlink => LinkGrows(proc, w, t, k, w');
    case Mkdir => MkdirGrows(proc, w, t, k, w');
    case LibLink => LinkGrows(proc, w, t, k, w');
  }
}
