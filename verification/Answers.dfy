/** What an item comes to, said of the file system alone: when each operator reports OK, and what it
    leaves. */
module Answers {
  import opened Options
  import opened Paths
  import opened FileSystem
  import opened Lookup
  import opened OperatingSystem
  import opened MakeDirs
  import opened FileCopy
  import opened Translate
  import opened Operators
  import opened Footprint

  /** The accounts an item names are known. */
  predicate AccountsKnown(proc: Process, it: Item) {
    && (it.owner.Some? ==> it.owner.value in proc.users)
    && (it.group.Some? ==> it.group.value in proc.groups)
  }

  /** The owner asked for: the named one, or the process's. */
  function AskedUid(proc: Process, it: Item): int
    requires AccountsKnown(proc, it)
  {
    match it.owner
    case Some(name) => proc.users[name]
    case None => proc.uid
  }

  function AskedGid(proc: Process, it: Item): int
    requires AccountsKnown(proc, it)
  {
    match it.group
    case Some(name) => proc.groups[name]
    case None => proc.gid
  }

  /** The process may give a file to that owner. */
  predicate MayOwn(proc: Process, it: Item)
    requires AccountsKnown(proc, it)
  {
    AskedUid(proc, it) == proc.uid || proc.uid == 0
  }

  lemma AccountsAsked(proc: Process, it: Item)
    ensures Ids(proc, it.owner, it.group).Some? <==> AccountsKnown(proc, it)
    ensures AccountsKnown(proc, it) ==>
      Ids(proc, it.owner, it.group).value == Identity(AskedUid(proc, it), AskedGid(proc, it))
  {
  }

  // ---- install

  /** A file item runs install_file_copy with the accounts asked for, if they are known. */
  lemma CopyItemRuns(proc: Process, w: World, t: Item, dry: bool, w': World, st: Status)
    requires Ready(t) && IsCopy(t.op) && CopyItemStep(proc, w, t, dry, w', st)
    ensures !AccountsKnown(proc, t) ==> st.Error? && w' == w
    ensures AccountsKnown(proc, t) && dry ==> st.Ok? && w' == w
    ensures AccountsKnown(proc, t) && !dry ==>
      CopyStep(proc, w, t.src.value, t.dst.value, AskedUid(proc, t), AskedGid(proc, t), t.perm, w', st)
  {
    AccountsAsked(proc, t);
  }

  /** When it can, it does, if the process may own the file as asked. */
  lemma CopyItemAnswers(proc: Process, w: World, t: Item, w': World, st: Status)
    requires Ready(t) && IsCopy(t.op) && CopyItemStep(proc, w, t, false, w', st)
    requires !proc.faulty && CopyOpen(w, t.src.value, t.dst.value)
    ensures st.Ok? <==> AccountsKnown(proc, t) && MayOwn(proc, t)
  {
    CopyItemRuns(proc, w, t, false, w', st);
    if AccountsKnown(proc, t) {
      CopyAnswers(proc, w, t.src.value, t.dst.value, AskedUid(proc, t), AskedGid(proc, t), t.perm, w', st);
    }
  }

  /** And leaves a file with the source's bytes, the mode and, if it is somebody else's, the owner and
      group asked for. */
  lemma CopyItemLeaves(proc: Process, w: World, t: Item, w': World)
    requires Ready(t) && IsCopy(t.op) && CopyItemStep(proc, w, t, false, w', Ok) && PlainTemp(w, t.dst.value)
    ensures AccountsKnown(proc, t)
    ensures var s, d := Reach(w.fs, w.cwd, t.src.value), Entry(w.fs, w.cwd, t.dst.value);
      && s.Some? && IsFile(w.fs, s.value) && d.Some? && IsFile(w'.fs, d.value) && w'.fs[d.value].mode == t.perm & 0xFFF
      && (Reach(w.fs, w.cwd, TempName(t.dst.value)) != s ==> w'.fs[d.value].content == w.fs[s.value].content)
      && (AskedUid(proc, t) != proc.uid ==>
            w'.fs[d.value].uid == AskedUid(proc, t) && w'.fs[d.value].gid == AskedGid(proc, t))
  {
    CopyItemRuns(proc, w, t, false, w', Ok);
    CopyLeaves(proc, w, t.src.value, t.dst.value, AskedUid(proc, t), AskedGid(proc, t), t.perm, w');
  }

  /** A link item can be made: looked up from its directory, its name is free, in a directory. */
  predicate LinkOpen(w: World, t: Item)
    requires Ready(t) && IsLink(t.op)
  {
    var there := Reach(w.fs, w.cwd, t.dir.value);
    && there.Some? && IsDir(w.fs, there.value) && t.src.value != ""
    && var k := Entry(w.fs, there.value, t.dst.value);
       k.Some? && k.value !in w.fs && k.value != [] && IsDir(w.fs, Parent(k.value))
  }

  lemma LinkItemAnswers(proc: Process, w: World, t: Item, dry: bool, w': World, st: Status)
    requires Ready(t) && IsLink(t.op) && LinkStep(proc, w, t, dry, w', st)
    ensures !proc.faulty && IsDir(w.fs, w.cwd) && !dry ==> (st.Ok? <==> LinkOpen(w, t))
    ensures !proc.faulty && IsDir(w.fs, w.cwd) && dry ==> (st.Ok? <==> LeadsToDir(w.fs, w.cwd, t.dir.value))
    ensures st.Ok? && !dry ==>
      && LinkOpen(w, t)
      && w'.fs == w.fs[Entry(w.fs, Reach(w.fs, w.cwd, t.dir.value).value, t.dst.value).value := Link(t.src.value)]
    ensures dry ==> w'.fs == w.fs
    ensures st.Ok? || (!proc.faulty && IsDir(w.fs, w.cwd)) ==> w'.cwd == w.cwd
  {
  }

  /** An item that cannot be translated fails in every program, changes nothing and is not counted. */
  lemma UntranslatedFails(cfg: Config, proc: Process, w: World, it: Item, dry: bool, w': World, st: Status,
                          counted: bool)
    requires Sane(it) && Translated(cfg, w.fs, w.cwd, it).Failure?
    ensures InstallStep(cfg, proc, w, it, dry, w', st) ==> st.Error? && w' == w
    ensures DeinstallStep(cfg, proc, w, it, dry, w', st) ==> st.Error? && w' == w
    ensures CheckStep(cfg, proc, w, it, st, counted) ==> st.Error? && !counted
  {
  }

  /** The owner of a directory that is there is set if that is somebody else. */
  lemma DirItemOwned(proc: Process, mid: World, dir: string, id: Identity, w': World, st: Status)
    requires DirOwned(proc, mid, dir, id, w', st)
    ensures w'.cwd == mid.cwd && Reach(w'.fs, w'.cwd, dir) == Reach(mid.fs, mid.cwd, dir)
    ensures Stat(w'.fs, w'.cwd, dir).Some? <==> Stat(mid.fs, mid.cwd, dir).Some?
    ensures st.Ok? && id.uid != proc.uid ==>
      && proc.uid == 0 && Stat(w'.fs, w'.cwd, dir).Some?
      && (!Stat(w'.fs, w'.cwd, dir).value.Link? ==>
            Stat(w'.fs, w'.cwd, dir).value.uid == id.uid && Stat(w'.fs, w'.cwd, dir).value.gid == id.gid)
  {
    if w' != mid { SameShapeLooksSame(mid.fs, w'.fs, mid.cwd, dir); }
  }

  /** A directory item: whether its directory is there in the end matters only when it is to be
      somebody else's. */
  lemma MkdirItemAnswers(proc: Process, w: World, t: Item, dry: bool, w': World, st: Status)
    requires Ready(t) && t.op.Mkdir? && MkdirStep(proc, w, t, dry, w', st)
    ensures !AccountsKnown(proc, t) ==> st.Error? && w' == w
    ensures AccountsKnown(proc, t) && dry ==> st.Ok? && w' == w
    ensures AccountsKnown(proc, t) && !dry && !proc.faulty ==>
      var n := Stat(w'.fs, w'.cwd, t.dir.value);
      (st.Ok? <==> |t.dir.value| < 1024 && (AskedUid(proc, t) == proc.uid || (proc.uid == 0 && n.Some?)))
    ensures !dry && st.Ok? && AskedUid(proc, t) != proc.uid ==>
      var n := Stat(w'.fs, w'.cwd, t.dir.value);
      && n.Some?
      && (!n.value.Link? ==> n.value.uid == AskedUid(proc, t) && n.value.gid == AskedGid(proc, t))
  {
    AccountsAsked(proc, t);
    if AccountsKnown(proc, t) && !dry {
      var id, dir := Ids(proc, t.owner, t.group).value, t.dir.value;
      var mid :| MadeDirs(proc, w, MakeDirCalls(dir), t.perm, mid) && DirOwned(proc, mid, dir, id, w', st)
        && (!proc.faulty ==> |dir| < PATH_MAX && CanOwn(proc, mid, dir, id) ==> st.Ok?);
      DirItemOwned(proc, mid, dir, id, w', st);
    }
  }

  // ---- install_check

  /** A file item, when both files are there: lengths, masked mode, owner and group. */
  lemma FileCheckAnswers(cfg: Config, proc: Process, w: World, it: Item, t: Item, st: Status, counted: bool)
    requires Sane(it) && IsCopy(it.op) && AccountsKnown(proc, it) && CheckStep(cfg, proc, w, it, st, counted)
    requires CheckTranslated(cfg, w.fs, w.cwd, it) == Success(t)
    ensures counted <==> !st.Ok?
    ensures var s, d := Stat(w.fs, w.cwd, t.src.value), Stat(w.fs, w.cwd, t.dst.value);
      && (s.None? || d.None? ==> !st.Ok?)
      && (s.Some? && s.value.File? && d.Some? && d.value.File? ==>
            (st.Ok? <==>
               |d.value.content| == |s.value.content| && d.value.mode & 0x1ED == it.perm
               && d.value.uid == AskedUid(proc, it) && d.value.gid == AskedGid(proc, it)))
  {
    AccountsAsked(proc, it);
  }

  /** A directory in the place of a file passes for one on a platform with symbolic links, if the sizes
      agree; on one without it does not. */
  lemma DirForFileAnswers(cfg: Config, proc: Process, w: World, it: Item, t: Item, st: Status, counted: bool)
    requires Sane(it) && IsCopy(it.op) && AccountsKnown(proc, it) && CheckStep(cfg, proc, w, it, st, counted)
    requires CheckTranslated(cfg, w.fs, w.cwd, it) == Success(t)
    requires var s, d := Stat(w.fs, w.cwd, t.src.value), Stat(w.fs, w.cwd, t.dst.value);
      s.Some? && s.value.File? && d.Some? && d.value.Dir?
    ensures var s, d := Stat(w.fs, w.cwd, t.src.value), Stat(w.fs, w.cwd, t.dst.value);
      st.Ok? <==>
        && proc.symlinks && |s.value.content| == proc.dirSize && d.value.mode & 0x1ED == it.perm
        && d.value.uid == AskedUid(proc, it) && d.value.gid == AskedGid(proc, it)
  {
    AccountsAsked(proc, it);
  }

  /** A directory item. */
  lemma DirCheckAnswers(cfg: Config, proc: Process, w: World, it: Item, t: Item, st: Status, counted: bool)
    requires Sane(it) && it.op.Mkdir? && AccountsKnown(proc, it) && CheckStep(cfg, proc, w, it, st, counted)
    requires CheckTranslated(cfg, w.fs, w.cwd, it) == Success(t)
    ensures counted <==> !st.Ok?
    ensures var d := Stat(w.fs, w.cwd, t.dir.value);
      && (d.None? || (!proc.symlinks && !d.value.Dir?) ==> !st.Ok?)
      && (d.Some? && d.value.Dir? ==>
            (st.Ok? <==>
               d.value.mode & 0x1ED == it.perm
               && d.value.uid == AskedUid(proc, it) && d.value.gid == AskedGid(proc, it)))
  {
    AccountsAsked(proc, it);
  }

  /** A link item: what the link leads to. */
  lemma LinkCheckAnswers(cfg: Config, proc: Process, w: World, it: Item, t: Item, st: Status, counted: bool)
    requires Sane(it) && IsLink(it.op) && AccountsKnown(proc, it) && CheckStep(cfg, proc, w, it, st, counted)
    requires CheckTranslated(cfg, w.fs, w.cwd, it) == Success(t)
    ensures counted <==> !st.Ok?
    ensures var d := Stat(w.fs, w.cwd, t.dst.value);
      && (d.None? ==> !st.Ok?)
      && (d.Some? && !d.value.Link? ==>
            (st.Ok? <==>
               d.value.mode & 0x1ED == it.perm
               && d.value.uid == AskedUid(proc, it) && d.value.gid == AskedGid(proc, it)))
  {
    AccountsAsked(proc, it);
  }

  /** An unknown account is an error that is not counted. */
  lemma UnknownIsNotCounted(cfg: Config, proc: Process, w: World, it: Item, st: Status, counted: bool)
    requires Sane(it) && !AccountsKnown(proc, it) && CheckStep(cfg, proc, w, it, st, counted)
    ensures st.Error? && !counted
  {
    AccountsAsked(proc, it);
  }

  // ---- deinstall

  /** The path a removal is for. */
  function RemovalPath(t: Item): string
    requires Ready(t)
  {
    if t.op.Mkdir? then t.dir.value
    else if IsCopy(t.op) then t.dst.value
    else Format(t.dir.value + "/" + t.dst.value)
  }

  /** A directory is removed if it is empty, anything else if it is no directory. */
  lemma RemovalAnswers(cfg: Config, proc: Process, w: World, it: Item, t: Item, dry: bool, w': World, st: Status)
    requires Sane(it) && DeinstallStep(cfg, proc, w, it, dry, w', st)
    requires Translated(cfg, w.fs, w.cwd, it) == Success(t) && Ready(t)
    ensures dry ==> st.Ok? && w' == w
    ensures !dry && !st.Ok? ==> w' == w
    ensures !dry && !proc.faulty ==>
      var k := Entry(w.fs, w.cwd, RemovalPath(t));
      st.Ok? <==>
        && k.Some? && k.value in w.fs
        && if t.op.Mkdir? then k.value != [] && w.fs[k.value].Dir? && forall q :: q in w.fs ==> !(k.value < q)
           else !w.fs[k.value].Dir?
    ensures !dry && st.Ok? ==>
      var k := Entry(w.fs, w.cwd, RemovalPath(t)); k.Some? && k.value in w.fs && w'.fs == w.fs - {k.value}
  {
  }
}
