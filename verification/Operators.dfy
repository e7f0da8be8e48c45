/** The inst_*, instchk_* and deinst_* callbacks: what each may do to the world, and the methods
    that do it. */
module Operators {
  import opened Options
  import opened Paths
  import opened FileSystem
  import opened Lookup
  import opened OperatingSystem
  import opened MakeDirs
  import opened FileCopy
  import opened Translate

  datatype Identity = Identity(uid: int, gid: int)

  /** install_uidgid_lookup: the named accounts, or those of the process. */
  function Ids(proc: Process, owner: Option<string>, group: Option<string>): Option<Identity> {
    if owner.Some? && owner.value !in proc.users then None
    else if group.Some? && group.value !in proc.groups then None
    else Some(Identity(if owner.Some? then proc.users[owner.value] else proc.uid,
                       if group.Some? then proc.groups[group.value] else proc.gid))
  }

  /** An item as the operators take it. */
  predicate Ready(it: Item) {
    it.dir.Some? && (it.op != Mkdir ==> it.src.Some? && it.dst.Some?)
  }

  // ---- what install may do

  ghost predicate CopyItemStep(proc: Process, w: World, it: Item, dry: bool, w': World, st: Status)
    requires Ready(it) && it.op != Mkdir
  {
    match Ids(proc, it.owner, it.group)
    case None => st.Error? && w' == w
    case Some(id) =>
      if dry then st.Ok? && w' == w
      else CopyStep(proc, w, it.src.value, it.dst.value, id.uid, id.gid, it.perm, w', st)
  }

  /** The directory a link item works in. */
  function LinkDir(w: World, it: Item): Path
    requires Ready(it) && it.op != Mkdir && LeadsToDir(w.fs, w.cwd, it.dir.value)
  {
    Reach(w.fs, w.cwd, it.dir.value).value
  }

  /** A link item can be made: its destination, looked up from its directory, is free. */
  predicate Linkable(w: World, it: Item)
    requires Ready(it) && it.op != Mkdir && LeadsToDir(w.fs, w.cwd, it.dir.value)
  {
    it.src.value != "" && Creatable(w.fs, LinkDir(w, it), it.dst.value)
  }

  /** The entry a link item creates. */
  function LinkKey(w: World, it: Item): Path
    requires Ready(it) && it.op != Mkdir && LeadsToDir(w.fs, w.cwd, it.dir.value) && Linkable(w, it)
  {
    Entry(w.fs, LinkDir(w, it), it.dst.value).value
  }

  ghost predicate Linked(w: World, it: Item, w': World)
    requires Ready(it) && it.op != Mkdir
  {
    && LeadsToDir(w.fs, w.cwd, it.dir.value)
    && Linkable(w, it)
    && w'.fs == w.fs[LinkKey(w, it) := Link(it.src.value)]
    && w'.log == w.log + [NameFrom(it.dir.value, it.dst.value)]
  }

  ghost predicate LinkStep(proc: Process, w: World, it: Item, dry: bool, w': World, st: Status)
    requires Ready(it) && it.op != Mkdir
  {
    && !st.Fatal?
    && (st.Ok? ==> w'.cwd == w.cwd && LeadsToDir(w.fs, w.cwd, it.dir.value))
    && (dry || (!st.Ok? && w'.fs == w.fs) ==> w'.fs == w.fs && w'.log == w.log)
    && (!dry && (st.Ok? || w'.fs != w.fs) ==> Linked(w, it, w'))
    && (!proc.faulty && IsDir(w.fs, w.cwd) ==> w'.cwd == w.cwd)
    && ((!proc.faulty && IsDir(w.fs, w.cwd) && LeadsToDir(w.fs, w.cwd, it.dir.value)
         && (dry || Linkable(w, it))) ==> st.Ok?)
  }

  /** The chown that may follow making the directory. */
  ghost predicate DirOwned(proc: Process, mid: World, dir: string, id: Identity, w': World, st: Status) {
    if !st.Ok? || id.uid == proc.uid then w' == mid
    else
      && proc.uid == 0 && Stat(mid.fs, mid.cwd, dir).Some?
      && w' == mid.(fs := ChownFs(mid.fs, Reach(mid.fs, mid.cwd, dir).value, id.uid, id.gid), log := mid.log + [dir])
  }

  predicate CanOwn(proc: Process, mid: World, dir: string, id: Identity) {
    id.uid == proc.uid || (proc.uid == 0 && Stat(mid.fs, mid.cwd, dir).Some?)
  }

  ghost predicate MkdirStep(proc: Process, w: World, it: Item, dry: bool, w': World, st: Status)
    requires Ready(it)
  {
    match Ids(proc, it.owner, it.group)
    case None => st.Error? && w' == w
    case Some(id) =>
      if dry then st.Ok? && w' == w
      else !st.Fatal? && exists mid ::
        && MadeDirs(proc, w, MakeDirCalls(it.dir.value), it.perm, mid)
        && DirOwned(proc, mid, it.dir.value, id, w', st)
        && (!proc.faulty ==>
              && MadeAll(w, MakeDirCalls(it.dir.value), NewDir(proc, it.perm), mid)
              && (|it.dir.value| < PATH_MAX && CanOwn(proc, mid, it.dir.value, id) ==> st.Ok?))
        && (st.Ok? ==> |it.dir.value| < PATH_MAX)
  }

  /** One call of install. */
  ghost predicate InstallStep(cfg: Config, proc: Process, w: World, it: Item, dry: bool, w': World, st: Status)
    requires Sane(it)
  {
    match Translated(cfg, w.fs, w.cwd, it)
    case Failure(m) => st == Error(m) && w' == w
    case Success(t) =>
      match t.op
      case Copy => CopyItemStep(proc, w, t, dry, w', st)
      case CopyExec => CopyItemStep(proc, w, t, dry, w', st)
      case Symlink => LinkStep(proc, w, t, dry, w', st)
      case Mkdir => MkdirStep(proc, w, t, dry, w', st)
      case LibLink => LinkStep(proc, w, t, dry, w', st)
  }

  // ---- what install_check looks at

  datatype FileType = TypeFile | TypeDirectory | TypeSymlink

  function TypeOf(n: Node): FileType {
    match n
    case File(_, _, _, _) => TypeFile
    case Dir(_, _, _) => TypeDirectory
    case Link(_) => TypeSymlink
  }

  function SizeOf(proc: Process, n: Node): nat {
    if n.File? then |n.content| else proc.dirSize
  }

  function ModeOf(n: Node): Mode {
    if n.File? || n.Dir? then n.mode else 0
  }

  function OwnerOf(n: Node): Identity {
    if n.File? || n.Dir? then Identity(n.uid, n.gid) else Identity(-1, -1)
  }

  /** platform->file_mode_get looks at these bits only. */
  predicate HasModeAndOwner(n: Node, perm: Mode, id: Identity) {
    ModeOf(n) & 0x1ED == perm && OwnerOf(n) == id
  }

  /** When install_file_check is satisfied.  The type is compared only on a platform without
      symbolic links. */
  predicate CheckPasses(proc: Process, fs: Fs, cwd: Path, src: string, perm: Mode, want: FileType, id: Identity,
                        dst: string) {
    var s, d := Stat(fs, cwd, src), Stat(fs, cwd, dst);
    && (want.TypeFile? ==> s.Some?)
    && d.Some?
    && (!proc.symlinks && !want.TypeSymlink? ==> TypeOf(d.value) == want)
    && (want.TypeFile? ==> SizeOf(proc, s.value) == SizeOf(proc, d.value))
    && HasModeAndOwner(d.value, perm, id)
  }

  /** The names and the type instchk_* hands to install_file_check. */
  function CheckedType(op: Op): FileType {
    match op
    case Copy => TypeFile
    case CopyExec => TypeFile
    case Mkdir => TypeDirectory
    case Symlink => TypeSymlink
    case LibLink => TypeSymlink
  }

  function CheckedPath(it: Item): string
    requires Ready(it)
  {
    if it.op.Mkdir? then it.dir.value else it.dst.value
  }

  function CheckedSource(it: Item): string
    requires Ready(it)
  {
    if it.op.Mkdir? then it.dir.value else it.src.value
  }

  /** One call of install_check: its verdict, and whether it counts as a failed file.  Only
      install_file_check's own verdict is counted. */
  ghost predicate CheckStep(cfg: Config, proc: Process, w: World, it: Item, st: Status, counted: bool)
    requires Sane(it)
  {
    match CheckTranslated(cfg, w.fs, w.cwd, it)
    case Failure(m) => st == Error(m) && !counted
    case Success(t) =>
      match Ids(proc, it.owner, it.group)
      case None => st.Error? && !counted
      case Some(id) =>
        && !st.Fatal?
        && (st.Ok? <==>
              CheckPasses(proc, w.fs, w.cwd, CheckedSource(t), it.perm, CheckedType(it.op), id, CheckedPath(t)))
        && (counted <==> !st.Ok?)
  }

  // ---- what deinstall may do

  /** The path deinst_* removes. */
  function RemovedPath(it: Item): string
    requires Ready(it)
  {
    match it.op
    case Copy => it.dst.value
    case CopyExec => it.dst.value
    case Mkdir => it.dir.value
    case Symlink => Format(it.dir.value + "/" + it.dst.value)
    case LibLink => Format(it.dir.value + "/" + it.dst.value)
  }

  ghost predicate CanRemove(fs: Fs, cwd: Path, it: Item)
    requires Ready(it)
  {
    if it.op.Mkdir? then Rmdirable(fs, cwd, it.dir.value) else Unlinkable(fs, cwd, RemovedPath(it))
  }

  /** The world without the entry. */
  function Removed(w: World, t: Item): World
    requires Ready(t) && Entry(w.fs, w.cwd, RemovedPath(t)).Some?
  {
    w.(fs := w.fs - {Entry(w.fs, w.cwd, RemovedPath(t)).value}, log := w.log + [RemovedPath(t)])
  }

  /** One call of deinstall. */
  ghost predicate DeinstallStep(cfg: Config, proc: Process, w: World, it: Item, dry: bool, w': World, st: Status)
    requires Sane(it)
  {
    match Translated(cfg, w.fs, w.cwd, it)
    case Failure(m) => st == Error(m) && w' == w
    case Success(t) =>
      if dry then st.Ok? && w' == w
      else
        && !st.Fatal?
        && (st.Ok? ==> CanRemove(w.fs, w.cwd, t) && w' == Removed(w, t))
        && (!st.Ok? ==> w' == w)
        && (!proc.faulty && CanRemove(w.fs, w.cwd, t) ==> st.Ok?)
  }

  // ---- the callbacks

  /** install_uidgid_lookup */
  method UidGidLookup(proc: Process, owner: Option<string>, group: Option<string>) returns (st: Status, id: Identity)
    ensures match Ids(proc, owner, group)
      case None => st.Error?
      case Some(i) => st.Ok? && id == i
    ensures st.Ok? <==> (owner.Some? ==> owner.value in proc.users) && (group.Some? ==> group.value in proc.groups)
    ensures st.Ok? ==> id.uid == (if owner.Some? then proc.users[owner.value] else proc.uid)
    ensures st.Ok? ==> id.gid == (if group.Some? then proc.groups[group.value] else proc.gid)
  {
    id := Identity(-1, -1);
    if owner.Some? {
      if owner.value !in proc.users { return Error("could not lookup user ID"), id; }
      id := id.(uid := proc.users[owner.value]);
    } else {
      id := id.(uid := proc.uid);
    }
    if group.Some? {
      if group.value !in proc.groups { return Error("could not lookup group ID"), id; }
      id := id.(gid := proc.groups[group.value]);
    } else {
      id := id.(gid := proc.gid);
    }
    return Ok, id;
  }

  method InstCopy(os: Os, item: InstallItem, dry: bool) returns (st: Status)
    requires Ready(item.View()) && item.op != Mkdir
    modifies os`fs, os`trace, os`log
    ensures CopyItemStep(os.proc, old(os.W()), item.View(), dry, os.W(), st)
  {
    var id;
    st, id := UidGidLookup(os.proc, item.owner, item.group);
    if !st.Ok? { return; }
    if !dry {
      st := InstallFileCopy(os, item.src.value, item.dst.value, id.uid, id.gid, item.perm);
    }
  }

  method InstLink(os: Os, item: InstallItem, dry: bool) returns (st: Status)
    requires Ready(item.View()) && item.op != Mkdir
    modifies os
    ensures LinkStep(os.proc, old(os.W()), item.View(), dry, os.W(), st)
  {
    ghost var fs0 := os.fs;
    var saved := os.Getcwd();
    if saved.None? { return Error("could not get current working directory"); }
    var there := os.Chdir(item.dir.value);
    if !there { return Error("could not change directory"); }
    if !dry {
      var made := os.Symlink(item.src.value, item.dst.value);
      if !made {
        var restored := os.ChdirBack(saved.value);
        if !restored { return Error("could not restore current working directory"); }
        return Error("could not make symbolic link");
      }
    }
    var back := os.ChdirBack(saved.value);
    if !back { return Error("could not restore current working directory"); }
    return Ok;
  }

  method InstMkdir(os: Os, item: InstallItem, dry: bool) returns (st: Status)
    requires Ready(item.View()) && os.mkdirFailure != -1
    modifies os`fs, os`trace, os`log, os`mkdirCalls
    ensures MkdirStep(os.proc, old(os.W()), item.View(), dry, os.W(), st)
  {
    var id;
    st, id := UidGidLookup(os.proc, item.owner, item.group);
    if !st.Ok? { return; }
    if !dry {
      var made := Rmkdir(os, item.dir.value, item.perm);
      ghost var mid := os.W();
      if !made {
        st := Error("could not create directory");
      } else if os.proc.uid != id.uid {
        if os.proc.uid == 0 {
          var owned := os.Chown(item.dir.value, id.uid, id.gid);
          if !owned { st := Error("could not set file ownership"); }
        } else {
          st := Error("current user ID is restricted from setting file ownership");
        }
      }
      assert DirOwned(os.proc, mid, item.dir.value, id, os.W(), st);
    }
  }

  /** install_file_check */
  method InstallFileCheck(os: Os, src: string, perm: Mode, want: FileType, id: Identity, dst: string)
      returns (st: Status)
    ensures !st.Fatal?
    ensures st.Ok? <==> CheckPasses(os.proc, os.fs, os.cwd, src, perm, want, id, dst)
    ensures var s, d := Stat(os.fs, os.cwd, src), Stat(os.fs, os.cwd, dst);
      && (d.None? || (want.TypeFile? && s.None?) ==> !st.Ok?)
      && (want.TypeFile? && s.Some? && s.value.File? && d.Some? && d.value.File? ==>
            (st.Ok? <==>
               |s.value.content| == |d.value.content| && d.value.mode & 0x1ED == perm
               && d.value.uid == id.uid && d.value.gid == id.gid))
  {
    var noFollow := want.TypeSymlink?;
    var sizeWant := 0;
    if want.TypeFile? {
      var s := Stat(os.fs, os.cwd, src);
      if s.None? { return Error("could not determine source file size"); }
      sizeWant := SizeOf(os.proc, s.value);
    }
    var d := Stat(os.fs, os.cwd, dst);
    var e := Entry(os.fs, os.cwd, dst);
    EntryAndReach(os.fs, os.cwd, dst);
    var found := if !noFollow then d else if e.Some? then At(os.fs, e.value) else None;
    if found.None? { return Error("could not determine destination file type"); }
    if !os.proc.symlinks && want != TypeSymlink {
      if want != TypeOf(found.value) { return Error("filetype mismatch"); }
    }
    if d.None? { return Error("could not determine destination file size or mode"); }
    if want.TypeFile? {
      if sizeWant != SizeOf(os.proc, d.value) { return Error("size mismatch"); }
    }
    if ModeOf(d.value) & 0x1ED != perm { return Error("mode mismatch"); }
    var got := OwnerOf(d.value);
    if id.uid != got.uid { return Error("uid mismatch"); }
    if id.gid != got.gid { return Error("gid mismatch"); }
    return Ok;
  }

  /** deinst_copy, deinst_link, deinst_mkdir, deinst_liblink */
  method DeinstOp(os: Os, item: InstallItem, dry: bool) returns (st: Status)
    requires Ready(item.View())
    modifies os`fs, os`trace, os`log
    ensures var w, it := old(os.W()), item.View();
      if dry then st.Ok? && os.W() == w
      else
        && !st.Fatal?
        && (st.Ok? ==> CanRemove(w.fs, w.cwd, it) && os.W() == Removed(w, it))
        && (!st.Ok? ==> os.W() == w)
        && (!os.proc.faulty && CanRemove(w.fs, w.cwd, it) ==> st.Ok?)
  {
    if dry { return Ok; }
    match item.op {
      case Copy | CopyExec =>
        var unlinked := os.Unlink(item.dst.value);
        if !unlinked { return Error("could not unlink file"); }
      case Symlink | LibLink =>
        var path := Format(item.dir.value + "/" + item.dst.value);
        var unlinked := os.Unlink(path);
        if !unlinked { return Error("could not unlink"); }
      case Mkdir =>
        var removed := os.Rmdir(item.dir.value);
        if !removed { return Error("could not remove directory"); }
    }
    return Ok;
  }
}
