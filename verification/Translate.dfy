/** Items of the installation list and the ntran_* callbacks, which rewrite an item's names in
    place before an operator runs on it. */
module Translate {
  import opened Options
  import opened Paths
  import opened FileSystem
  import opened Lookup
  import opened OperatingSystem
  import opened FileCopy
  import opened Names

  datatype Op = Copy | CopyExec | Symlink | Mkdir | LibLink

  /** The fields of an item. */
  datatype Item = Item(op: Op, src: Option<string>, dst: Option<string>, dir: Option<string>,
                       owner: Option<string>, group: Option<string>, perm: Mode)

  /** inst_fake_root, inst_dlib_suffix, inst_exec_suffix */
  datatype Config = Config(fakeRoot: Option<string>, dlibSuffix: string, execSuffix: string)

  datatype Result<+T> = Success(value: T) | Failure(message: string)

  /** struct install_item */
  class InstallItem {
    const op: Op
    var src: Option<string>
    var dst: Option<string>
    var dir: Option<string>
    const owner: Option<string>
    const group: Option<string>
    const perm: Mode

    constructor (it: Item)
      ensures View() == it
    {
      op, src, dst, dir, owner, group, perm := it.op, it.src, it.dst, it.dir, it.owner, it.group, it.perm;
    }

    function View(): Item
      reads this
    {
      Item(op, src, dst, dir, owner, group, perm)
    }
  }

  /** The directory of an item below the fake root, if there is one. */
  function Rooted(cfg: Config, dir: string): string {
    if cfg.fakeRoot.Some? then Format(cfg.fakeRoot.value + "/" + dir) else dir
  }

  /** The name a source or destination stands for: that read from a ".vlb" file, else itself. */
  function RealName(fs: Fs, cwd: Path, s: string): Option<string> {
    if StrEnds(s, ".vlb") then LibNameOf(fs, cwd, s) else Some(s)
  }

  /** ntran_copy: dst becomes [root/]dir/name, name being the last part of the destination. */
  function CopyItem(cfg: Config, fs: Fs, cwd: Path, it: Item): Result<Item> {
    if it.src.None? then Failure("source file undefined")
    else if it.dir.None? then Failure("directory undefined")
    else
      var src := RealName(fs, cwd, it.src.value);
      var dst := RealName(fs, cwd, if it.dst.Some? then it.dst.value else it.src.value);
      if src.None? || dst.None? then Failure("could not build library name")
      else if |dst.value| >= PATH_MAX then Failure("invalid destination path")
      else
        var path := it.dir.value + "/" + BaseNameOf(dst.value);
        var full := if cfg.fakeRoot.Some? then cfg.fakeRoot.value + "/" + path else path;
        Success(it.(src := src, dst := Some(Format(full))))
  }

  /** ntran_copy_exec */
  function CopyExecItem(cfg: Config, fs: Fs, cwd: Path, it: Item): Result<Item> {
    var r := CopyItem(cfg, fs, cwd, it);
    if r.Failure? then r
    else Success(r.value.(src := Some(Format(r.value.src.value + cfg.execSuffix)),
                          dst := Some(Format(r.value.dst.value + cfg.execSuffix))))
  }

  /** ntran_link */
  function LinkItem(cfg: Config, it: Item): Result<Item> {
    if it.src.None? then Failure("source file undefined")
    else if it.dir.None? then Failure("directory undefined")
    else if it.dst.None? then Failure("destination file undefined")
    else Success(it.(dir := Some(Rooted(cfg, it.dir.value))))
  }

  /** ntran_liblink: a ".vlb" source becomes the last part of the name it holds, and the
      destination its last part with the library suffix. */
  function LibLinkItem(cfg: Config, fs: Fs, cwd: Path, it: Item): Result<Item> {
    var r := LinkItem(cfg, it);
    if r.Failure? then r
    else
      var src := RealName(fs, cwd, it.src.value);
      if src.None? then Failure("could not build library name")
      else if |it.dst.value| >= PATH_MAX then Failure("invalid destination path")
      else Success(r.value.(src := if StrEnds(it.src.value, ".vlb") then Some(BaseNameOf(src.value)) else it.src,
                            dst := Some(Format(BaseNameOf(it.dst.value) + cfg.dlibSuffix))))
  }

  /** ntran_mkdir */
  function MkdirItem(cfg: Config, it: Item): Result<Item>
    requires it.dir.Some?
  {
    Success(it.(dst := if it.dst.Some? then it.dst else it.src, dir := Some(Rooted(cfg, it.dir.value))))
  }

  /** What ntran_chk_link and ntran_chk_liblink add: the destination with its directory. */
  function WithDir(r: Result<Item>): Result<Item>
    requires r.Success? ==> r.value.dir.Some? && r.value.dst.Some?
  {
    if r.Failure? then r else Success(r.value.(dst := Some(Format(r.value.dir.value + "/" + r.value.dst.value))))
  }

  /** ntran_mkdir does not look whether the item has a directory; its caller must give one. */
  predicate Sane(it: Item) {
    it.op == Mkdir ==> it.dir.Some?
  }

  /** The trans column of install_opers, which deinst_opers shares. */
  function Translated(cfg: Config, fs: Fs, cwd: Path, it: Item): (r: Result<Item>)
    requires Sane(it)
    ensures r.Success? ==> r.value.op == it.op && r.value.owner == it.owner && r.value.group == it.group
                           && r.value.perm == it.perm && r.value.dir.Some?
    ensures r.Success? && it.op != Mkdir ==> r.value.src.Some? && r.value.dst.Some?
  {
    match it.op
    case Copy => CopyItem(cfg, fs, cwd, it)
    case CopyExec => CopyExecItem(cfg, fs, cwd, it)
    case Symlink => LinkItem(cfg, it)
    case Mkdir => MkdirItem(cfg, it)
    case LibLink => LibLinkItem(cfg, fs, cwd, it)
  }

  /** The trans column of instchk_opers. */
  function CheckTranslated(cfg: Config, fs: Fs, cwd: Path, it: Item): Result<Item>
    requires Sane(it)
  {
    var r := Translated(cfg, fs, cwd, it);
    if it.op.Symlink? || it.op.LibLink? then WithDir(r) else r
  }

  ghost predicate Reports(st: Status, item: Item, r: Result<Item>) {
    match r
    case Success(t) => st.Ok? && item == t
    case Failure(m) => st == Error(m)
  }

  method NtranCopy(cfg: Config, os: Os, item: InstallItem) returns (st: Status)
    modifies item
    ensures Reports(st, item.View(), CopyItem(cfg, os.fs, os.cwd, old(item.View())))
  {
    if item.src.None? { return Error("source file undefined"); }
    if item.dir.None? { return Error("directory undefined"); }
    if item.dst.None? { item.dst := item.src; }
    var srcName := LookUp(os, item.src.value);
    if srcName.None? { return Error("could not build library name"); }
    item.src := srcName;
    var dstName := LookUp(os, item.dst.value);
    if dstName.None? { return Error("could not build library name"); }
    item.dst := dstName;
    var base := BaseName(item.dst.value);
    if base.None? { return Error("invalid destination path"); }
    item.dst := base;
    var path := FullPath(cfg, item.dir.value, item.dst.value);
    item.dst := Some(path);
    return Ok;
  }

  /** Replace the name of a virtual library file by the one it holds. */
  method LookUp(os: Os, s: string) returns (r: Option<string>)
    ensures r == RealName(os.fs, os.cwd, s)
  {
    if StrEnds(s, ".vlb") {
      r := LibName(os, s);
    } else {
      r := Some(s);
    }
  }

  /** Build a file name, possibly prefixed with the fake root. */
  method FullPath(cfg: Config, dir: string, name: string) returns (path: string)
    ensures path == Format(if cfg.fakeRoot.Some? then cfg.fakeRoot.value + "/" + (dir + "/" + name)
                           else dir + "/" + name)
  {
    if cfg.fakeRoot.Some? {
      path := Format(cfg.fakeRoot.value + "/" + dir + "/" + name);
      assert cfg.fakeRoot.value + "/" + dir + "/" + name == cfg.fakeRoot.value + "/" + (dir + "/" + name);
    } else {
      path := Format(dir + "/" + name);
    }
  }

  method NtranCopyExec(cfg: Config, os: Os, item: InstallItem) returns (st: Status)
    modifies item
    ensures Reports(st, item.View(), CopyExecItem(cfg, os.fs, os.cwd, old(item.View())))
  {
    st := NtranCopy(cfg, os, item);
    if !st.Ok? { return; }
    var srcName := Format(item.src.value + cfg.execSuffix);
    var dstName := Format(item.dst.value + cfg.execSuffix);
    item.src := Some(srcName);
    item.dst := Some(dstName);
    return Ok;
  }

  method NtranLink(cfg: Config, item: InstallItem) returns (st: Status)
    modifies item
    ensures Reports(st, item.View(), LinkItem(cfg, old(item.View())))
  {
    if item.src.None? { return Error("source file undefined"); }
    if item.dir.None? { return Error("directory undefined"); }
    if item.dst.None? { return Error("destination file undefined"); }
    if cfg.fakeRoot.Some? {
      item.dir := Some(Format(cfg.fakeRoot.value + "/" + item.dir.value));
    }
    return Ok;
  }

  method NtranLibLink(cfg: Config, os: Os, item: InstallItem) returns (st: Status)
    modifies item
    ensures Reports(st, item.View(), LibLinkItem(cfg, os.fs, os.cwd, old(item.View())))
  {
    if item.src.None? { return Error("source file undefined"); }
    if item.dir.None? { return Error("directory undefined"); }
    if item.dst.None? { return Error("destination file undefined"); }
    if cfg.fakeRoot.Some? {
      item.dir := Some(Format(cfg.fakeRoot.value + "/" + item.dir.value));
    }
    if StrEnds(item.src.value, ".vlb") {
      var srcTmp := LibName(os, item.src.value);
      if srcTmp.None? { return Error("could not build library name"); }
      LibNameFits(os.fs, os.cwd, item.src.value);
      item.src := srcTmp;
      var srcBase := BaseName(item.src.value);
      if srcBase.None? { return Error("invalid source path"); }
      item.src := srcBase;
    }
    var base := BaseName(item.dst.value);
    if base.None? { return Error("invalid destination path"); }
    item.dst := Some(Format(base.value + cfg.dlibSuffix));
    return Ok;
  }

  method NtranMkdir(cfg: Config, item: InstallItem) returns (st: Status)
    requires item.dir.Some?
    modifies item
    ensures Reports(st, item.View(), MkdirItem(cfg, old(item.View())))
  {
    if item.dst.None? { item.dst := item.src; }
    if cfg.fakeRoot.Some? {
      item.dir := Some(Format(cfg.fakeRoot.value + "/" + item.dir.value));
    }
    return Ok;
  }

  method NtranChkLink(cfg: Config, item: InstallItem) returns (st: Status)
    modifies item
    ensures Reports(st, item.View(), WithDir(LinkItem(cfg, old(item.View()))))
  {
    st := NtranLink(cfg, item);
    if !st.Ok? { return; }
    item.dst := Some(Format(item.dir.value + "/" + item.dst.value));
    return Ok;
  }

  method NtranChkLibLink(cfg: Config, os: Os, item: InstallItem) returns (st: Status)
    modifies item
    ensures Reports(st, item.View(), WithDir(LibLinkItem(cfg, os.fs, os.cwd, old(item.View()))))
  {
    st := NtranLibLink(cfg, os, item);
    if !st.Ok? { return; }
    item.dst := Some(Format(item.dir.value + "/" + item.dst.value));
    return Ok;
  }

  /** install_opers [op].trans and deinst_opers [op].trans */
  method Ntran(cfg: Config, os: Os, item: InstallItem) returns (st: Status)
    requires Sane(item.View())
    modifies item
    ensures Reports(st, item.View(), Translated(cfg, os.fs, os.cwd, old(item.View())))
  {
    match item.op
    case Copy => st := NtranCopy(cfg, os, item);
    case CopyExec => st := NtranCopyExec(cfg, os, item);
    case Symlink => st := NtranLink(cfg, item);
    case Mkdir => st := NtranMkdir(cfg, item);
    case LibLink => st := NtranLibLink(cfg, os, item);
  }

  /** instchk_opers [op].trans */
  method NtranChk(cfg: Config, os: Os, item: InstallItem) returns (st: Status)
    requires Sane(item.View())
    modifies item
    ensures Reports(st, item.View(), CheckTranslated(cfg, os.fs, os.cwd, old(item.View())))
  {
    match item.op
    case Copy => st := NtranCopy(cfg, os, item);
    case CopyExec => st := NtranCopyExec(cfg, os, item);
    case Symlink => st := NtranChkLink(cfg, item);
    case Mkdir => st := NtranMkdir(cfg, item);
    case LibLink => st := NtranChkLibLink(cfg, os, item);
  }
}
