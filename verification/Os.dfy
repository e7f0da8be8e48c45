/** The operating system as the installer's C code meets it: each method is one library or
    system call.  A call may be refused when the process is marked faulty; a call that is not
    refused does what FileSystem says. */
module OperatingSystem {
  import opened Options
  import opened Paths
  import opened FileSystem
  import opened Lookup

  datatype Errno = EEXIST | EISDIR | EOTHER

  /** What platform->make_dir returns on failure; success is 1.  install_rmkdir tests for -1,
      both platform tables return 0. */
  type FailureCode = c: int | c != 1 witness 0

  class Os {
    var fs: Fs
    var cwd: Path
    const proc: Process
    const mkdirFailure: FailureCode

    /** Path strings of successful changes, in order. */
    ghost var log: seq<string>
    /** The file system after every call that can change it. */
    ghost var trace: seq<Fs>
    /** Arguments of every make_dir call, successful or not. */
    ghost var mkdirCalls: seq<string>
    /** The string given to the last chdir; "" when back in the starting directory. */
    ghost var cwdName: string

    ghost function W(): World
      reads this
    {
      World(fs, cwd, log)
    }

    constructor (fs: Fs, cwd: Path, proc: Process, mkdirFailure: FailureCode)
      ensures this.fs == fs && this.cwd == cwd && this.proc == proc && this.mkdirFailure == mkdirFailure
      ensures log == [] && trace == [] && mkdirCalls == [] && cwdName == ""
    {
      this.fs, this.cwd, this.proc, this.mkdirFailure := fs, cwd, proc, mkdirFailure;
      log, trace, mkdirCalls, cwdName := [], [], [], "";
    }

    /** True when the system refuses a call it could have carried out. */
    method Refused() returns (r: bool)
      ensures r ==> proc.faulty
    {
      r := *;
      r := r && proc.faulty;
    }

    /** platform->make_dir */
    method MakeDir(path: string, perm: Mode) returns (r: int, errno: Errno)
      modifies `fs, `log, `trace, `mkdirCalls
      ensures r == 1 || r == mkdirFailure
      ensures r == 1 ==>
        && Creatable(old(fs), cwd, path) && fs == old(fs)[Entry(old(fs), cwd, path).value := NewDir(proc, perm)]
        && log == old(log) + [path]
      ensures r != 1 ==> fs == old(fs) && log == old(log)
      ensures !proc.faulty && Creatable(old(fs), cwd, path) ==> r == 1
      ensures trace == old(trace) + [fs] && mkdirCalls == old(mkdirCalls) + [path]
    {
      var k := Entry(fs, cwd, path);
      var refused := Refused();
      r, errno := mkdirFailure, EOTHER;
      if k.Some? && CanCreate(fs, k.value) && !refused {
        fs := fs[k.value := NewDir(proc, perm)];
        r := 1;
        log := log + [path];
      } else if k.Some? && k.value in fs {
        errno := if refused then EISDIR else EEXIST;
      }
      trace := trace + [fs];
      mkdirCalls := mkdirCalls + [path];
    }

    /** fopen (path, "rb"): the entry the stream reads. */
    method OpenRead(path: string) returns (key: Option<Path>)
      ensures key.Some? ==> Reach(fs, cwd, path) == key && IsFile(fs, key.value)
      ensures !proc.faulty && Stat(fs, cwd, path).Some? && Stat(fs, cwd, path).value.File? ==> key.Some?
    {
      var refused := Refused();
      key := Reach(fs, cwd, path);
      if refused || key.None? || !IsFile(fs, key.value) {
        key := None;
      }
    }

    /** fopen (path, "wb") */
    method OpenWrite(path: string) returns (key: Option<Path>)
      modifies `fs, `log, `trace
      ensures key.Some? ==>
        && Reach(old(fs), cwd, path) == key && CanOpenWrite(old(fs), key.value)
        && fs == OpenedForWrite(old(fs), key.value, proc) && log == old(log) + [path]
      ensures key.None? ==> fs == old(fs) && log == old(log)
      ensures !proc.faulty && Writable(old(fs), cwd, path) ==> key.Some?
      ensures trace == old(trace) + [fs]
    {
      var refused := Refused();
      key := Reach(fs, cwd, path);
      if refused || key.None? || !CanOpenWrite(fs, key.value) {
        key := None;
      } else {
        fs := OpenedForWrite(fs, key.value, proc);
        log := log + [path];
      }
      trace := trace + [fs];
    }

    /** fread: some of the bytes from pos on; none means end of file or an error. */
    method Read(key: Path, pos: nat, buf: array<Byte>) returns (r: nat, err: bool)
      requires IsFile(fs, key) && pos <= |fs[key].content| && buf.Length > 0
      modifies buf
      ensures r <= buf.Length && pos + r <= |fs[key].content|
      ensures buf[..r] == fs[key].content[pos..pos + r]
      ensures err ==> proc.faulty && r == 0
      ensures r == 0 && !err ==> pos == |fs[key].content|
    {
      var content := fs[key].content;
      err := Refused();
      r := 0;
      if !err && pos < |content| {
        r :| 1 <= r <= buf.Length && pos + r <= |content|;
        forall i | 0 <= i < r {
          buf[i] := content[pos + i];
        }
      }
    }

    /** fwrite: the leading w of the bytes reach the file; none means an error. */
    method Write(key: Path, path: string, bytes: seq<Byte>) returns (w: nat)
      requires IsFile(fs, key) && |bytes| > 0
      modifies `fs, `trace
      ensures w <= |bytes|
      ensures w == 0 ==> proc.faulty
      ensures fs == old(fs)[key := old(fs)[key].(content := old(fs)[key].content + bytes[..w])]
      ensures trace == old(trace) + [fs]
    {
      var failed := Refused();
      w := 0;
      if !failed {
        w :| 1 <= w <= |bytes|;
      }
      fs := fs[key := fs[key].(content := fs[key].content + bytes[..w])];
      trace := trace + [fs];
    }

    /** chmod */
    method Chmod(path: string, mode: Mode) returns (ok: bool)
      modifies `fs, `log, `trace
      ensures ok ==>
        && Stat(old(fs), cwd, path).Some?
        && fs == ChmodFs(old(fs), Reach(old(fs), cwd, path).value, mode) && log == old(log) + [path]
      ensures !ok ==> fs == old(fs) && log == old(log)
      ensures !proc.faulty && Stat(old(fs), cwd, path).Some? ==> ok
      ensures trace == old(trace) + [fs]
    {
      var refused := Refused();
      ok := !refused && Stat(fs, cwd, path).Some?;
      if ok {
        fs := ChmodFs(fs, Reach(fs, cwd, path).value, mode);
        log := log + [path];
      }
      trace := trace + [fs];
    }

    /** chown */
    method Chown(path: string, uid: int, gid: int) returns (ok: bool)
      modifies `fs, `log, `trace
      ensures ok ==>
        && Stat(old(fs), cwd, path).Some?
        && fs == ChownFs(old(fs), Reach(old(fs), cwd, path).value, uid, gid) && log == old(log) + [path]
      ensures !ok ==> fs == old(fs) && log == old(log)
      ensures !proc.faulty && Stat(old(fs), cwd, path).Some? ==> ok
      ensures trace == old(trace) + [fs]
    {
      var refused := Refused();
      ok := !refused && Stat(fs, cwd, path).Some?;
      if ok {
        fs := ChownFs(fs, Reach(fs, cwd, path).value, uid, gid);
        log := log + [path];
      }
      trace := trace + [fs];
    }

    /** rename: looks at both entries themselves. */
    method Rename(from: string, to: string) returns (ok: bool)
      modifies `fs, `log, `trace
      ensures ok ==>
        && Renamable(old(fs), cwd, from, to)
        && fs == Renamed(old(fs), Entry(old(fs), cwd, from).value, Entry(old(fs), cwd, to).value)
        && log == old(log) + [from, to]
      ensures !ok ==> fs == old(fs) && log == old(log)
      ensures !proc.faulty && Renamable(old(fs), cwd, from, to) ==> ok
      ensures trace == old(trace) + [fs]
    {
      var refused := Refused();
      ok := !refused && Renamable(fs, cwd, from, to);
      if ok {
        fs := Renamed(fs, Entry(fs, cwd, from).value, Entry(fs, cwd, to).value);
        log := log + [from, to];
      }
      trace := trace + [fs];
    }

    /** unlink */
    method Unlink(path: string) returns (ok: bool)
      modifies `fs, `log, `trace
      ensures ok ==>
        && Unlinkable(old(fs), cwd, path) && fs == old(fs) - {Entry(old(fs), cwd, path).value}
        && log == old(log) + [path]
      ensures !ok ==> fs == old(fs) && log == old(log)
      ensures !proc.faulty && Unlinkable(old(fs), cwd, path) ==> ok
      ensures trace == old(trace) + [fs]
    {
      var refused := Refused();
      ok := !refused && Unlinkable(fs, cwd, path);
      if ok {
        fs := fs - {Entry(fs, cwd, path).value};
        log := log + [path];
      }
      trace := trace + [fs];
    }

    /** rmdir */
    method Rmdir(path: string) returns (ok: bool)
      modifies `fs, `log, `trace
      ensures ok ==>
        && Rmdirable(old(fs), cwd, path) && fs == old(fs) - {Entry(old(fs), cwd, path).value}
        && log == old(log) + [path]
      ensures !ok ==> fs == old(fs) && log == old(log)
      ensures !proc.faulty && Rmdirable(old(fs), cwd, path) ==> ok
      ensures trace == old(trace) + [fs]
    {
      var refused := Refused();
      var k := Entry(fs, cwd, path);
      ok := !refused && k.Some? && k.value != [] && IsDir(fs, k.value) && forall q | q in fs :: !(k.value < q);
      if ok {
        fs := fs - {k.value};
        log := log + [path];
      }
      trace := trace + [fs];
    }

    /** symlink (target, path): a link cannot be empty. */
    method Symlink(target: string, path: string) returns (ok: bool)
      modifies `fs, `log, `trace
      ensures ok ==>
        && target != "" && Creatable(old(fs), cwd, path)
        && fs == old(fs)[Entry(old(fs), cwd, path).value := Link(target)]
        && log == old(log) + [NameFrom(cwdName, path)]
      ensures !ok ==> fs == old(fs) && log == old(log)
      ensures !proc.faulty && target != "" && Creatable(old(fs), cwd, path) ==> ok
      ensures trace == old(trace) + [fs]
    {
      var refused := Refused();
      ok := !refused && target != "" && Creatable(fs, cwd, path);
      if ok {
        fs := fs[Entry(fs, cwd, path).value := Link(target)];
        log := log + [NameFrom(cwdName, path)];
      }
      trace := trace + [fs];
    }

    /** getcwd; None when the name does not fit or the call is refused. */
    method Getcwd() returns (r: Option<Path>)
      ensures r.Some? ==> r.value == cwd
      ensures !proc.faulty ==> r.Some?
    {
      var refused := Refused();
      r := if refused then None else Some(cwd);
    }

    /** chdir (path) */
    method Chdir(path: string) returns (ok: bool)
      modifies `cwd, `cwdName
      ensures ok ==> LeadsToDir(fs, old(cwd), path) && Some(cwd) == Reach(fs, old(cwd), path) && cwdName == path
      ensures !ok ==> cwd == old(cwd) && cwdName == old(cwdName)
      ensures !proc.faulty && LeadsToDir(fs, old(cwd), path) ==> ok
    {
      var refused := Refused();
      ok := !refused && LeadsToDir(fs, cwd, path);
      if ok {
        cwd := Reach(fs, cwd, path).value;
        cwdName := path;
      }
    }

    /** chdir to a directory named by getcwd. */
    method ChdirBack(dir: Path) returns (ok: bool)
      modifies `cwd, `cwdName
      ensures ok ==> IsDir(fs, dir) && cwd == dir && cwdName == ""
      ensures !ok ==> cwd == old(cwd) && cwdName == old(cwdName)
      ensures !proc.faulty && IsDir(fs, dir) ==> ok
    {
      var refused := Refused();
      ok := !refused && IsDir(fs, dir);
      if ok {
        cwd := dir;
        cwdName := "";
      }
    }
  }

  /** The string that names, from the starting directory, a path used after chdir (dir). */
  function NameFrom(dir: string, path: string): string {
    if dir == "" || IsAbsolute(path) then path else dir + "/" + path
  }

  function ChmodFs(fs: Fs, k: Path, mode: Mode): Fs
    requires k in fs
  {
    var n := match fs[k]
      case File(c, _, u, g) => File(c, mode & 0xFFF, u, g)
      case Dir(_, u, g) => Dir(mode & 0xFFF, u, g)
      case Link(_) => fs[k];
    fs[k := n]
  }

  function ChownFs(fs: Fs, k: Path, uid: int, gid: int): Fs
    requires k in fs
  {
    fs[k := Owned(fs[k], uid, gid)]
  }
}
