/** install_file_copy: copy through a temporary file and rename it into place. */
module FileCopy {
  import opened Options
  import opened Paths
  import opened FileSystem
  import opened Lookup
  import opened OperatingSystem

  datatype Status = Ok | Error(message: string) | Fatal

  /** dst.tmp, as formatted into its buffer. */
  function TempName(dst: string): string {
    Format(dst + ".tmp")
  }

  function TempEntry(w: World, dst: string): Option<Path> {
    Entry(w.fs, w.cwd, TempName(dst))
  }

  function TempSet(w: World, dst: string): set<Path> {
    if TempEntry(w, dst).Some? then {TempEntry(w, dst).value} else {}
  }

  /** The name of the temporary file is free or a plain file: writing it writes no other entry. */
  predicate PlainTemp(w: World, dst: string) {
    forall t :: t in TempSet(w, dst) ==> t !in w.fs || w.fs[t].File?
  }

  predicate OwnerAllowed(proc: Process, uid: int) {
    uid == proc.uid || proc.uid == 0
  }

  /** The finished temporary file; uid and gid are set only when uid is not the process's own. */
  function Finished(n: Node, content: seq<Byte>, proc: Process, uid: int, gid: int, mode: Mode): Node
    requires n.File?
  {
    if uid == proc.uid then File(content, mode & 0xFFF, n.uid, n.gid)
    else File(content, mode & 0xFFF, uid, gid)
  }

  /** When every call can succeed: the source leads to a file, the temporary file can be opened, the
      owner may be set, and the rename has somewhere to go. */
  predicate CanCopy(proc: Process, w: World, src: string, dst: string, uid: int) {
    var s, d := Reach(w.fs, w.cwd, src), Entry(w.fs, w.cwd, dst);
    && s.Some? && IsFile(w.fs, s.value)
    && TempEntry(w, dst).Some? && Writable(w.fs, w.cwd, TempName(dst))
    && OwnerAllowed(proc, uid)
    && d.Some? && d.value != [] && IsDir(w.fs, Parent(d.value)) && !IsDir(w.fs, d.value)
  }

  /** The bytes that are there to read once the temporary file has been opened, and so truncated. */
  function SourceBytes(w: World, src: string, dst: string): seq<Byte>
    requires Reach(w.fs, w.cwd, src).Some? && IsFile(w.fs, Reach(w.fs, w.cwd, src).value)
  {
    var s := Reach(w.fs, w.cwd, src);
    if Reach(w.fs, w.cwd, TempName(dst)) == s then [] else w.fs[s.value].content
  }

  /** The file system a successful copy leaves. */
  function Copied(proc: Process, w: World, src: string, dst: string, uid: int, gid: int, mode: Mode): Fs
    requires CanCopy(proc, w, src, dst, uid)
  {
    var k := Reach(w.fs, w.cwd, TempName(dst)).value;
    var ready := OpenedForWrite(w.fs, k, proc);
    var full := ready[k := Finished(ready[k], SourceBytes(w, src, dst), proc, uid, gid, mode)];
    EntryAndReach(w.fs, w.cwd, TempName(dst));
    Renamed(full, TempEntry(w, dst).value, Entry(w.fs, w.cwd, dst).value)
  }

  /** What one call of install_file_copy may do. */
  ghost predicate CopyStep(proc: Process, w: World, src: string, dst: string,
                           uid: int, gid: int, mode: Mode, w': World, st: Status) {
    && CopyOutcome(proc, w, src, dst, uid, gid, mode, w', st)
    && Spares(w.fs, w'.fs, if st.Ok? then ReplacedBy(w, dst) else TempSet(w, dst))
    && (st.Error? && !proc.faulty && HasSource(w, src) && !Writable(w.fs, w.cwd, TempName(dst)) ==>
          w'.fs == WithoutTemp(w, dst))
  }

  /** The source can be opened. */
  predicate HasSource(w: World, src: string) {
    var s := Stat(w.fs, w.cwd, src);
    s.Some? && s.value.File?
  }

  /** What the clean-up leaves when the temporary file could not even be opened. */
  function WithoutTemp(w: World, dst: string): Fs {
    if Unlinkable(w.fs, w.cwd, TempName(dst)) then w.fs - {TempEntry(w, dst).value} else w.fs
  }

  ghost predicate CopyOutcome(proc: Process, w: World, src: string, dst: string,
                              uid: int, gid: int, mode: Mode, w': World, st: Status) {
    && w'.cwd == w.cwd
    && !st.Fatal?
    && (st.Ok? ==> CanCopy(proc, w, src, dst, uid) && w'.fs == Copied(proc, w, src, dst, uid, gid, mode))
    && (!st.Ok? && PlainTemp(w, dst) ==> AgreeExcept(w.fs, w'.fs, TempSet(w, dst)))
    && (!st.Ok? && PlainTemp(w, dst) && !proc.faulty ==>
          w'.fs == w.fs || forall t :: t in TempSet(w, dst) ==> t !in w'.fs)
    && (!proc.faulty && CanCopy(proc, w, src, dst, uid) ==> st.Ok?)
    && LoggedOnly(w.log, w'.log, s => s == TempName(dst) || s == dst)
    && (WellFormed(w.fs) ==> WellFormed(w'.fs))
  }

  /** The entries a copy may replace or remove. */
  function ReplacedBy(w: World, dst: string): set<Path> {
    var d := Entry(w.fs, w.cwd, dst);
    TempSet(w, dst) + if d.Some? then {d.value} else {}
  }

  /** From some point of the trace on, every entry but those is only ever seen as it was in f or as
      it is in g. */
  ghost predicate AllOrNothing(trace: seq<Fs>, from: nat, f: Fs, g: Fs, but: set<Path>) {
    forall i, p :: from <= i < |trace| && p !in but ==> At(trace[i], p) == At(f, p) || At(trace[i], p) == At(g, p)
  }

  /** Between two points of the trace only the entry k differs from fs0. */
  ghost predicate OnlyTouches(trace: seq<Fs>, from: nat, fs0: Fs, k: Path) {
    forall i, p :: from <= i < |trace| && p != k ==> At(trace[i], p) == At(fs0, p)
  }

  lemma ChainTouches(t0: seq<Fs>, fs0: Fs, t1: seq<Fs>, fs1: Fs, t2: seq<Fs>, k: Path)
    requires t0 <= t1 <= t2
    requires OnlyTouches(t1, |t0|, fs0, k) && OnlyTouches(t2, |t1|, fs1, k)
    requires forall p :: p != k ==> At(fs1, p) == At(fs0, p)
    ensures OnlyTouches(t2, |t0|, fs0, k)
  {
  }

  /** The inner loop: fwrite until the r bytes that were read are all written. */
  method WriteChunk(os: Os, k: Path, path: string, copyBuf: array<Byte>, got: nat) returns (failed: bool)
    requires IsFile(os.fs, k) && 0 < got <= copyBuf.Length
    modifies os`fs, os`trace
    ensures failed ==> os.proc.faulty
    ensures IsFile(os.fs, k) && os.fs == old(os.fs)[k := old(os.fs)[k].(content := os.fs[k].content)]
    ensures !failed ==> os.fs[k].content == old(os.fs)[k].content + copyBuf[..got]
    ensures old(os.trace) <= os.trace && OnlyTouches(os.trace, |old(os.trace)|, old(os.fs), k)
  {
    var r, copyPtr := got, 0;
    ghost var fs0, t0, bytes := os.fs, os.trace, copyBuf[..];
    assert os.fs[k].content + bytes[..0] == os.fs[k].content;
    while r > 0
      invariant 0 <= r && 0 <= copyPtr && copyPtr + r == got
      invariant copyBuf[..] == bytes
      invariant os.fs == fs0[k := fs0[k].(content := fs0[k].content + bytes[..copyPtr])]
      invariant t0 <= os.trace && OnlyTouches(os.trace, |t0|, fs0, k)
      decreases r
    {
      var w := os.Write(k, path, copyBuf[copyPtr..copyPtr + r]);
      assert fs0[k].content + bytes[..copyPtr] + bytes[copyPtr..copyPtr + r][..w]
        == fs0[k].content + bytes[..copyPtr + w];
      if w == 0 { return true; }
      r := r - w;
      copyPtr := copyPtr + w;
    }
    return false;
  }

  /** The copy loop: whatever short reads and writes occur, the bytes written so far are the
      bytes read so far. */
  method CopyBytes(os: Os, s: Path, k: Path, path: string) returns (failed: bool)
    requires IsFile(os.fs, s) && IsFile(os.fs, k) && os.fs[k].content == []
    modifies os`fs, os`trace
    ensures failed ==> os.proc.faulty
    ensures IsFile(os.fs, k) && os.fs == old(os.fs)[k := old(os.fs)[k].(content := os.fs[k].content)]
    ensures !failed ==> os.fs[k].content == old(os.fs)[s].content
    ensures old(os.trace) <= os.trace && OnlyTouches(os.trace, |old(os.trace)|, old(os.fs), k)
  {
    var copyBuf := new Byte[65536];
    var pos := 0;
    ghost var content := os.fs[s].content;
    ghost var fs0, t0 := os.fs, os.trace;
    while true
      invariant 0 <= pos <= |content|
      invariant os.fs == fs0[k := fs0[k].(content := content[..pos])]
      invariant t0 <= os.trace && OnlyTouches(os.trace, |t0|, fs0, k)
      decreases |content| - pos
    {
      assert s == k ==> content == [];
      var r, readError := os.Read(s, pos, copyBuf);
      if r == 0 {
        if !readError {
          assert content[..pos] == content;
          break;
        }
        return true;
      }
      ghost var fs1, t1 := os.fs, os.trace;
      var writeError := WriteChunk(os, k, path, copyBuf, r);
      ChainTouches(t0, fs0, t1, fs1, os.trace, k);
      if writeError { return true; }
      assert content[..pos] + content[pos..pos + r] == content[..pos + r];
      pos := pos + r;
    }
    return false;
  }

  /** Writing a file changes where no path leads. */
  lemma WriteKeepsNames(fs: Fs, k: Path, n: Node, cwd: Path, s: string)
    requires (k in fs ==> fs[k].File?) && n.File?
    ensures Entry(fs[k := n], cwd, s) == Entry(fs, cwd, s) && Reach(fs[k := n], cwd, s) == Reach(fs, cwd, s)
  {
    SameShapeLooksSame(fs, fs[k := n], cwd, s);
  }

  /** Mode and ownership of the temporary file. */
  method SetAttributes(os: Os, k: Path, tmp: string, uid: int, gid: int, mode: Mode) returns (st: Status)
    requires IsFile(os.fs, k) && Reach(os.fs, os.cwd, tmp) == Some(k)
    modifies os`fs, os`trace, os`log
    ensures !st.Fatal?
    ensures IsFile(os.fs, k) && os.fs == old(os.fs)[k := os.fs[k]]
    ensures st.Ok? ==>
      OwnerAllowed(os.proc, uid) && os.fs[k] == Finished(old(os.fs)[k], old(os.fs)[k].content, os.proc, uid, gid, mode)
    ensures !os.proc.faulty ==> (st.Ok? <==> uid == os.proc.uid || os.proc.uid == 0)
    ensures st.Ok? && uid != os.proc.uid ==> os.fs[k].uid == uid && os.fs[k].gid == gid
    ensures old(os.trace) <= os.trace && OnlyTouches(os.trace, |old(os.trace)|, old(os.fs), k)
    ensures LoggedOnly(old(os.log), os.log, x => x == tmp)
  {
    ghost var fs0 := os.fs;
    var modeSet := os.Chmod(tmp, mode);
    if !modeSet { return Error("could not set file permissions"); }
    WriteKeepsNames(fs0, k, os.fs[k], os.cwd, tmp);

    var canChangeOwner := os.proc.uid == 0;
    var wantChangeOwner := os.proc.uid != uid;
    if !canChangeOwner && wantChangeOwner {
      return Error("current user ID is restricted from setting file ownership");
    }
    if canChangeOwner && wantChangeOwner {
      var ownerSet := os.Chown(tmp, uid, gid);
      if !ownerSet { return Error("could not set file ownership"); }
    }
    return Ok;
  }

  /** From the opened streams to a temporary file ready to be renamed. */
  method FillTemp(os: Os, s: Path, k: Path, tmp: string, uid: int, gid: int, mode: Mode) returns (st: Status)
    requires IsFile(os.fs, s) && IsFile(os.fs, k) && os.fs[k].content == []
    requires Reach(os.fs, os.cwd, tmp) == Some(k)
    modifies os`fs, os`trace, os`log
    ensures !st.Fatal?
    ensures IsFile(os.fs, k) && os.fs == old(os.fs)[k := os.fs[k]]
    ensures st.Ok? ==>
      OwnerAllowed(os.proc, uid) && os.fs[k] == Finished(old(os.fs)[k], old(os.fs)[s].content, os.proc, uid, gid, mode)
    ensures !os.proc.faulty && OwnerAllowed(os.proc, uid) ==> st.Ok?
    ensures old(os.trace) <= os.trace && OnlyTouches(os.trace, |old(os.trace)|, old(os.fs), k)
    ensures LoggedOnly(old(os.log), os.log, x => x == tmp)
  {
    ghost var fs0, t0 := os.fs, os.trace;
    var copyError := CopyBytes(os, s, k, tmp);
    if copyError { return Error("read or write error"); }
    var flushError := os.Refused();
    if flushError { return Error("write error"); }
    WriteKeepsNames(fs0, k, os.fs[k], os.cwd, tmp);
    ghost var fs1, t1 := os.fs, os.trace;
    st := SetAttributes(os, k, tmp, uid, gid, mode);
    ChainTouches(t0, fs0, t1, fs1, os.trace, k);
  }

  /** Facts about the file system just after the temporary file is opened. */
  lemma OpenedFacts(fs: Fs, cwd: Path, tmp: string, s: Path, k: Path, proc: Process)
    requires Reach(fs, cwd, tmp) == Some(k) && CanOpenWrite(fs, k) && IsFile(fs, s)
    ensures var g := OpenedForWrite(fs, k, proc);
      && IsFile(g, s) && IsFile(g, k) && g[k].content == [] && Reach(g, cwd, tmp) == Some(k)
      && g[s].content == (if s == k then [] else fs[s].content)
      && (forall p :: p != k ==> At(g, p) == At(fs, p))
      && (WellFormed(fs) ==> WellFormed(g))
  {
    var g := OpenedForWrite(fs, k, proc);
    WriteKeepsNames(fs, k, g[k], cwd, tmp);
  }

  /** Facts about the file system once the temporary file is written. */
  lemma FilledFacts(fs: Fs, cwd: Path, tmp: string, dst: string, k: Path, n: Node)
    requires Reach(fs, cwd, tmp) == Some(k) && IsFile(fs, k) && n.File?
    ensures Entry(fs, cwd, tmp).Some?
    ensures var t, d, g := Entry(fs, cwd, tmp).value, Entry(fs, cwd, dst), fs[k := n];
      && Entry(g, cwd, tmp) == Some(t) && Entry(g, cwd, dst) == d && CanUnlink(g, t)
      && (Renamable(g, cwd, tmp, dst) <==>
            d.Some? && d.value != [] && IsDir(fs, Parent(d.value)) && !IsDir(fs, d.value))
      && (WellFormed(fs) ==> WellFormed(g) && WellFormed(g - {t}))
      && (WellFormed(fs) && Renamable(g, cwd, tmp, dst) ==> WellFormed(Renamed(g, t, d.value)))
  {
    EntryAndReach(fs, cwd, tmp);
    WriteKeepsNames(fs, k, n, cwd, tmp);
    WriteKeepsNames(fs, k, n, cwd, dst);
  }

  predicate Moved(full: Fs, cwd: Path, tmp: string, dst: string, g: Fs) {
    Renamable(full, cwd, tmp, dst) && g == Renamed(full, Entry(full, cwd, tmp).value, Entry(full, cwd, dst).value)
  }

  /** Fill the temporary file, close both streams, rename.  The trace shows k changing, then the rename. */
  method FillAndRename(os: Os, dst: string, uid: int, gid: int, mode: Mode, s: Path, k: Path, tmp: string)
      returns (st: Status)
    requires IsFile(os.fs, s) && IsFile(os.fs, k) && os.fs[k].content == []
    requires Reach(os.fs, os.cwd, tmp) == Some(k)
    modifies os`fs, os`trace, os`log
    ensures !st.Fatal?
    ensures !st.Ok? ==> IsFile(os.fs, k) && os.fs == old(os.fs)[k := os.fs[k]]
    ensures st.Ok? ==>
      && OwnerAllowed(os.proc, uid)
      && Moved(Filled(os.proc, old(os.fs), s, k, uid, gid, mode), os.cwd, tmp, dst, os.fs)
    ensures (!os.proc.faulty && OwnerAllowed(os.proc, uid)
             && Renamable(Filled(os.proc, old(os.fs), s, k, uid, gid, mode), os.cwd, tmp, dst)) ==> st.Ok?
    ensures LoggedOnly(old(os.log), os.log, x => x == tmp || x == dst)
    ensures old(os.trace) <= os.trace
    ensures AllOrNothing(os.trace, |old(os.trace)|, old(os.fs), os.fs, {k})
  {
    ghost var t0, fs0 := os.trace, os.fs;
    st := FillTemp(os, s, k, tmp, uid, gid, mode);
    if st.Ok? {
      var closeError := os.Refused();
      if closeError { return Error("could not close file"); }
      var renamed := os.Rename(tmp, dst);
      if !renamed { return Error("could not rename temporary file"); }
    }
  }

  /** The file system with the temporary file complete. */
  function Filled(proc: Process, fs: Fs, s: Path, k: Path, uid: int, gid: int, mode: Mode): Fs
    requires IsFile(fs, s) && IsFile(fs, k)
  {
    fs[k := Finished(fs[k], fs[s].content, proc, uid, gid, mode)]
  }

  /** Writing and moving a file spares all else. */
  lemma MoveSpares(f: Fs, k: Path, n: Node, t: Path, d: Path, g: Fs)
    requires (k in f ==> f[k].File?) && n.File?
    requires CanRename(f[k := n], t, d) && g == Renamed(f[k := n], t, d)
    ensures Spares(f, g, {t, d})
  {
  }

  lemma CompletedSpares(proc: Process, w: World, dst: string, uid: int, gid: int, mode: Mode, s: Path, k: Path,
                        w': World)
    requires Reach(w.fs, w.cwd, TempName(dst)) == Some(k) && CanOpenWrite(w.fs, k)
    requires var ready := OpenedForWrite(w.fs, k, proc);
      IsFile(ready, s) && Moved(Filled(proc, ready, s, k, uid, gid, mode), w.cwd, TempName(dst), dst, w'.fs)
    ensures Spares(w.fs, w'.fs, ReplacedBy(w, dst))
  {
    var n := Filled(proc, OpenedForWrite(w.fs, k, proc), s, k, uid, gid, mode)[k];
    assert Filled(proc, OpenedForWrite(w.fs, k, proc), s, k, uid, gid, mode) == w.fs[k := n];
    WriteKeepsNames(w.fs, k, n, w.cwd, TempName(dst));
    WriteKeepsNames(w.fs, k, n, w.cwd, dst);
    var t, d := Entry(w.fs, w.cwd, TempName(dst)).value, Entry(w.fs, w.cwd, dst).value;
    MoveSpares(w.fs, k, n, t, d, w'.fs);
  }

  /** A copy that got as far as opening both streams and then completed. */
  lemma CopyCompletes(proc: Process, w: World, src: string, dst: string, uid: int, gid: int, mode: Mode,
                      s: Path, k: Path, w': World)
    requires Reach(w.fs, w.cwd, src) == Some(s) && IsFile(w.fs, s)
    requires Reach(w.fs, w.cwd, TempName(dst)) == Some(k) && CanOpenWrite(w.fs, k) && OwnerAllowed(proc, uid)
    requires var ready := OpenedForWrite(w.fs, k, proc);
      IsFile(ready, s) && Moved(Filled(proc, ready, s, k, uid, gid, mode), w.cwd, TempName(dst), dst, w'.fs)
    requires w'.cwd == w.cwd && LoggedOnly(w.log, w'.log, x => x == TempName(dst) || x == dst)
    ensures CopyOutcome(proc, w, src, dst, uid, gid, mode, w', Ok)
  {
    var ready := OpenedForWrite(w.fs, k, proc);
    OpenedFacts(w.fs, w.cwd, TempName(dst), s, k, proc);
    WriteKeepsNames(w.fs, k, ready[k], w.cwd, TempName(dst));
    WriteKeepsNames(w.fs, k, ready[k], w.cwd, dst);
    FilledFacts(ready, w.cwd, TempName(dst), dst, k, Filled(proc, ready, s, k, uid, gid, mode)[k]);
  }

  lemma CopyDone(proc: Process, w: World, src: string, dst: string, uid: int, gid: int, mode: Mode,
                 s: Path, k: Path, w': World)
    requires Reach(w.fs, w.cwd, src) == Some(s) && IsFile(w.fs, s)
    requires Reach(w.fs, w.cwd, TempName(dst)) == Some(k) && CanOpenWrite(w.fs, k) && OwnerAllowed(proc, uid)
    requires var ready := OpenedForWrite(w.fs, k, proc);
      IsFile(ready, s) && Moved(Filled(proc, ready, s, k, uid, gid, mode), w.cwd, TempName(dst), dst, w'.fs)
    requires w'.cwd == w.cwd && LoggedOnly(w.log, w'.log, x => x == TempName(dst) || x == dst)
    ensures CopyStep(proc, w, src, dst, uid, gid, mode, w', Ok)
  {
    CopyCompletes(proc, w, src, dst, uid, gid, mode, s, k, w');
    CompletedSpares(proc, w, dst, uid, gid, mode, s, k, w');
  }

  /** What a failed copy has done before it unlinks the temporary file: nothing, or changed that
      file. */
  ghost predicate Unfinished(w: World, dst: string, k: Path, mid: World) {
    && mid.cwd == w.cwd
    && (mid.fs == w.fs
        || (Reach(w.fs, w.cwd, TempName(dst)) == Some(k) && CanOpenWrite(w.fs, k)
            && IsFile(mid.fs, k) && mid.fs == w.fs[k := mid.fs[k]]))
    && LoggedOnly(w.log, mid.log, x => x == TempName(dst) || x == dst)
  }

  /** How a failed copy ends: it tries to unlink the temporary file. */
  ghost predicate TriedUnlink(proc: Process, dst: string, mid: World, w': World) {
    var tmp := TempName(dst);
    && w'.cwd == mid.cwd
    && ((w'.fs == mid.fs && w'.log == mid.log && (proc.faulty || !Unlinkable(mid.fs, mid.cwd, tmp)))
        || (Unlinkable(mid.fs, mid.cwd, tmp) && w'.fs == mid.fs - {Entry(mid.fs, mid.cwd, tmp).value}
            && w'.log == mid.log + [tmp]))
  }

  lemma CopyFails(proc: Process, w: World, src: string, dst: string, uid: int, gid: int, mode: Mode,
                  k: Path, mid: World, w': World, st: Status)
    requires st.Error? && (proc.faulty || !CanCopy(proc, w, src, dst, uid))
    requires Unfinished(w, dst, k, mid) && TriedUnlink(proc, dst, mid, w')
    ensures CopyOutcome(proc, w, src, dst, uid, gid, mode, w', st)
  {
    EntryAndReach(w.fs, w.cwd, TempName(dst));
    if mid.fs != w.fs { WriteKeepsNames(w.fs, k, mid.fs[k], w.cwd, TempName(dst)); }
    if WellFormed(w.fs) {
      if mid.fs != w.fs && k in w.fs { WellFormedAfterUpdate(w.fs, k, mid.fs[k]); }
      if mid.fs != w.fs && k !in w.fs { WellFormedAfterCreate(w.fs, k, mid.fs[k]); }
      if Unlinkable(mid.fs, mid.cwd, TempName(dst)) {
        WellFormedAfterRemove(mid.fs, Entry(mid.fs, mid.cwd, TempName(dst)).value);
      }
    }
  }

  /** It spares all but the temporary name, and removes that. */
  lemma FailedSpares(proc: Process, w: World, dst: string, k: Path, mid: World, w': World)
    requires Unfinished(w, dst, k, mid) && TriedUnlink(proc, dst, mid, w')
    ensures Spares(w.fs, w'.fs, TempSet(w, dst))
    ensures !proc.faulty && !Writable(w.fs, w.cwd, TempName(dst)) ==> w'.fs == WithoutTemp(w, dst)
  {
    if mid.fs != w.fs { WriteKeepsNames(w.fs, k, mid.fs[k], w.cwd, TempName(dst)); }
  }

  /** A copy whose source cannot be opened. */
  lemma CopyFailsEarly(proc: Process, w: World, src: string, dst: string, uid: int, gid: int, mode: Mode, st: Status)
    requires st.Error? && (proc.faulty || !HasSource(w, src))
    ensures CopyStep(proc, w, src, dst, uid, gid, mode, w, st)
  {
  }

  /** Opening the temporary file changes only that entry, so what follows may start from there. */
  lemma OpenedFirst(t0: seq<Fs>, f: Fs, f1: Fs, trace: seq<Fs>, g: Fs, k: Path)
    requires t0 + [f1] <= trace && AllOrNothing(trace, |t0| + 1, f1, g, {k})
    requires forall p :: p != k ==> At(f1, p) == At(f, p)
    ensures AllOrNothing(trace, |t0|, f, g, {k})
  {
  }

  /** Removing the temporary file of a failed copy. */
  lemma OneMoreSeen(trace: seq<Fs>, from: nat, f: Fs, g: Fs, g': Fs, but: set<Path>)
    requires AllOrNothing(trace, from, f, g, but) && forall p :: p !in but ==> At(g, p) == At(f, p)
    ensures AllOrNothing(trace + [g'], from, f, g', but)
  {
  }

  /** Opening the temporary file, and everything up to the rename. */
  method AttemptCopy(os: Os, src: string, dst: string, uid: int, gid: int, mode: Mode, s: Path)
      returns (st: Status, ghost k: Path)
    requires Reach(os.fs, os.cwd, src) == Some(s) && IsFile(os.fs, s)
    modifies os`fs, os`trace, os`log
    ensures st.Ok? ==> CopyStep(os.proc, old(os.W()), src, dst, uid, gid, mode, os.W(), Ok)
    ensures !st.Ok? ==> st.Error? && Unfinished(old(os.W()), dst, k, os.W())
    ensures !st.Ok? ==> os.proc.faulty || !CanCopy(os.proc, old(os.W()), src, dst, uid)
    ensures old(os.trace) <= os.trace
    ensures AllOrNothing(os.trace, |old(os.trace)|, old(os.fs), os.fs, Opened(old(os.W()), dst, k))
  {
    ghost var w0, t0 := os.W(), os.trace;
    k := [];
    var tmp := Format(dst + ".tmp");
    var key := os.OpenWrite(tmp);
    if key.None? { return Error("could not open destination file"), k; }
    k := key.value;
    OpenedFacts(w0.fs, w0.cwd, tmp, s, k, os.proc);
    ghost var fs1 := os.fs;
    st := FillAndRename(os, dst, uid, gid, mode, s, key.value, tmp);
    OpenedFirst(t0, w0.fs, fs1, os.trace, os.fs, k);
    if st.Ok? {
      CopyDone(os.proc, w0, src, dst, uid, gid, mode, s, k, os.W());
    } else {
      CouldNotCopy(os.proc, w0, dst, src, uid, gid, mode, s, k);
    }
  }

  /** The entry fopen reached for the temporary file, if k is that. */
  function Opened(w: World, dst: string, k: Path): set<Path> {
    if Reach(w.fs, w.cwd, TempName(dst)) == Some(k) then {k} else {}
  }

  lemma OpenedIsTemp(w: World, dst: string, k: Path)
    requires PlainTemp(w, dst)
    ensures Opened(w, dst, k) <= TempSet(w, dst)
  {
    EntryAndReach(w.fs, w.cwd, TempName(dst));
  }

  /** If the copy was possible, so were the change of owner and the rename. */
  lemma CouldNotCopy(proc: Process, w: World, dst: string, src: string, uid: int, gid: int, mode: Mode, s: Path,
                     k: Path)
    requires IsFile(w.fs, s) && Reach(w.fs, w.cwd, TempName(dst)) == Some(k) && CanOpenWrite(w.fs, k)
    requires IsFile(OpenedForWrite(w.fs, k, proc), s)
    ensures CanCopy(proc, w, src, dst, uid) ==>
      OwnerAllowed(proc, uid)
      && Renamable(Filled(proc, OpenedForWrite(w.fs, k, proc), s, k, uid, gid, mode), w.cwd, TempName(dst), dst)
  {
    var ready := OpenedForWrite(w.fs, k, proc);
    OpenedFacts(w.fs, w.cwd, TempName(dst), s, k, proc);
    WriteKeepsNames(w.fs, k, ready[k], w.cwd, dst);
    FilledFacts(ready, w.cwd, TempName(dst), dst, k, Filled(proc, ready, s, k, uid, gid, mode)[k]);
  }

  /** The source leads to a file, the temporary name to a file or to a free place in a directory, and
      the destination is in a directory and not one itself. */
  predicate CopyOpen(w: World, src: string, dst: string) {
    var s, k, d := Stat(w.fs, w.cwd, src), Reach(w.fs, w.cwd, TempName(dst)), Entry(w.fs, w.cwd, dst);
    && s.Some? && s.value.File?
    && k.Some? && (if k.value in w.fs then w.fs[k.value].File? else k.value != [] && IsDir(w.fs, Parent(k.value)))
    && d.Some? && d.value != [] && IsDir(w.fs, Parent(d.value)) && !IsDir(w.fs, d.value)
  }

  /** On a system that refuses nothing such a copy succeeds if and only if the file is to be the
      process's own, or the process is the superuser. */
  lemma CopyAnswers(proc: Process, w: World, src: string, dst: string, uid: int, gid: int, mode: Mode,
                    w': World, st: Status)
    requires CopyStep(proc, w, src, dst, uid, gid, mode, w', st) && !proc.faulty && CopyOpen(w, src, dst)
    ensures st.Ok? <==> uid == proc.uid || proc.uid == 0
  {
    EntryAndReach(w.fs, w.cwd, TempName(dst));
  }

  /** What stands at the destination after a copy through a plain temporary name: a file with the mode
      asked for, the source's bytes unless the source was that temporary file, and another owner and
      group exactly as asked. */
  lemma CopyLeaves(proc: Process, w: World, src: string, dst: string, uid: int, gid: int, mode: Mode, w': World)
    requires CopyStep(proc, w, src, dst, uid, gid, mode, w', Ok) && PlainTemp(w, dst)
    ensures var s, k, d := Reach(w.fs, w.cwd, src), Reach(w.fs, w.cwd, TempName(dst)), Entry(w.fs, w.cwd, dst);
      && s.Some? && IsFile(w.fs, s.value) && d.Some? && IsFile(w'.fs, d.value)
      && w'.fs[d.value].mode == mode & 0xFFF
      && w'.fs[d.value].content == (if k == s then [] else w.fs[s.value].content)
      && (uid != proc.uid ==> w'.fs[d.value].uid == uid && w'.fs[d.value].gid == gid)
      && (uid == proc.uid && k.value !in w.fs ==> w'.fs[d.value].uid == uid && w'.fs[d.value].gid == proc.gid)
      && (k.value != d.value ==> k.value !in w'.fs)
  {
    EntryAndReach(w.fs, w.cwd, TempName(dst));
  }

  /** install_file_copy. */
  method InstallFileCopy(os: Os, src: string, dst: string, uid: int, gid: int, mode: Mode) returns (st: Status)
    modifies os`fs, os`trace, os`log
    ensures CopyStep(os.proc, old(os.W()), src, dst, uid, gid, mode, os.W(), st)
    ensures !os.proc.faulty && CopyOpen(old(os.W()), src, dst) ==> (st.Ok? <==> uid == os.proc.uid || os.proc.uid == 0)
    ensures st.Ok? && PlainTemp(old(os.W()), dst) && uid != os.proc.uid ==>
      var d := Entry(old(os.fs), os.cwd, dst);
      d.Some? && IsFile(os.fs, d.value) && os.fs[d.value].uid == uid && os.fs[d.value].gid == gid
    ensures old(os.trace) <= os.trace
    ensures PlainTemp(old(os.W()), dst) ==>
      AllOrNothing(os.trace, |old(os.trace)|, old(os.fs), os.fs, TempSet(old(os.W()), dst))
  {
    ghost var w0, t0 := os.W(), os.trace;
    var s := os.OpenRead(src);
    if s.None? {
      st := Error("could not open source file");
      CopyFailsEarly(os.proc, w0, src, dst, uid, gid, mode, st);
      return;
    }
    ghost var k;
    st, k := AttemptCopy(os, src, dst, uid, gid, mode, s.value);
    if !st.Ok? {
      ghost var mid, t1 := os.W(), os.trace;
      var unlinked := os.Unlink(Format(dst + ".tmp"));
      OneMoreSeen(t1, |t0|, w0.fs, mid.fs, os.fs, Opened(w0, dst, k));
      CopyFails(os.proc, w0, src, dst, uid, gid, mode, k, mid, os.W(), st);
      FailedSpares(os.proc, w0, dst, k, mid, os.W());
    }
    if PlainTemp(w0, dst) { OpenedIsTemp(w0, dst, k); }
    if !os.proc.faulty && CopyOpen(w0, src, dst) { CopyAnswers(os.proc, w0, src, dst, uid, gid, mode, os.W(), st); }
    if PlainTemp(w0, dst) && st.Ok? { CopyLeaves(os.proc, w0, src, dst, uid, gid, mode, os.W()); }
  }

  /** Neither the destination nor its temporary name exists. */
  predicate FreshNames(w: World, dst: string) {
    var d := Entry(w.fs, w.cwd, dst);
    d.Some? && d.value !in w.fs && forall t :: t in TempSet(w, dst) ==> t !in w.fs
  }

  /** What a completed copy to fresh names means: one new file with the source's bytes, the mode
      asked for, and the owner. */
  lemma FreshCopy(proc: Process, w: World, src: string, dst: string, uid: int, gid: int, mode: Mode)
    requires CanCopy(proc, w, src, dst, uid) && FreshNames(w, dst)
    ensures Stat(w.fs, w.cwd, src).Some? && Stat(w.fs, w.cwd, src).value.File?
    ensures Copied(proc, w, src, dst, uid, gid, mode) == w.fs[Entry(w.fs, w.cwd, dst).value :=
      File(Stat(w.fs, w.cwd, src).value.content, mode & 0xFFF, uid, if uid == proc.uid then proc.gid else gid)]
  {
    EntryAndReach(w.fs, w.cwd, TempName(dst));
  }

  /** A successful copy to fresh names. */
  lemma FreshCopyStep(proc: Process, w: World, src: string, dst: string, uid: int, gid: int, mode: Mode, w': World)
    requires CopyStep(proc, w, src, dst, uid, gid, mode, w', Ok) && WellFormed(w.fs)
    requires FreshNames(w, dst)
    ensures w'.cwd == w.cwd && WellFormed(w'.fs) && Entry(w.fs, w.cwd, dst).Some?
    ensures Stat(w.fs, w.cwd, src).Some? && Stat(w.fs, w.cwd, src).value.File?
    ensures w'.fs == w.fs[Entry(w.fs, w.cwd, dst).value :=
      File(Stat(w.fs, w.cwd, src).value.content, mode & 0xFFF, uid, if uid == proc.uid then proc.gid else gid)]
  {
    FreshCopy(proc, w, src, dst, uid, gid, mode);
  }
}
