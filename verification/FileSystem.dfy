/** The file system as a map from entries to nodes, and what the system calls used by the
    installer do to it when they succeed. */
module FileSystem {
  import opened Options
  import opened Paths

  type Byte = b: int | 0 <= b < 256

  /** Permission bits. */
  type Mode = bv32

  datatype Node =
    | File(content: seq<Byte>, mode: Mode, uid: int, gid: int)
    | Dir(mode: Mode, uid: int, gid: int)
    | Link(target: string)

  type Fs = map<Path, Node>

  /** What a process carries: identity, umask, the account databases, the size stat reports for
      a directory, platform->supports_symlinks, and whether the system may refuse a call whose
      stated conditions hold. */
  datatype Process = Process(uid: int, gid: int, umask: Mode,
                             users: map<string, int>, groups: map<string, int>,
                             dirSize: nat, symlinks: bool, faulty: bool)

  /** State visible to the installer; log holds the path string of every successful change. */
  datatype World = World(fs: Fs, cwd: Path, log: seq<string>)

  function Parent(p: Path): Path {
    if p == [] then [] else p[..|p| - 1]
  }

  predicate IsDir(fs: Fs, p: Path) {
    p in fs && fs[p].Dir?
  }

  predicate IsFile(fs: Fs, p: Path) {
    p in fs && fs[p].File?
  }

  predicate IsSymlink(fs: Fs, p: Path) {
    p in fs && fs[p].Link?
  }

  function At(fs: Fs, p: Path): Option<Node> {
    if p in fs then Some(fs[p]) else None
  }

  ghost predicate WellFormed(fs: Fs) {
    IsDir(fs, []) && forall p {:trigger Parent(p)} :: p in fs && p != [] ==> IsDir(fs, Parent(p))
  }

  /** Everything on the way to an existing entry is a directory. */
  lemma {:induction false} AncestorsAreDirs(fs: Fs, p: Path, a: Path)
    requires WellFormed(fs) && p in fs && a < p
    ensures IsDir(fs, a)
    decreases |p|
  {
    var q := Parent(p);
    assert IsDir(fs, q);
    if a != q {
      assert a < q by { assert q[..|a|] == p[..|a|]; }
      AncestorsAreDirs(fs, q, a);
    }
  }

  predicate CanCreate(fs: Fs, p: Path) {
    p !in fs && p != [] && IsDir(fs, Parent(p))
  }

  predicate CanOpenWrite(fs: Fs, p: Path) {
    IsFile(fs, p) || CanCreate(fs, p)
  }

  /** fopen (.., "wb"): truncate, or create with the process's identity. */
  function OpenedForWrite(fs: Fs, p: Path, proc: Process): Fs
    requires CanOpenWrite(fs, p)
  {
    if p in fs then fs[p := fs[p].(content := [])]
    else fs[p := File([], 0x1B6 & !proc.umask, proc.uid, proc.gid)]
  }

  predicate CanUnlink(fs: Fs, p: Path) {
    p in fs && !fs[p].Dir?
  }

  ghost predicate HasDescendant(fs: Fs, p: Path) {
    exists q :: q in fs && p < q
  }

  ghost predicate CanRmdir(fs: Fs, p: Path) {
    p != [] && IsDir(fs, p) && !HasDescendant(fs, p)
  }

  predicate CanRename(fs: Fs, from: Path, to: Path) {
    CanUnlink(fs, from) && to != [] && IsDir(fs, Parent(to)) && !IsDir(fs, to)
  }

  function Renamed(fs: Fs, from: Path, to: Path): Fs
    requires from in fs
  {
    if from == to then fs else (fs - {from})[to := fs[from]]
  }

  function Owned(n: Node, uid: int, gid: int): Node {
    match n
    case File(c, m, _, _) => File(c, m, uid, gid)
    case Dir(m, _, _) => Dir(m, uid, gid)
    case Link(_) => n
  }

  /** The directory node mkdir (.., perm) leaves. */
  function NewDir(proc: Process, perm: Mode): Node {
    Dir(perm & 0x3FF & !proc.umask, proc.uid, proc.gid)
  }

  /** Every string logged after the first world satisfies the test. */
  ghost predicate LoggedOnly(before: seq<string>, after: seq<string>, ok: string -> bool) {
    before <= after && forall i :: |before| <= i < |after| ==> ok(after[i])
  }

  ghost predicate AgreeExcept(f: Fs, g: Fs, keys: set<Path>) {
    forall p :: p !in keys ==> At(f, p) == At(g, p)
  }

  ghost predicate Preserves(f: Fs, g: Fs) {
    forall p :: p in f ==> p in g && g[p] == f[p]
  }

  lemma WellFormedAfterCreate(fs: Fs, p: Path, n: Node)
    requires WellFormed(fs) && CanCreate(fs, p)
    ensures WellFormed(fs[p := n])
  {
  }

  /** Replacing a node by one of the same kind, or a file or link by either, keeps the tree. */
  lemma WellFormedAfterUpdate(fs: Fs, p: Path, n: Node)
    requires WellFormed(fs) && p in fs && (fs[p].Dir? ==> n.Dir?)
    ensures WellFormed(fs[p := n])
  {
  }

  lemma WellFormedAfterRemove(fs: Fs, p: Path)
    requires WellFormed(fs) && p in fs && p != []
    requires !fs[p].Dir? || !HasDescendant(fs, p)
    ensures WellFormed(fs - {p})
  {
  }
}
