/** Pathname resolution as in IEEE Std 1003.1, section 4.13: a symbolic link is followed wherever it
    stands, except as the last name where a call looks at the entry itself, and ".." is the parent of
    the directory the walk has reached. */
module Lookup {
  import opened Options
  import opened Paths
  import opened FileSystem

  const SYMLOOP_MAX: nat := 40

  /** How far a walk has come: the entry, the links it may still follow, and whether every name so
      far was looked up in a directory that is there. */
  datatype Spot = Spot(path: Path, hops: nat, sure: bool)

  /** The walk.  It goes on through entries that are not there, remembering that in the flag: what
      it finds is where the path will lead once they are made.  None is ELOOP, or an empty link. */
  function Look(fs: Fs, at: Spot, names: seq<string>, last: bool): Option<Spot>
    decreases at.hops, |names|
  {
    if names == [] then Some(at)
    else
      var q := Enter(at.path, names[0]);
      var sure := at.sure && IsDir(fs, at.path);
      if IsSymlink(fs, q) && (|names| > 1 || last) then
        var target := fs[q].target;
        if at.hops == 0 || target == "" then None
        else Look(fs, Spot(Start(at.path, target), at.hops - 1, sure), Components(target) + names[1..], last)
      else Look(fs, Spot(q, at.hops, sure), names[1..], last)
  }

  /** The entries a walk looks at to see whether they are links to follow. */
  function Passed(fs: Fs, at: Spot, names: seq<string>, last: bool): set<Path>
    decreases at.hops, |names|
  {
    if names == [] then {}
    else
      var q := Enter(at.path, names[0]);
      if |names| > 1 || last then
        if IsSymlink(fs, q) then
          var target := fs[q].target;
          if at.hops == 0 || target == "" then {q}
          else {q}
               + Passed(fs, Spot(Start(at.path, target), at.hops - 1, at.sure), Components(target) + names[1..], last)
        else {q} + Passed(fs, Spot(q, at.hops, at.sure), names[1..], last)
      else {}
  }

  function From(cwd: Path, s: string): Spot {
    Spot(Start(cwd, s), SYMLOOP_MAX, true)
  }

  /** The entry a path string names, a link itself if it names one; the empty string names none. */
  function Entry(fs: Fs, cwd: Path, s: string): Option<Path> {
    var r := Look(fs, From(cwd, s), Components(s), false);
    if s != "" && r.Some? && r.value.sure then Some(r.value.path) else None
  }

  /** The entry a path string leads to, through a link if it names one. */
  function Reach(fs: Fs, cwd: Path, s: string): Option<Path> {
    var r := Look(fs, From(cwd, s), Components(s), true);
    if s != "" && r.Some? && r.value.sure then Some(r.value.path) else None
  }

  predicate Creatable(fs: Fs, cwd: Path, s: string) {
    var k := Entry(fs, cwd, s);
    k.Some? && CanCreate(fs, k.value)
  }

  predicate Unlinkable(fs: Fs, cwd: Path, s: string) {
    var k := Entry(fs, cwd, s);
    k.Some? && CanUnlink(fs, k.value)
  }

  ghost predicate Rmdirable(fs: Fs, cwd: Path, s: string) {
    var k := Entry(fs, cwd, s);
    k.Some? && CanRmdir(fs, k.value)
  }

  predicate Renamable(fs: Fs, cwd: Path, from: string, to: string) {
    var t, d := Entry(fs, cwd, from), Entry(fs, cwd, to);
    t.Some? && d.Some? && CanRename(fs, t.value, d.value)
  }

  /** fopen (s, "wb") follows a link at the end, even to a file that is not there yet. */
  predicate Writable(fs: Fs, cwd: Path, s: string) {
    var k := Reach(fs, cwd, s);
    k.Some? && CanOpenWrite(fs, k.value)
  }

  /** What chdir needs. */
  predicate LeadsToDir(fs: Fs, cwd: Path, s: string) {
    var k := Reach(fs, cwd, s);
    k.Some? && IsDir(fs, k.value)
  }

  /** From a position on, a path has no ".."; what comes before it, up to a slash, leads to a directory. */
  predicate DownFrom(fs: Fs, cwd: Path, dir: string, from: nat) {
    && from <= |dir| && NoParentSteps(dir[from..])
    && (from > 0 ==> dir[from - 1] == '/' && LeadsToDir(fs, cwd, dir[..from]))
  }

  /** A path goes up, if at all, only in a part that already leads to a directory. */
  ghost predicate Downward(fs: Fs, cwd: Path, dir: string) {
    exists from: nat :: DownFrom(fs, cwd, dir, from)
  }

  /** stat: the node a path string leads to. */
  function Stat(fs: Fs, cwd: Path, s: string): Option<Node> {
    var k := Reach(fs, cwd, s);
    if k.Some? then At(fs, k.value) else None
  }

  /** Where an entry of that name will stand once the directories on its way are made. */
  function Place(fs: Fs, cwd: Path, s: string): Option<Path> {
    var r := Look(fs, From(cwd, s), Components(s), false);
    if s != "" && r.Some? then Some(r.value.path) else None
  }

  /** g holds everything f holds; only the owner of a directory may differ. */
  ghost predicate Later(f: Fs, g: Fs) {
    forall p :: p in f ==> p in g && (g[p] == f[p] || (f[p].Dir? && g[p].Dir? && g[p].mode == f[p].mode))
  }

  /** Every directory, and every link but those, is as it was; and every file but those is one. */
  ghost predicate Spares(f: Fs, g: Fs, but: set<Path>) {
    && (forall p :: IsDir(f, p) || (IsSymlink(f, p) && p !in but) ==> p in g && g[p] == f[p])
    && forall p :: IsFile(f, p) && p !in but ==> IsFile(g, p)
  }

  lemma LaterTransitive(f: Fs, g: Fs, h: Fs)
    requires Later(f, g) && Later(g, h)
    ensures Later(f, h)
  {
  }

  // ---- one walk

  /** Walking two lists of names is walking the second from where the first one leads. */
  lemma {:induction false} LookJoin(fs: Fs, at: Spot, a: seq<string>, b: seq<string>, last: bool)
    requires b != []
    ensures Look(fs, at, a + b, last) ==
            match Look(fs, at, a, true) case None => None case Some(x) => Look(fs, x, b, last)
    decreases at.hops, |a|
  {
    if a == [] {
      assert a + b == b;
    } else {
      var q := Enter(at.path, a[0]);
      var sure := at.sure && IsDir(fs, at.path);
      assert (a + b)[1..] == a[1..] + b;
      if IsSymlink(fs, q) {
        var target := fs[q].target;
        if at.hops > 0 && target != "" {
          assert Components(target) + (a[1..] + b) == Components(target) + a[1..] + b;
          LookJoin(fs, Spot(Start(at.path, target), at.hops - 1, sure), Components(target) + a[1..], b, last);
        }
      } else {
        LookJoin(fs, Spot(q, at.hops, sure), a[1..], b, last);
      }
    }
  }

  /** Links are only ever used up, and a directory that was missing stays missed. */
  lemma {:induction false} LookBack(fs: Fs, at: Spot, names: seq<string>, last: bool)
    ensures var r := Look(fs, at, names, last);
      r.Some? ==>
        && r.value.hops <= at.hops && (r.value.sure ==> at.sure)
        && (r.value.sure && names != [] ==> IsDir(fs, at.path))
    decreases at.hops, |names|
  {
    if names != [] {
      var q := Enter(at.path, names[0]);
      var sure := at.sure && IsDir(fs, at.path);
      if IsSymlink(fs, q) && (|names| > 1 || last) {
        var target := fs[q].target;
        if at.hops > 0 && target != "" {
          LookBack(fs, Spot(Start(at.path, target), at.hops - 1, sure), Components(target) + names[1..], last);
        }
      } else {
        LookBack(fs, Spot(q, at.hops, sure), names[1..], last);
      }
    }
  }

  /** With more links to spare a walk that succeeded goes the same way. */
  lemma {:induction false} LookMoreHops(fs: Fs, at: Spot, names: seq<string>, last: bool, more: nat)
    requires Look(fs, at, names, last).Some?
    ensures var x := Look(fs, at, names, last).value;
      Look(fs, at.(hops := at.hops + more), names, last) == Some(x.(hops := x.hops + more))
    decreases at.hops, |names|
  {
    if names != [] {
      var q := Enter(at.path, names[0]);
      var sure := at.sure && IsDir(fs, at.path);
      if IsSymlink(fs, q) && (|names| > 1 || last) {
        var target := fs[q].target;
        LookMoreHops(fs, Spot(Start(at.path, target), at.hops - 1, sure), Components(target) + names[1..], last, more);
      } else {
        LookMoreHops(fs, Spot(q, at.hops, sure), names[1..], last, more);
      }
    }
  }

  /** Following the last name or not makes a difference only when it names a link. */
  lemma {:induction false} LookLast(fs: Fs, at: Spot, names: seq<string>)
    ensures var x, y := Look(fs, at, names, false), Look(fs, at, names, true);
      && (y.Some? ==> x.Some? && (y.value.sure ==> x.value.sure) && (x == y || IsSymlink(fs, x.value.path)))
      && (x.Some? && !IsSymlink(fs, x.value.path) ==> y == x)
    decreases at.hops, |names|
  {
    if names != [] {
      var q := Enter(at.path, names[0]);
      var sure := at.sure && IsDir(fs, at.path);
      if IsSymlink(fs, q) {
        var target := fs[q].target;
        if at.hops > 0 && target != "" {
          var next := Spot(Start(at.path, target), at.hops - 1, sure);
          if |names| > 1 {
            LookLast(fs, next, Components(target) + names[1..]);
          } else {
            LookBack(fs, next, Components(target) + names[1..], true);
          }
        }
      } else {
        LookLast(fs, Spot(q, at.hops, sure), names[1..]);
      }
    }
  }

  /** A walk down names without ".." that meets no link stays below where it began. */
  lemma {:induction false} LookDescends(fs: Fs, at: Spot, names: seq<string>, last: bool)
    requires ".." !in names && Look(fs, at, names, last).Some?
    requires forall q :: q in Passed(fs, at, names, last) ==> !IsSymlink(fs, q)
    ensures at.path <= Look(fs, at, names, last).value.path
    decreases |names|
  {
    if names != [] {
      var q := Enter(at.path, names[0]);
      var next := Spot(q, at.hops, at.sure && IsDir(fs, at.path));
      if |names| > 1 || last { assert q in Passed(fs, at, names, last); }
      PassedFlag(fs, next, at.sure, names[1..], last);
      LookDescends(fs, next, names[1..], last);
    }
  }

  /** The same where no link stands anywhere below. */
  lemma {:induction false} LookStaysBelow(fs: Fs, at: Spot, names: seq<string>, last: bool, top: Path)
    requires ".." !in names && Look(fs, at, names, last).Some? && top <= at.path
    requires forall q :: top <= q && q in fs ==> !fs[q].Link?
    ensures top <= Look(fs, at, names, last).value.path
    decreases |names|
  {
    if names != [] {
      LookStaysBelow(fs, Spot(Enter(at.path, names[0]), at.hops, at.sure && IsDir(fs, at.path)), names[1..], last, top);
    }
  }

  /** Going on from an entry below which there is no link. */
  lemma GoesOnBelow(fs: Fs, at: Spot, a: seq<string>, b: seq<string>, p: Path)
    requires Look(fs, at, a, false).Some? && Look(fs, at, a, false).value.path == p
    requires ".." !in b && Look(fs, at, a + b, false).Some?
    requires forall q :: p <= q && q in fs ==> !fs[q].Link?
    ensures p <= Look(fs, at, a + b, false).value.path
  {
    if b == [] {
      assert a + b == a;
    } else {
      LookJoin(fs, at, a, b, false);
      LookLast(fs, at, a);
      LookStaysBelow(fs, Look(fs, at, a, true).value, b, false, p);
    }
  }

  lemma {:induction false} PassedFlag(fs: Fs, at: Spot, flag: bool, names: seq<string>, last: bool)
    ensures Passed(fs, at.(sure := flag), names, last) == Passed(fs, at, names, last)
    decreases at.hops, |names|
  {
    if names != [] && (|names| > 1 || last) {
      var q := Enter(at.path, names[0]);
      if IsSymlink(fs, q) {
        var target := fs[q].target;
        if at.hops > 0 && target != "" {
          var next := Spot(Start(at.path, target), at.hops - 1, at.sure);
          PassedFlag(fs, next, flag, Components(target) + names[1..], last);
        }
      } else {
        PassedFlag(fs, Spot(q, at.hops, at.sure), flag, names[1..], last);
      }
    }
  }

  // ---- the same walk in two file systems

  /** A walk that found every directory finds the same later, if what it ended on was there or is
      not looked at. */
  lemma {:induction false} LookLater(f: Fs, g: Fs, at: Spot, names: seq<string>, last: bool)
    requires Later(f, g) && Look(f, at, names, last).Some? && Look(f, at, names, last).value.sure
    requires last ==> Look(f, at, names, last).value.path in f
    ensures Look(g, at, names, last) == Look(f, at, names, last)
    decreases at.hops, |names|
  {
    if names != [] {
      LookBack(f, at, names, last);
      var q := Enter(at.path, names[0]);
      var sure := at.sure && IsDir(f, at.path);
      if IsSymlink(f, q) && (|names| > 1 || last) {
        var target := f[q].target;
        LookLater(f, g, Spot(Start(at.path, target), at.hops - 1, sure), Components(target) + names[1..], last);
      } else {
        LookBack(f, Spot(q, at.hops, sure), names[1..], last);
        LookLater(f, g, Spot(q, at.hops, sure), names[1..], last);
      }
    }
  }

  /** No entry the walk passes has become a link. */
  ghost predicate Undiverted(f: Fs, g: Fs, at: Spot, names: seq<string>, last: bool) {
    forall q :: q in Passed(f, at, names, last) && q !in f ==> !IsSymlink(g, q)
  }

  /** Until a new link gets in its way, a walk ends at the same entry, whatever else is made. */
  lemma {:induction false} LookStable(f: Fs, g: Fs, at: Spot, at': Spot, names: seq<string>, last: bool)
    requires Later(f, g) && Undiverted(f, g, at, names, last)
    requires at'.path == at.path && at'.hops == at.hops && (at.sure ==> at'.sure)
    ensures var x, y := Look(f, at, names, last), Look(g, at', names, last);
      && (x.Some? <==> y.Some?)
      && (x.Some? ==> y.value.path == x.value.path && y.value.hops == x.value.hops && (x.value.sure ==> y.value.sure))
    decreases at.hops, |names|
  {
    if names != [] {
      var q := Enter(at.path, names[0]);
      var sure, sure' := at.sure && IsDir(f, at.path), at'.sure && IsDir(g, at.path);
      if |names| > 1 || last { assert q in Passed(f, at, names, last); }
      if IsSymlink(f, q) && (|names| > 1 || last) {
        var target := f[q].target;
        if at.hops > 0 && target != "" {
          var next := Spot(Start(at.path, target), at.hops - 1, sure);
          PassedFlag(f, next, at.sure, Components(target) + names[1..], last);
          LookStable(f, g, next, next.(sure := sure'), Components(target) + names[1..], last);
        }
      } else {
        var next := Spot(q, at.hops, sure);
        PassedFlag(f, next, at.sure, names[1..], last);
        LookStable(f, g, next, next.(sure := sure'), names[1..], last);
      }
    }
  }

  /** The same directories and the same links. */
  ghost predicate SameShape(f: Fs, g: Fs) {
    forall p ::
      && (IsDir(f, p) <==> IsDir(g, p))
      && (IsSymlink(f, p) <==> IsSymlink(g, p)) && (IsSymlink(f, p) ==> g[p] == f[p])
  }

  lemma {:induction false} LookSame(f: Fs, g: Fs, at: Spot, names: seq<string>, last: bool)
    requires SameShape(f, g)
    ensures Look(g, at, names, last) == Look(f, at, names, last)
    decreases at.hops, |names|
  {
    if names != [] {
      var q := Enter(at.path, names[0]);
      var sure := at.sure && IsDir(f, at.path);
      if IsSymlink(f, q) && (|names| > 1 || last) {
        var target := f[q].target;
        if at.hops > 0 && target != "" {
          LookSame(f, g, Spot(Start(at.path, target), at.hops - 1, sure), Components(target) + names[1..], last);
        }
      } else {
        LookSame(f, g, Spot(q, at.hops, sure), names[1..], last);
      }
    }
  }

  lemma SameShapeLooksSame(f: Fs, g: Fs, cwd: Path, s: string)
    requires SameShape(f, g)
    ensures Entry(g, cwd, s) == Entry(f, cwd, s) && Reach(g, cwd, s) == Reach(f, cwd, s)
      && Place(g, cwd, s) == Place(f, cwd, s)
  {
    LookSame(f, g, From(cwd, s), Components(s), false);
    LookSame(f, g, From(cwd, s), Components(s), true);
  }

  // ---- in terms of path strings

  lemma EntryLater(f: Fs, g: Fs, cwd: Path, s: string)
    requires Later(f, g) && Entry(f, cwd, s).Some?
    ensures Entry(g, cwd, s) == Entry(f, cwd, s)
  {
    LookLater(f, g, From(cwd, s), Components(s), false);
  }

  lemma ReachLater(f: Fs, g: Fs, cwd: Path, s: string)
    requires Later(f, g) && Reach(f, cwd, s).Some? && Reach(f, cwd, s).value in f
    ensures Reach(g, cwd, s) == Reach(f, cwd, s)
  {
    LookLater(f, g, From(cwd, s), Components(s), true);
  }

  /** What is named is where the name leads, unless it is a link; and what is reached is named. */
  lemma EntryAndReach(fs: Fs, cwd: Path, s: string)
    ensures Entry(fs, cwd, s).Some? && !IsSymlink(fs, Entry(fs, cwd, s).value) ==>
      Reach(fs, cwd, s) == Entry(fs, cwd, s)
    ensures Reach(fs, cwd, s).Some? ==>
      && Entry(fs, cwd, s).Some?
      && (Reach(fs, cwd, s) == Entry(fs, cwd, s) || IsSymlink(fs, Entry(fs, cwd, s).value))
  {
    LookLast(fs, From(cwd, s), Components(s));
  }

  /** "a/b" is b looked up from where a leads; the two together may follow SYMLOOP_MAX links. */
  lemma EntryJoin(fs: Fs, cwd: Path, a: string, b: string)
    requires a != "" && Components(b) != []
    ensures Entry(fs, cwd, a + "/" + b).Some? ==>
      && Reach(fs, cwd, a).Some? && IsDir(fs, Reach(fs, cwd, a).value)
      && Look(fs, Spot(Reach(fs, cwd, a).value, SYMLOOP_MAX, true), Components(b), false).Some?
      && Look(fs, Spot(Reach(fs, cwd, a).value, SYMLOOP_MAX, true), Components(b), false).value.path
         == Entry(fs, cwd, a + "/" + b).value
  {
    var s, at := a + "/" + b, From(cwd, a);
    ComponentsJoin(a, b);
    assert From(cwd, s) == at;
    LookJoin(fs, at, Components(a), Components(b), false);
    if Entry(fs, cwd, s).Some? {
      var x := Look(fs, at, Components(a), true).value;
      LookBack(fs, x, Components(b), false);
      LookBack(fs, at, Components(a), true);
      assert x == Spot(x.path, x.hops, true);
      LookMoreHops(fs, x, Components(b), false, SYMLOOP_MAX - x.hops);
    }
  }

  // ---- longer paths

  /** A walk that ends at a directory, all the way along directories. */
  predicate LeadsAlong(fs: Fs, at: Spot, names: seq<string>) {
    var y := Look(fs, at, names, true);
    y.Some? && y.value.sure && IsDir(fs, y.value.path)
  }

  /** Beyond a walk that does not lead to a directory nothing is found. */
  lemma NothingBeyond(fs: Fs, at: Spot, a: seq<string>, b: seq<string>, last: bool)
    requires b != [] && Look(fs, at, a + b, last).Some? && Look(fs, at, a + b, last).value.sure
    ensures LeadsAlong(fs, at, a)
  {
    LookJoin(fs, at, a, b, last);
    LookBack(fs, Look(fs, at, a, true).value, b, last);
  }

  /** c is the path a with more after it. */
  predicate Through(a: string, c: string) {
    |a| < |c| && c[..|a|] == a && c[|a|] == '/'
  }

  lemma ThroughIsJoin(cwd: Path, a: string, c: string)
    requires Through(a, c)
    ensures Components(c) == Components(a) + Components(c[|a| + 1..]) && From(cwd, c) == From(cwd, a + "/")
  {
    assert c == a + "/" + c[|a| + 1..];
    ComponentsJoin(a, c[|a| + 1..]);
  }

  /** A prefix of a path that leads to a directory leads to one. */
  lemma PrefixLeads(fs: Fs, cwd: Path, p: string, a: string)
    requires LeadsToDir(fs, cwd, a) && Through(p, a)
    ensures LeadsToDir(fs, cwd, p + "/")
  {
    ComponentsSlash(p);
    ThroughIsJoin(cwd, p, a);
    var b := Components(a[|p| + 1..]);
    if b == [] {
      assert Components(a) == Components(p);
    } else {
      NothingBeyond(fs, From(cwd, p + "/"), Components(p), b, true);
    }
  }

  lemma LeadsLater(f: Fs, g: Fs, cwd: Path, s: string)
    requires Later(f, g) && LeadsToDir(f, cwd, s)
    ensures LeadsToDir(g, cwd, s) && Reach(g, cwd, s) == Reach(f, cwd, s)
  {
    ReachLater(f, g, cwd, s);
  }

  lemma DownwardLater(f: Fs, g: Fs, cwd: Path, dir: string)
    requires Later(f, g) && Downward(f, cwd, dir)
    ensures Downward(g, cwd, dir)
  {
    var from: nat :| DownFrom(f, cwd, dir, from);
    if from > 0 { LeadsLater(f, g, cwd, dir[..from]); }
    assert DownFrom(g, cwd, dir, from);
  }

  /** The rest of a path after a later slash has no ".." either. */
  lemma RestGoesDown(dir: string, from: nat, at: nat)
    requires from <= at < |dir| && dir[at] == '/' && NoParentSteps(dir[from..])
    ensures NoParentSteps(dir[at + 1..])
  {
    assert dir[from..] == dir[from..at] + "/" + dir[at + 1..];
    ComponentsJoin(dir[from..at], dir[at + 1..]);
  }
}
