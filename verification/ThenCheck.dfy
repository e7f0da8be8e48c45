/** Install, then check. */
module ThenCheck {
  import opened Options
  import opened Paths
  import opened FileSystem
  import opened Lookup
  import opened OperatingSystem
  import opened FileCopy
  import opened Translate
  import opened Operators
  import opened Engine
  import opened Footprint
  import opened InstallRuns

  /** The first item at or after j, and no later than i, whose installation brings item i's target:
      item i itself, or a directory item below it. */
  ghost function Maker(w0: World, ts: seq<Item>, i: nat, j: nat): (m: nat)
    requires j <= i < |ts| && forall x :: 0 <= x < |ts| ==> Ready(ts[x])
    ensures j <= m <= i && Brings(w0, ts[m], Target(w0, ts[i]))
    ensures forall x :: j <= x < m ==> !Brings(w0, ts[x], Target(w0, ts[i]))
    decreases i - j
  {
    if Brings(w0, ts[j], Target(w0, ts[i])) then j else Maker(w0, ts, i, j + 1)
  }

  /** What of an item's request survives, if its directory was made with the given permissions:
      permissions outside 0755 are never seen by the check, mkdir loses what the umask clears, and a
      group is set only together with another owner. */
  predicate Honoured(proc: Process, t: Item, made: Mode) {
    && (if t.op.Mkdir? then (made & 0x3FF & !proc.umask) & 0x1ED == t.perm else t.perm & 0x1ED == t.perm)
    && match Ids(proc, t.owner, t.group)
       case None => false
       case Some(id) => id.uid != proc.uid || id.gid == proc.gid
  }

  /** A directory that an earlier item needed on its way has that item's permissions. */
  ghost predicate HonouredAt(proc: Process, w0: World, ts: seq<Item>, i: nat)
    requires i < |ts| && forall x :: 0 <= x < |ts| ==> Ready(ts[x])
  {
    Honoured(proc, ts[i], ts[Maker(w0, ts, i, 0)].perm)
  }

  /** For a directory that is its own maker: the permissions asked for lie in 0755 and the umask
      clears none of them. */
  lemma OwnModeSeen(proc: Process, t: Item)
    requires t.op.Mkdir? && Ids(proc, t.owner, t.group).Some?
    ensures var id := Ids(proc, t.owner, t.group).value;
      Honoured(proc, t, t.perm) <==>
      t.perm & 0x1ED == t.perm && t.perm & proc.umask == 0 && (id.uid != proc.uid || id.gid == proc.gid)
  {
  }

  /** After an item every entry it brings is there. */
  lemma BroughtIsThere(proc: Process, ts: seq<Item>, ws: seq<World>, j: nat, n: nat, p: Path)
    requires Progress(proc, ts, ws) && j < n <= |ts| && Brings(ws[0], ts[j], p)
    ensures p in ws[n].fs
  {
    RunReaches(proc, ts, ws, n);
    assert Stands(ws[0], ts[j], ws[n].fs);
    if p != Target(ws[0], ts[j]) { AncestorsAreDirs(ws[n].fs, Target(ws[0], ts[j]), p); }
  }

  /** An entry that is no target so far was made with the permissions of the item that brought it. */
  lemma {:induction false} WayMade(proc: Process, ts: seq<Item>, ws: seq<World>, n: nat, p: Path, m: nat)
    requires Progress(proc, ts, ws) && m < n <= |ts| && Brings(ws[0], ts[m], p)
    requires forall j :: 0 <= j < m ==> !Brings(ws[0], ts[j], p)
    requires p !in ws[0].fs && forall j :: 0 <= j < n ==> p != Target(ws[0], ts[j])
    ensures p in ws[n].fs && ws[n].fs[p] == NewDir(proc, ts[m].perm)
    decreases n
  {
    BroughtIsThere(proc, ts, ws, m, n, p);
    RunReaches(proc, ts, ws, n - 1);
    if m < n - 1 {
      WayMade(proc, ts, ws, n - 1, p, m);
    } else if p in ws[m].fs {
      var j := BroughtBy(ws[0], ts, m, ws[m], p);
    }
  }

  /** A directory item leaves a directory with its maker's permissions and its own owner. */
  lemma DirDelivered(proc: Process, ts: seq<Item>, ws: seq<World>, i: nat)
    requires Progress(proc, ts, ws) && i < |ts| && ts[i].op.Mkdir? && Ids(proc, ts[i].owner, ts[i].group).Some?
    requires var k := Target(ws[0], ts[i]);
      Grew(proc, ws[i], ts[i], k, ws[i + 1]) && Delivered(proc, ws[i], ts[i], k, ws[i + 1])
    ensures var n := ws[i + 1].fs[Target(ws[0], ts[i])];
      && n.Dir? && n.mode == NewDir(proc, ts[Maker(ws[0], ts, i, 0)].perm).mode
      && OwnerOf(n) == InstalledOwner(proc, Ids(proc, ts[i].owner, ts[i].group).value)
  {
    var k, m := Target(ws[0], ts[i]), Maker(ws[0], ts, i, 0);
    assert GoodItem(ws[0], ts, i);
    if m < i {
      WayMade(proc, ts, ws, i, k, m);
    } else {
      RunReaches(proc, ts, ws, i);
      if k in ws[i].fs { var j := BroughtBy(ws[0], ts, i, ws[i], k); }
    }
  }

  lemma FileSeen(proc: Process, t: Item, n: Node, made: Mode)
    requires Ids(proc, t.owner, t.group).Some? && !t.op.Mkdir? && n.File? && n.mode == t.perm & 0xFFF
    requires OwnerOf(n) == InstalledOwner(proc, Ids(proc, t.owner, t.group).value)
    ensures HasModeAndOwner(n, t.perm, Ids(proc, t.owner, t.group).value) <==> Honoured(proc, t, made)
  {
  }

  /** A file or directory the path names is what stat finds. */
  lemma StatOfEntry(w: World, t: Item, k: Path)
    requires Ready(t) && Lands(w, t, k) && k in w.fs && !w.fs[k].Link?
    ensures Stat(w.fs, w.cwd, RemovedPath(t)) == Some(w.fs[k])
  {
    EntryAndReach(w.fs, w.cwd, RemovedPath(t));
  }

  /** The verdict on a file that is just as it was installed. */
  lemma FileVerdict(proc: Process, w: World, g: World, t: Item, k: Path, made: Mode)
    requires Ready(t) && IsCopy(t.op) && Ids(proc, t.owner, t.group).Some?
    requires Later(w.fs, g.fs) && g.cwd == w.cwd && Lands(g, t, k) && k in g.fs
    requires CopyOf(Stat(w.fs, w.cwd, t.src.value), g.fs[k], t.perm,
                    InstalledOwner(proc, Ids(proc, t.owner, t.group).value))
    ensures var id := Ids(proc, t.owner, t.group).value;
      CheckPasses(proc, g.fs, g.cwd, t.src.value, t.perm, TypeFile, id, t.dst.value) <==> Honoured(proc, t, made)
  {
    StatFileLater(w.fs, g.fs, w.cwd, t.src.value);
    StatOfEntry(g, t, k);
    FileSeen(proc, t, g.fs[k], made);
  }

  lemma DirVerdict(proc: Process, g: World, t: Item, k: Path, made: Mode)
    requires Ready(t) && t.op.Mkdir? && Ids(proc, t.owner, t.group).Some? && Lands(g, t, k)
    requires IsDir(g.fs, k) && g.fs[k].mode == NewDir(proc, made).mode
    requires OwnerOf(g.fs[k]) == InstalledOwner(proc, Ids(proc, t.owner, t.group).value)
    ensures var id := Ids(proc, t.owner, t.group).value;
      CheckPasses(proc, g.fs, g.cwd, t.dir.value, t.perm, TypeDirectory, id, t.dir.value) <==> Honoured(proc, t, made)
  {
    StatOfEntry(g, t, k);
  }

  /** The verdict on item i, in terms of what its installation left. */
  lemma VerdictOn(cfg: Config, proc: Process, items: seq<Item>, ts: seq<Item>, ws: seq<World>, i: nat)
    requires CleanRun(cfg, proc, items, ts, ws) && GoodList(ws[0], ts)
    requires i < |ts| && !IsLink(ts[i].op)
    ensures Ids(proc, ts[i].owner, ts[i].group).Some?
    ensures var g, id := ws[|ts|], Ids(proc, ts[i].owner, ts[i].group).value;
      CheckPasses(proc, g.fs, g.cwd, CheckedSource(ts[i]), ts[i].perm, CheckedType(ts[i].op), id, CheckedPath(ts[i]))
      <==> HonouredAt(proc, ws[0], ts, i)
  {
    var k, made := Target(ws[0], ts[i]), ts[Maker(ws[0], ts, i, 0)].perm;
    CleanRunProgresses(cfg, proc, items, ts, ws);
    RunReaches(proc, ts, ws, i);
    RunReaches(proc, ts, ws, |ts|);
    assert CleanAt(cfg, proc, items, ts, ws, i);
    CleanStepGrows(cfg, proc, ws[0], ts, i, items[i], ws[i], ws[i + 1]);
    TargetStays(proc, ts, ws, i);
    if ts[i].op.Mkdir? {
      DirDelivered(proc, ts, ws, i);
      DirVerdict(proc, ws[|ts|], ts[i], k, made);
    } else {
      RunOnlyAdds(proc, ts, ws, i, |ts|);
      FileVerdict(proc, ws[i], ws[|ts|], ts[i], k, made);
    }
  }

  /** The check of one item after the run. */
  lemma CheckOf(cfg: Config, proc: Process, items: seq<Item>, ts: seq<Item>, ws: seq<World>,
                csts: seq<Status>, counted: seq<bool>, i: nat)
    requires CleanRun(cfg, proc, items, ts, ws) && GoodList(ws[0], ts)
    requires CheckRun(cfg, proc, items, ws[|items|], csts, counted)
    requires i < |ts| && !IsLink(ts[i].op)
    ensures csts[i].Ok? <==> HonouredAt(proc, ws[0], ts, i)
    ensures counted[i] <==> !HonouredAt(proc, ws[0], ts, i)
  {
    CleanRunProgresses(cfg, proc, items, ts, ws);
    assert CleanAt(cfg, proc, items, ts, ws, i);
    RunReaches(proc, ts, ws, i);
    RunReaches(proc, ts, ws, |ts|);
    RunOnlyAdds(proc, ts, ws, i, |ts|);
    TranslationLater(cfg, ws[i].fs, ws[|ts|].fs, ws[0].cwd, items[i]);
    VerdictOn(cfg, proc, items, ts, ws, i);
    assert CheckAt(cfg, proc, items, ws[|ts|], csts, counted, i);
  }

  /** An all-OK install, then a check of the same list: the check passes exactly the files and
      directories whose request install was able to honour, and counts the others. */
  lemma InstallThenCheck(cfg: Config, proc: Process, items: seq<Item>, ts: seq<Item>, ws: seq<World>,
                         sts: seq<Status>, csts: seq<Status>, counted: seq<bool>)
    requires InstallRun(cfg, proc, items, false, ws, sts) && AllOk(sts) && WellFormed(ws[0].fs)
    requires AsTranslated(cfg, items, ws, ts) && NoMkdirFailed(ws, ts) && GoodList(ws[0], ts)
    requires CheckRun(cfg, proc, items, ws[|items|], csts, counted)
    ensures forall i :: 0 <= i < |items| && !IsLink(ts[i].op) ==>
      && (csts[i].Ok? <==> HonouredAt(proc, ws[0], ts, i))
      && (counted[i] <==> !HonouredAt(proc, ws[0], ts, i))
    ensures (forall i :: 0 <= i < |items| ==> !IsLink(ts[i].op)) ==>
      (true !in counted <==> forall i :: 0 <= i < |items| ==> HonouredAt(proc, ws[0], ts, i))
  {
    CleanFromRun(cfg, proc, items, ts, ws, sts);
    forall i | 0 <= i < |items| && !IsLink(ts[i].op)
      ensures csts[i].Ok? <==> HonouredAt(proc, ws[0], ts, i)
      ensures counted[i] <==> !HonouredAt(proc, ws[0], ts, i)
    {
      CheckOf(cfg, proc, items, ts, ws, csts, counted, i);
    }
  }
}
