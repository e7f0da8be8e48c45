/** Whole runs of the installer in which every item is installed: what accumulates, and what is
    never touched again. */
module InstallRuns {
  import opened Options
  import opened Paths
  import opened FileSystem
  import opened Lookup
  import opened OperatingSystem
  import opened FileCopy
  import opened Names
  import opened Translate
  import opened Operators
  import opened Engine
  import opened Footprint

  /** A file found by name is found again later, the same. */
  lemma StatFileLater(f: Fs, g: Fs, cwd: Path, s: string)
    requires Later(f, g) && Stat(f, cwd, s).Some? && Stat(f, cwd, s).value.File?
    ensures Stat(g, cwd, s) == Stat(f, cwd, s)
  {
    ReachLater(f, g, cwd, s);
  }

  lemma RealNameLater(f: Fs, g: Fs, cwd: Path, s: string)
    requires Later(f, g) && RealName(f, cwd, s).Some?
    ensures RealName(g, cwd, s) == RealName(f, cwd, s)
  {
    if StrEnds(s, ".vlb") { ReachLater(f, g, cwd, s); }
  }

  lemma CopyItemLater(cfg: Config, f: Fs, g: Fs, cwd: Path, it: Item)
    requires Later(f, g) && CopyItem(cfg, f, cwd, it).Success?
    ensures CopyItem(cfg, g, cwd, it) == CopyItem(cfg, f, cwd, it)
  {
    RealNameLater(f, g, cwd, it.src.value);
    RealNameLater(f, g, cwd, if it.dst.Some? then it.dst.value else it.src.value);
  }

  lemma LibLinkItemLater(cfg: Config, f: Fs, g: Fs, cwd: Path, it: Item)
    requires Later(f, g) && LibLinkItem(cfg, f, cwd, it).Success?
    ensures LibLinkItem(cfg, g, cwd, it) == LibLinkItem(cfg, f, cwd, it)
  {
    RealNameLater(f, g, cwd, it.src.value);
  }

  /** A translation that succeeded gives the same item in any later state. */
  lemma TranslationLater(cfg: Config, f: Fs, g: Fs, cwd: Path, it: Item)
    requires Sane(it) && Later(f, g) && Translated(cfg, f, cwd, it).Success?
    ensures Translated(cfg, g, cwd, it) == Translated(cfg, f, cwd, it)
  {
    match it.op
    case Copy => CopyItemLater(cfg, f, g, cwd, it);
    case CopyExec => CopyItemLater(cfg, f, g, cwd, it);
    case Symlink =>
    case Mkdir =>
    case LibLink => LibLinkItemLater(cfg, f, g, cwd, it);
  }

  ghost predicate AllOk(sts: seq<Status>) {
    forall i :: 0 <= i < |sts| ==> sts[i].Ok?
  }

  /** mkdir did not fail: the path of a directory item names a directory afterwards. */
  predicate Made(w': World, t: Item)
    requires Ready(t)
  {
    var e := Entry(w'.fs, w'.cwd, t.dir.value);
    e.Some? && IsDir(w'.fs, e.value)
  }

  /** One item installed without trouble; t is the item as it was translated. */
  ghost predicate CleanStep(cfg: Config, proc: Process, it: Item, t: Item, w: World, w': World) {
    && Sane(it) && Ready(t) && Translated(cfg, w.fs, w.cwd, it) == Success(t)
    && InstallStep(cfg, proc, w, it, false, w', Ok)
    && (t.op.Mkdir? ==> Made(w', t))
  }

  ghost predicate CleanAt(cfg: Config, proc: Process, items: seq<Item>, ts: seq<Item>, ws: seq<World>, i: nat)
    requires |ts| == |items| && |ws| == |items| + 1 && i < |items|
  {
    CleanStep(cfg, proc, items[i], ts[i], ws[i], ws[i + 1])
  }

  /** A run of install in which every item comes back OK and no mkdir failed. */
  ghost predicate CleanRun(cfg: Config, proc: Process, items: seq<Item>, ts: seq<Item>, ws: seq<World>) {
    && |ts| == |items| && |ws| == |items| + 1 && WellFormed(ws[0].fs)
    && forall i :: 0 <= i < |items| ==> CleanAt(cfg, proc, items, ts, ws, i)
  }

  /** Where an item will land, seen from the initial state: its path, walked through what is not
      there yet. */
  function Target(w: World, t: Item): Path
    requires Ready(t)
  {
    var k := Place(w.fs, w.cwd, RemovedPath(t));
    if k.Some? then k.value else []
  }

  /** No link of the list comes to stand in the way of a path. */
  ghost predicate NoLinkOnWay(w: World, ts: seq<Item>, s: string)
    requires forall j :: 0 <= j < |ts| ==> Ready(ts[j])
  {
    forall j :: 0 <= j < |ts| && IsLink(ts[j].op) ==>
      Target(w, ts[j]) !in Passed(w.fs, From(w.cwd, s), Components(s), false)
  }

  /** What an author of an item list can check beforehand of item i: its target is new and nobody
      else's, and no listed link is on its way; a temporary name is new and on nobody's way; a link
      has a relative name that fits; a directory path goes up only where it already leads to a
      directory. */
  ghost predicate GoodItem(w: World, ts: seq<Item>, i: nat)
    requires i < |ts| && forall j :: 0 <= j < |ts| ==> Ready(ts[j])
  {
    var k := Target(w, ts[i]);
    && k !in w.fs && (forall j :: 0 <= j < |ts| && j != i ==> Target(w, ts[j]) != k)
    && NoLinkOnWay(w, ts, RemovedPath(ts[i]))
    && match ts[i].op
       case Copy => GoodTemp(w, ts, TempName(ts[i].dst.value))
       case CopyExec => GoodTemp(w, ts, TempName(ts[i].dst.value))
       case Symlink => GoodLink(ts[i])
       case LibLink => GoodLink(ts[i])
       case Mkdir => Downward(w.fs, w.cwd, ts[i].dir.value)
  }

  ghost predicate GoodTemp(w: World, ts: seq<Item>, tmp: string)
    requires forall j :: 0 <= j < |ts| ==> Ready(ts[j])
  {
    var x := Place(w.fs, w.cwd, tmp);
    && NoLinkOnWay(w, ts, tmp)
    && (x.Some? ==> x.value !in w.fs && forall j :: 0 <= j < |ts| ==> !(x.value <= Target(w, ts[j])))
  }

  predicate GoodLink(t: Item)
    requires Ready(t) && t.op != Mkdir
  {
    !IsAbsolute(t.dst.value) && |t.dir.value + "/" + t.dst.value| < PATH_MAX
  }

  ghost predicate GoodList(w: World, ts: seq<Item>) {
    && (forall j :: 0 <= j < |ts| ==> Ready(ts[j]))
    && forall i :: 0 <= i < |ts| ==> GoodItem(w, ts, i)
  }

  /** Item j brings p into being: p is its target, or lies above it and it is a directory. */
  ghost predicate Brings(w0: World, t: Item, p: Path)
    requires Ready(t)
  {
    p == Target(w0, t) || (t.op.Mkdir? && p < Target(w0, t))
  }

  ghost predicate Known(w0: World, ts: seq<Item>, n: nat, p: Path)
    requires n <= |ts| && forall i :: 0 <= i < |ts| ==> Ready(ts[i])
  {
    p in w0.fs || exists j :: 0 <= j < n && Brings(w0, ts[j], p)
  }

  /** The target of an item is there, and it is what the item makes. */
  predicate Stands(w0: World, t: Item, fs: Fs)
    requires Ready(t)
  {
    var k := Target(w0, t);
    k in fs && (IsDir(fs, k) <==> t.op.Mkdir?) && (IsSymlink(fs, k) <==> IsLink(t.op))
  }

  /** State of a run after n items: everything in it was there from the start or was brought by
      one of those items. */
  ghost predicate RunState(w0: World, ts: seq<Item>, n: nat, w: World)
    requires n <= |ts| && forall i :: 0 <= i < |ts| ==> Ready(ts[i])
  {
    && WellFormed(w0.fs) && WellFormed(w.fs) && w.cwd == w0.cwd && Later(w0.fs, w.fs)
    && (forall p {:trigger Known(w0, ts, n, p)} :: p in w.fs ==> Known(w0, ts, n, p))
    && (forall j :: 0 <= j < n ==> Stands(w0, ts[j], w.fs))
  }

  /** The item that brought an entry. */
  lemma BroughtBy(w0: World, ts: seq<Item>, n: nat, w: World, p: Path) returns (j: nat)
    requires n <= |ts| && forall i :: 0 <= i < |ts| ==> Ready(ts[i])
    requires RunState(w0, ts, n, w) && p in w.fs && p !in w0.fs
    ensures j < n && Brings(w0, ts[j], p)
    ensures p != Target(w0, ts[j]) ==> IsDir(w.fs, p)
    ensures IsSymlink(w.fs, p) ==> p == Target(w0, ts[j]) && IsLink(ts[j].op)
  {
    assert Known(w0, ts, n, p);
    j :| 0 <= j < n && Brings(w0, ts[j], p);
    assert Stands(w0, ts[j], w.fs);
    if p != Target(w0, ts[j]) {
      AncestorsAreDirs(w.fs, Target(w0, ts[j]), p);
    }
  }

  /** No link has come to stand in the way of a path no listed link gets in the way of. */
  lemma NotDiverted(w0: World, ts: seq<Item>, n: nat, w: World, g: Fs, s: string)
    requires n <= |ts| && forall i :: 0 <= i < |ts| ==> Ready(ts[i])
    requires RunState(w0, ts, n, w) && NoLinkOnWay(w0, ts, s)
    requires Later(w.fs, g) && forall p :: IsSymlink(g, p) ==> IsSymlink(w.fs, p)
    ensures Later(w0.fs, g) && Undiverted(w0.fs, g, From(w0.cwd, s), Components(s), false)
  {
    LaterTransitive(w0.fs, w.fs, g);
    forall q | q in Passed(w0.fs, From(w0.cwd, s), Components(s), false) && q !in w0.fs ensures !IsSymlink(g, q) {
      if IsSymlink(w.fs, q) { var j := BroughtBy(w0, ts, n, w, q); }
    }
  }

  /** Such a path leads where it led at first. */
  lemma SamePlace(w0: World, ts: seq<Item>, n: nat, w: World, g: Fs, s: string)
    requires n <= |ts| && forall i :: 0 <= i < |ts| ==> Ready(ts[i])
    requires RunState(w0, ts, n, w) && NoLinkOnWay(w0, ts, s)
    requires Later(w.fs, g) && forall p :: IsSymlink(g, p) ==> IsSymlink(w.fs, p)
    ensures Place(g, w0.cwd, s) == Place(w0.fs, w0.cwd, s)
  {
    NotDiverted(w0, ts, n, w, g, s);
    LookStable(w0.fs, g, From(w0.cwd, s), From(w0.cwd, s), Components(s), false);
  }

  /** A target that is new is where the path leads, not the stand-in for one that leads nowhere. */
  lemma TargetIsPlace(w0: World, t: Item)
    requires Ready(t) && WellFormed(w0.fs) && Target(w0, t) !in w0.fs
    ensures Place(w0.fs, w0.cwd, RemovedPath(t)) == Some(Target(w0, t))
  {
  }

  /** What success says about the state before the step. */
  lemma StepNeeds(cfg: Config, proc: Process, w: World, it: Item, t: Item, w': World)
    requires Sane(it) && Translated(cfg, w.fs, w.cwd, it) == Success(t)
    requires InstallStep(cfg, proc, w, it, false, w', Ok)
    ensures IsCopy(t.op) ==>
      Entry(w.fs, w.cwd, t.dst.value).Some? && !IsDir(w.fs, Entry(w.fs, w.cwd, t.dst.value).value)
    ensures t.op.Mkdir? ==> MkdirStep(proc, w, t, false, w', Ok)
  {
    if IsCopy(t.op) {
      assert CopyItemStep(proc, w, t, false, w', Ok);
    }
  }

  lemma CopyIsRegular(w0: World, ts: seq<Item>, n: nat, w: World, w': World)
    requires n < |ts| && GoodList(w0, ts) && RunState(w0, ts, n, w) && IsCopy(ts[n].op)
    requires var d := Entry(w.fs, w.cwd, ts[n].dst.value); d.Some? && !IsDir(w.fs, d.value)
    ensures Regular(w, ts[n], Target(w0, ts[n]), w')
  {
    var t, k := ts[n], Target(w0, ts[n]);
    assert GoodItem(w0, ts, n);
    TargetIsPlace(w0, t);
    SamePlace(w0, ts, n, w, w.fs, t.dst.value);
    SamePlace(w0, ts, n, w, w.fs, TempName(t.dst.value));
    if k in w.fs { var _ := BroughtBy(w0, ts, n, w, k); }
    forall x | x in TempSet(w, t.dst.value) ensures x !in w.fs {
      if x in w.fs { var _ := BroughtBy(w0, ts, n, w, x); }
    }
  }

  /** In such a state the next item meets what Regular asks. */
  lemma NextIsRegular(cfg: Config, proc: Process, w0: World, ts: seq<Item>, n: nat, it: Item, w: World, w': World)
    requires n < |ts| && GoodList(w0, ts) && RunState(w0, ts, n, w) && CleanStep(cfg, proc, it, ts[n], w, w')
    ensures Regular(w, ts[n], Target(w0, ts[n]), w')
  {
    var t, k := ts[n], Target(w0, ts[n]);
    assert GoodItem(w0, ts, n);
    TargetIsPlace(w0, t);
    StepNeeds(cfg, proc, w, it, t, w');
    if IsCopy(t.op) {
      CopyIsRegular(w0, ts, n, w, w');
    } else if t.op.Mkdir? {
      MkdirIsLater(proc, w, t, Entry(w'.fs, w'.cwd, t.dir.value).value, w');
      SamePlace(w0, ts, n, w, w'.fs, t.dir.value);
      DownwardLater(w0.fs, w.fs, w0.cwd, t.dir.value);
    } else {
      SamePlace(w0, ts, n, w, w.fs, RemovedPath(t));
    }
  }

  lemma KeepsTargets(proc: Process, w0: World, ts: seq<Item>, n: nat, w: World, w': World)
    requires n < |ts| && GoodList(w0, ts) && RunState(w0, ts, n, w)
    requires Grew(proc, w, ts[n], Target(w0, ts[n]), w')
    ensures forall j :: 0 <= j < n + 1 ==> Stands(w0, ts[j], w'.fs)
  {
    forall j | 0 <= j < n + 1 ensures Stands(w0, ts[j], w'.fs) {
      if j < n { assert Stands(w0, ts[j], w.fs) && GoodItem(w0, ts, n); }
    }
  }

  lemma KeepsOrigins(proc: Process, w0: World, ts: seq<Item>, n: nat, w: World, w': World)
    requires n < |ts| && (forall i :: 0 <= i < |ts| ==> Ready(ts[i])) && RunState(w0, ts, n, w)
    requires Grew(proc, w, ts[n], Target(w0, ts[n]), w')
    ensures forall p :: p in w'.fs ==> Known(w0, ts, n + 1, p)
  {
    forall p | p in w'.fs ensures Known(w0, ts, n + 1, p) {
      if p in w.fs && p !in w0.fs {
        var j := BroughtBy(w0, ts, n, w, p);
      } else if p !in w.fs {
        assert Brings(w0, ts[n], p);
      }
    }
  }

  lemma GrewIsLater(proc: Process, w: World, t: Item, k: Path, w': World)
    requires Ready(t) && Grew(proc, w, t, k, w')
    ensures Later(w.fs, w'.fs)
  {
  }

  /** One successful item takes the run to its next state. */
  lemma StepKeepsState(proc: Process, w0: World, ts: seq<Item>, n: nat, w: World, w': World)
    requires n < |ts| && GoodList(w0, ts) && RunState(w0, ts, n, w) && Grew(proc, w, ts[n], Target(w0, ts[n]), w')
    ensures RunState(w0, ts, n + 1, w')
  {
    GrewIsLater(proc, w, ts[n], Target(w0, ts[n]), w');
    LaterTransitive(w0.fs, w.fs, w'.fs);
    KeepsTargets(proc, w0, ts, n, w, w');
    KeepsOrigins(proc, w0, ts, n, w, w');
  }

  lemma CleanStepGrows(cfg: Config, proc: Process, w0: World, ts: seq<Item>, n: nat, it: Item, w: World, w': World)
    requires n < |ts| && GoodList(w0, ts) && RunState(w0, ts, n, w) && CleanStep(cfg, proc, it, ts[n], w, w')
    ensures Grew(proc, w, ts[n], Target(w0, ts[n]), w')
    ensures !IsLink(ts[n].op) ==>
      Ids(proc, ts[n].owner, ts[n].group).Some? && Delivered(proc, w, ts[n], Target(w0, ts[n]), w')
  {
    NextIsRegular(cfg, proc, w0, ts, n, it, w, w');
    StepGrows(cfg, proc, w, it, ts[n], Target(w0, ts[n]), w');
  }

  /** What the run-level proofs need of item i: from a proper state, it grows the world. */
  ghost predicate ProgressAt(proc: Process, ts: seq<Item>, ws: seq<World>, i: nat)
    requires |ws| == |ts| + 1 && i < |ts| && forall j :: 0 <= j < |ts| ==> Ready(ts[j])
  {
    RunState(ws[0], ts, i, ws[i]) ==> Grew(proc, ws[i], ts[i], Target(ws[0], ts[i]), ws[i + 1])
  }

  ghost predicate Progress(proc: Process, ts: seq<Item>, ws: seq<World>) {
    && |ws| == |ts| + 1 && WellFormed(ws[0].fs) && GoodList(ws[0], ts)
    && forall i :: 0 <= i < |ts| ==> ProgressAt(proc, ts, ws, i)
  }

  lemma CleanAtProgresses(cfg: Config, proc: Process, items: seq<Item>, ts: seq<Item>, ws: seq<World>, n: nat)
    requires |ts| == |items| && |ws| == |items| + 1 && n < |items|
    requires CleanAt(cfg, proc, items, ts, ws, n) && GoodList(ws[0], ts)
    ensures ProgressAt(proc, ts, ws, n)
  {
    if RunState(ws[0], ts, n, ws[n]) {
      CleanStepGrows(cfg, proc, ws[0], ts, n, items[n], ws[n], ws[n + 1]);
    }
  }

  lemma CleanRunProgresses(cfg: Config, proc: Process, items: seq<Item>, ts: seq<Item>, ws: seq<World>)
    requires CleanRun(cfg, proc, items, ts, ws) && GoodList(ws[0], ts)
    ensures Progress(proc, ts, ws)
  {
    forall i | 0 <= i < |ts| ensures ProgressAt(proc, ts, ws, i) {
      CleanAtProgresses(cfg, proc, items, ts, ws, i);
    }
  }

  /** The states of a clean run. */
  lemma {:induction false} RunReaches(proc: Process, ts: seq<Item>, ws: seq<World>, n: nat)
    requires Progress(proc, ts, ws) && n <= |ts|
    ensures RunState(ws[0], ts, n, ws[n])
    ensures n < |ts| ==> Grew(proc, ws[n], ts[n], Target(ws[0], ts[n]), ws[n + 1])
    decreases n
  {
    if n > 0 {
      RunReaches(proc, ts, ws, n - 1);
      StepKeepsState(proc, ws[0], ts, n - 1, ws[n - 1], ws[n]);
    }
    assert n < |ts| ==> ProgressAt(proc, ts, ws, n);
  }

  /** Later states of the run only add to earlier ones, and change no entry but the targets of
      the items in between. */
  lemma {:induction false} RunOnlyAdds(proc: Process, ts: seq<Item>, ws: seq<World>, m: nat, n: nat)
    requires Progress(proc, ts, ws) && m <= n <= |ts|
    ensures Later(ws[m].fs, ws[n].fs)
    ensures forall p :: p in ws[m].fs && (forall j :: m <= j < n ==> p != Target(ws[0], ts[j])) ==>
      p in ws[n].fs && ws[n].fs[p] == ws[m].fs[p]
    decreases n - m
  {
    if m < n {
      RunOnlyAdds(proc, ts, ws, m, n - 1);
      RunReaches(proc, ts, ws, n - 1);
      GrewIsLater(proc, ws[n - 1], ts[n - 1], Target(ws[0], ts[n - 1]), ws[n]);
      LaterTransitive(ws[m].fs, ws[n - 1].fs, ws[n].fs);
    }
  }

  /** An installed item stays as it was installed, and its path goes on naming it. */
  lemma TargetStays(proc: Process, ts: seq<Item>, ws: seq<World>, i: nat)
    requires Progress(proc, ts, ws) && i < |ts|
    ensures var k := Target(ws[0], ts[i]);
      k in ws[i + 1].fs && k in ws[|ts|].fs && ws[|ts|].fs[k] == ws[i + 1].fs[k] && Lands(ws[|ts|], ts[i], k)
  {
    RunReaches(proc, ts, ws, i);
    RunReaches(proc, ts, ws, |ts|);
    RunOnlyAdds(proc, ts, ws, i + 1, |ts|);
    EntryLater(ws[i + 1].fs, ws[|ts|].fs, ws[0].cwd, RemovedPath(ts[i]));
    assert GoodItem(ws[0], ts, i);
  }

  /** The items as the run translated them. */
  ghost predicate AsTranslated(cfg: Config, items: seq<Item>, ws: seq<World>, ts: seq<Item>)
    requires |ws| == |items| + 1
  {
    |ts| == |items| && forall i :: 0 <= i < |items| ==> TranslatedAt(cfg, items, ws, ts, i)
  }

  ghost predicate TranslatedAt(cfg: Config, items: seq<Item>, ws: seq<World>, ts: seq<Item>, i: nat)
    requires i < |items| && i < |ws| && i < |ts|
  {
    Sane(items[i]) && Ready(ts[i]) && Translated(cfg, ws[i].fs, ws[i].cwd, items[i]) == Success(ts[i])
  }

  /** Each directory item is a directory once it has been installed: install_rmkdir itself does
      not notice when a mkdir fails. */
  ghost predicate NoMkdirFailed(ws: seq<World>, ts: seq<Item>)
    requires |ws| == |ts| + 1
  {
    forall i :: 0 <= i < |ts| && ts[i].op.Mkdir? && Ready(ts[i]) ==> Made(ws[i + 1], ts[i])
  }

  lemma OkTranslates(cfg: Config, proc: Process, w: World, it: Item, w': World, st: Status)
    requires Sane(it) && st.Ok? && InstallStep(cfg, proc, w, it, false, w', st)
    ensures Translated(cfg, w.fs, w.cwd, it).Success? && Ready(Translated(cfg, w.fs, w.cwd, it).value)
  {
  }

  /** An all-OK run translates every item. */
  lemma {:induction false} RunTranslates(cfg: Config, proc: Process, items: seq<Item>, ws: seq<World>,
                                         sts: seq<Status>, n: nat)
      returns (ts: seq<Item>)
    requires InstallRun(cfg, proc, items, false, ws, sts) && AllOk(sts) && n <= |items|
    ensures |ts| == n && forall i :: 0 <= i < n ==> TranslatedAt(cfg, items, ws, ts, i)
    ensures n == |items| ==> AsTranslated(cfg, items, ws, ts)
    decreases n
  {
    ts := [];
    if n > 0 {
      var front := RunTranslates(cfg, proc, items, ws, sts, n - 1);
      assert sts[n - 1].Ok? && InstallAt(cfg, proc, items, false, ws, sts, n - 1);
      OkTranslates(cfg, proc, ws[n - 1], items[n - 1], ws[n], sts[n - 1]);
      ts := front + [Translated(cfg, ws[n - 1].fs, ws[n - 1].cwd, items[n - 1]).value];
      forall i | 0 <= i < n ensures TranslatedAt(cfg, items, ws, ts, i) {
        if i < n - 1 { assert TranslatedAt(cfg, items, ws, front, i); }
      }
    }
  }

  lemma CleanFromRun(cfg: Config, proc: Process, items: seq<Item>, ts: seq<Item>, ws: seq<World>, sts: seq<Status>)
    requires InstallRun(cfg, proc, items, false, ws, sts) && AllOk(sts) && WellFormed(ws[0].fs)
    requires AsTranslated(cfg, items, ws, ts) && NoMkdirFailed(ws, ts)
    ensures CleanRun(cfg, proc, items, ts, ws)
  {
    forall i | 0 <= i < |items| ensures CleanAt(cfg, proc, items, ts, ws, i) {
      assert sts[i].Ok? && InstallAt(cfg, proc, items, false, ws, sts, i) && TranslatedAt(cfg, items, ws, ts, i);
    }
  }
}
