/** What the check finds out: an item is installed, its target is then replaced, and checked. */
module Tampered {
  import opened Options
  import opened Paths
  import opened FileSystem
  import opened Lookup
  import opened OperatingSystem
  import opened FileCopy
  import opened CopyFacts
  import opened Translate
  import opened Operators
  import opened Engine
  import opened Footprint
  import opened InstallRuns
  import opened Answers

  /** The world with another node at an entry. */
  function With(w: World, k: Path, n: Node): World {
    w.(fs := w.fs[k := n])
  }

  function Without(w: World, k: Path): World {
    w.(fs := w.fs - {k})
  }

  lemma LaterSave(f: Fs, g: Fs, h: Fs, k: Path)
    requires Later(f, g) && k !in f && forall p :: p != k && p in g ==> p in h && h[p] == g[p]
    ensures Later(f, h)
  {
  }

  /** What was there before an item was installed is there after the run, whatever happens to its target;
      for that was not there. */
  lemma StillLater(proc: Process, ts: seq<Item>, ws: seq<World>, i: nat, g: World)
    requires Progress(proc, ts, ws) && i < |ts| && !ts[i].op.Mkdir? && g.cwd == ws[|ts|].cwd
    requires forall p :: p != Target(ws[0], ts[i]) && p in ws[|ts|].fs ==> p in g.fs && g.fs[p] == ws[|ts|].fs[p]
    ensures Later(ws[i].fs, g.fs) && g.cwd == ws[i].cwd
  {
    RunReaches(proc, ts, ws, i);
    RunReaches(proc, ts, ws, |ts|);
    RunOnlyAdds(proc, ts, ws, i, |ts|);
    LaterSave(ws[i].fs, ws[|ts|].fs, g.fs, Target(ws[0], ts[i]));
  }

  /** And the item is translated as it was. */
  lemma StillTranslated(cfg: Config, proc: Process, items: seq<Item>, ts: seq<Item>, ws: seq<World>, i: nat, g: World)
    requires CleanRun(cfg, proc, items, ts, ws) && GoodList(ws[0], ts) && i < |ts| && IsCopy(ts[i].op)
    requires g.cwd == ws[|ts|].cwd
    requires forall p :: p != Target(ws[0], ts[i]) && p in ws[|ts|].fs ==> p in g.fs && g.fs[p] == ws[|ts|].fs[p]
    ensures Sane(items[i]) && Later(ws[i].fs, g.fs) && g.cwd == ws[i].cwd
    ensures Translated(cfg, g.fs, g.cwd, items[i]) == Success(ts[i])
  {
    CleanRunProgresses(cfg, proc, items, ts, ws);
    StillLater(proc, ts, ws, i, g);
    assert CleanAt(cfg, proc, items, ts, ws, i);
    TranslationLater(cfg, ws[i].fs, g.fs, g.cwd, items[i]);
  }

  /** The destination of a file item goes on naming the target, and its source leads where it led. */
  lemma StillNamed(cfg: Config, proc: Process, items: seq<Item>, ts: seq<Item>, ws: seq<World>, i: nat, g: World)
    requires CleanRun(cfg, proc, items, ts, ws) && GoodList(ws[0], ts) && i < |ts| && IsCopy(ts[i].op) && Ready(ts[i])
    requires Later(ws[i].fs, g.fs) && g.cwd == ws[i].cwd
    ensures Entry(g.fs, g.cwd, ts[i].dst.value) == Some(Target(ws[0], ts[i]))
    ensures var s := Stat(ws[i].fs, ws[i].cwd, ts[i].src.value);
      s.Some? && s.value.File? && Stat(g.fs, g.cwd, ts[i].src.value) == s
  {
    CleanRunProgresses(cfg, proc, items, ts, ws);
    RunReaches(proc, ts, ws, i);
    assert CleanAt(cfg, proc, items, ts, ws, i);
    CleanStepGrows(cfg, proc, ws[0], ts, i, items[i], ws[i], ws[i + 1]);
    StepNeeds(cfg, proc, ws[i], items[i], ts[i], ws[i + 1]);
    CopyIsRegular(ws[0], ts, i, ws[i], ws[i + 1]);
    EntryLater(ws[i].fs, g.fs, ws[i].cwd, ts[i].dst.value);
    StatFileLater(ws[i].fs, g.fs, ws[i].cwd, ts[i].src.value);
  }

  /** stat of a name finds the entry it names, if that is no link. */
  lemma NamedIsFound(g: World, s: string, k: Path)
    requires Entry(g.fs, g.cwd, s) == Some(k) && !IsSymlink(g.fs, k)
    ensures Stat(g.fs, g.cwd, s) == At(g.fs, k)
  {
    EntryAndReach(g.fs, g.cwd, s);
  }

  /** What the check of a file item looks at, when only its target may have changed. */
  lemma WhatIsSeen(cfg: Config, proc: Process, items: seq<Item>, ts: seq<Item>, ws: seq<World>, i: nat, g: World)
    requires CleanRun(cfg, proc, items, ts, ws) && GoodList(ws[0], ts) && i < |ts| && IsCopy(ts[i].op)
    requires g.cwd == ws[|ts|].cwd && !IsSymlink(g.fs, Target(ws[0], ts[i]))
    requires forall p :: p != Target(ws[0], ts[i]) && p in ws[|ts|].fs ==> p in g.fs && g.fs[p] == ws[|ts|].fs[p]
    ensures Sane(items[i]) && Ready(ts[i]) && IsCopy(items[i].op)
    ensures CheckTranslated(cfg, g.fs, g.cwd, items[i]) == Success(ts[i])
    ensures Stat(g.fs, g.cwd, ts[i].dst.value) == At(g.fs, Target(ws[0], ts[i]))
    ensures var s := Stat(ws[i].fs, ws[i].cwd, ts[i].src.value);
      s.Some? && s.value.File? && Stat(g.fs, g.cwd, ts[i].src.value) == s
  {
    StillTranslated(cfg, proc, items, ts, ws, i, g);
    StillNamed(cfg, proc, items, ts, ws, i, g);
    NamedIsFound(g, ts[i].dst.value, Target(ws[0], ts[i]));
  }

  /** A file item whose target is now any file whatever: the check passes exactly when the file has the
      source's length, the permissions, and the owner and group asked for, and counts it otherwise. */
  lemma ReplacedFileIsFound(cfg: Config, proc: Process, items: seq<Item>, ts: seq<Item>, ws: seq<World>, i: nat,
                            n: Node, st: Status, counted: bool)
    requires CleanRun(cfg, proc, items, ts, ws) && GoodList(ws[0], ts) && i < |ts| && IsCopy(ts[i].op) && n.File?
    requires AccountsKnown(proc, items[i]) && Sane(items[i])
    requires CheckStep(cfg, proc, With(ws[|ts|], Target(ws[0], ts[i]), n), items[i], st, counted)
    ensures var s := Stat(ws[i].fs, ws[i].cwd, ts[i].src.value);
      && s.Some? && s.value.File?
      && (st.Ok? <==>
            |n.content| == |s.value.content| && n.mode & 0x1ED == items[i].perm
            && n.uid == AskedUid(proc, items[i]) && n.gid == AskedGid(proc, items[i]))
      && (counted <==> !st.Ok?)
  {
    var k := Target(ws[0], ts[i]);
    var g := With(ws[|ts|], k, n);
    WhatIsSeen(cfg, proc, items, ts, ws, i, g);
    FileCheckAnswers(cfg, proc, g, items[i], ts[i], st, counted);
  }

  /** A target that is gone is found out. */
  lemma MissingFileIsFound(cfg: Config, proc: Process, items: seq<Item>, ts: seq<Item>, ws: seq<World>, i: nat,
                           st: Status, counted: bool)
    requires CleanRun(cfg, proc, items, ts, ws) && GoodList(ws[0], ts) && i < |ts| && IsCopy(ts[i].op)
    requires AccountsKnown(proc, items[i]) && Sane(items[i])
    requires CheckStep(cfg, proc, Without(ws[|ts|], Target(ws[0], ts[i])), items[i], st, counted)
    ensures !st.Ok? && counted
  {
    var k := Target(ws[0], ts[i]);
    var g := Without(ws[|ts|], k);
    WhatIsSeen(cfg, proc, items, ts, ws, i, g);
    FileCheckAnswers(cfg, proc, g, items[i], ts[i], st, counted);
  }

  lemma GoneIsNotFound(w: World, s: string)
    requires Stat(w.fs, w.cwd, s).Some? && Stat(w.fs, w.cwd, s).value.File?
    ensures Stat(w.fs - {Reach(w.fs, w.cwd, s).value}, w.cwd, s).None?
  {
    SameShapeLooksSame(w.fs, w.fs - {Reach(w.fs, w.cwd, s).value}, w.cwd, s);
  }

  /** So is a source that is gone, as long as the item's names can still be read. */
  lemma MissingSourceIsFound(cfg: Config, proc: Process, items: seq<Item>, ts: seq<Item>, ws: seq<World>, i: nat,
                             s: Path, st: Status, counted: bool)
    requires CleanRun(cfg, proc, items, ts, ws) && GoodList(ws[0], ts) && i < |ts| && IsCopy(ts[i].op)
    requires AccountsKnown(proc, items[i]) && Sane(items[i])
    requires Reach(ws[|ts|].fs, ws[|ts|].cwd, ts[i].src.value) == Some(s)
    requires var g := Without(ws[|ts|], s);
      Translated(cfg, g.fs, g.cwd, items[i]) == Success(ts[i]) && CheckStep(cfg, proc, g, items[i], st, counted)
    ensures !st.Ok? && counted
  {
    StillTranslated(cfg, proc, items, ts, ws, i, ws[|ts|]);
    StillNamed(cfg, proc, items, ts, ws, i, ws[|ts|]);
    GoneIsNotFound(ws[|ts|], ts[i].src.value);
    FileCheckAnswers(cfg, proc, Without(ws[|ts|], s), items[i], ts[i], st, counted);
  }

  /** A directory item whose directory now has any permissions and any owner. */
  lemma ReplacedDirIsFound(cfg: Config, proc: Process, items: seq<Item>, ts: seq<Item>, ws: seq<World>, i: nat,
                           n: Node, st: Status, counted: bool)
    requires CleanRun(cfg, proc, items, ts, ws) && GoodList(ws[0], ts) && i < |ts| && ts[i].op.Mkdir? && n.Dir?
    requires AccountsKnown(proc, items[i]) && Sane(items[i])
    requires CheckStep(cfg, proc, With(ws[|ts|], Target(ws[0], ts[i]), n), items[i], st, counted)
    ensures st.Ok? <==> n.mode & 0x1ED == items[i].perm && n.uid == AskedUid(proc, items[i])
                        && n.gid == AskedGid(proc, items[i])
    ensures counted <==> !st.Ok?
  {
    var k := Target(ws[0], ts[i]);
    var g := With(ws[|ts|], k, n);
    assert CleanAt(cfg, proc, items, ts, ws, i);
    DirIsSeen(cfg, proc, items, ts, ws, i, n);
    DirCheckAnswers(cfg, proc, g, items[i], ts[i], st, counted);
  }

  lemma DirIsSeen(cfg: Config, proc: Process, items: seq<Item>, ts: seq<Item>, ws: seq<World>, i: nat, n: Node)
    requires CleanRun(cfg, proc, items, ts, ws) && GoodList(ws[0], ts) && i < |ts| && ts[i].op.Mkdir? && n.Dir?
    requires Ready(ts[i])
    ensures var k := Target(ws[0], ts[i]); var g := With(ws[|ts|], k, n);
      Stat(g.fs, g.cwd, ts[i].dir.value) == Some(n)
  {
    var k := Target(ws[0], ts[i]);
    var g := With(ws[|ts|], k, n);
    CleanRunProgresses(cfg, proc, items, ts, ws);
    TargetStays(proc, ts, ws, i);
    RunReaches(proc, ts, ws, |ts|);
    assert Stands(ws[0], ts[i], ws[|ts|].fs);
    SameShapeLooksSame(ws[|ts|].fs, g.fs, g.cwd, ts[i].dir.value);
    NamedIsFound(g, ts[i].dir.value, k);
  }

  /** The whole check then fails. */
  lemma CheckFindsIt(cfg: Config, proc: Process, items: seq<Item>, ts: seq<Item>, ws: seq<World>, i: nat, n: Node,
                     csts: seq<Status>, counted: seq<bool>)
    requires CleanRun(cfg, proc, items, ts, ws) && GoodList(ws[0], ts) && i < |ts| && IsCopy(ts[i].op) && n.File?
    requires CheckRun(cfg, proc, items, With(ws[|ts|], Target(ws[0], ts[i]), n), csts, counted)
    requires AccountsKnown(proc, items[i])
    requires var s := Stat(ws[i].fs, ws[i].cwd, ts[i].src.value);
      && s.Some? && s.value.File?
      && (|n.content| != |s.value.content| || n.mode & 0x1ED != items[i].perm
          || n.uid != AskedUid(proc, items[i]) || n.gid != AskedGid(proc, items[i]))
    ensures true in counted
  {
    assert CheckAt(cfg, proc, items, With(ws[|ts|], Target(ws[0], ts[i]), n), csts, counted, i);
    ReplacedFileIsFound(cfg, proc, items, ts, ws, i, n, csts[i], counted[i]);
  }
}
