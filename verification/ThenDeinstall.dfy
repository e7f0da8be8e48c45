/** Install, then deinstall in reverse order. */
module ThenDeinstall {
  import opened Options
  import opened Paths
  import opened FileSystem
  import opened Lookup
  import opened OperatingSystem
  import opened FileCopy
  import opened Translate
  import opened Operators
  import opened Engine
  import opened Footprint
  import opened InstallRuns

  /** Each item comes before everything that lies under its target. */
  ghost predicate AncestorsFirst(w0: World, ts: seq<Item>)
    requires forall j :: 0 <= j < |ts| ==> Ready(ts[j])
  {
    forall i, j :: 0 <= i < |ts| && 0 <= j < |ts| && Target(w0, ts[i]) < Target(w0, ts[j]) ==> i < j
  }

  /** Every directory on the way from one directory item down to another is itself listed. */
  ghost predicate Gapless(w0: World, ts: seq<Item>)
    requires forall j :: 0 <= j < |ts| ==> Ready(ts[j])
  {
    forall i, j, p | 0 <= i < |ts| && 0 <= j < |ts| && ts[i].op.Mkdir? && ts[j].op.Mkdir?
      :: Target(w0, ts[i]) < p && p < Target(w0, ts[j]) ==> Listed(w0, ts, p)
  }

  ghost predicate Listed(w0: World, ts: seq<Item>, p: Path)
    requires forall j :: 0 <= j < |ts| ==> Ready(ts[j])
  {
    exists m :: 0 <= m < |ts| && ts[m].op.Mkdir? && p == Target(w0, ts[m])
  }

  /** The targets of the items from n on. */
  function TargetsFrom(w0: World, ts: seq<Item>, n: nat): set<Path>
    requires n <= |ts| && forall j :: 0 <= j < |ts| ==> Ready(ts[j])
  {
    set j | n <= j < |ts| :: Target(w0, ts[j])
  }

  /** What has become of item j: it is gone if and only if its removal succeeded, and if not it is
      a directory with something in it. */
  ghost predicate Handled(w0: World, t: Item, d: World, st: Status)
    requires Ready(t)
  {
    var k := Target(w0, t);
    (st.Ok? <==> k !in d.fs) && (k in d.fs ==> t.op.Mkdir? && HasDescendant(d.fs, k))
  }

  /** The state when the items from n on have been handled: of what the installation left, only
      targets from n on are missing. */
  ghost predicate Undoing(w0: World, wn: World, ts: seq<Item>, d: World, sts: seq<Status>, n: nat)
    requires n <= |ts| == |sts| && forall j :: 0 <= j < |ts| ==> Ready(ts[j])
  {
    && d.cwd == w0.cwd && WellFormed(d.fs) && Preserves(d.fs, wn.fs)
    && (forall p :: p in wn.fs && p !in d.fs ==> p in TargetsFrom(w0, ts, n))
    && forall j :: n <= j < |ts| ==> Handled(w0, ts[j], d, sts[j])
  }

  /** Until its turn comes, nothing stands at an item's target. */
  lemma NotYet(w0: World, ts: seq<Item>, n: nat, w: World, j: nat)
    requires GoodList(w0, ts) && AncestorsFirst(w0, ts) && n <= j < |ts| && RunState(w0, ts, n, w)
    ensures Target(w0, ts[j]) !in w.fs
  {
    assert GoodItem(w0, ts, j);
    if Target(w0, ts[j]) in w.fs { var _ := BroughtBy(w0, ts, n, w, Target(w0, ts[j])); }
  }

  /** Nothing that an earlier state of the run had has been removed so far. */
  lemma NothingLost(w0: World, wn: World, ts: seq<Item>, n: nat, w: World, d: World, sts: seq<Status>)
    requires GoodList(w0, ts) && AncestorsFirst(w0, ts) && n <= |ts| == |sts| && RunState(w0, ts, n, w)
    requires Later(w.fs, wn.fs) && Undoing(w0, wn, ts, d, sts, n)
    ensures Later(w.fs, d.fs)
  {
    forall p | p in w.fs ensures p in d.fs {
      if p !in d.fs {
        var j :| n <= j < |ts| && p == Target(w0, ts[j]);
        NotYet(w0, ts, n, w, j);
      }
    }
  }

  /** Before an item is removed, everything its installation left is still there. */
  lemma StillThere(proc: Process, ts: seq<Item>, ws: seq<World>, d: World, sts: seq<Status>, n: nat)
    requires Progress(proc, ts, ws) && AncestorsFirst(ws[0], ts) && |sts| == |ts|
    requires n < |ts| && Undoing(ws[0], ws[|ts|], ts, d, sts, n + 1)
    ensures Later(ws[n + 1].fs, d.fs) && Later(ws[n].fs, d.fs) && d.cwd == ws[n].cwd
  {
    RunReaches(proc, ts, ws, n + 1);
    RunOnlyAdds(proc, ts, ws, n + 1, |ts|);
    NothingLost(ws[0], ws[|ts|], ts, n + 1, ws[n + 1], d, sts);
    RunReaches(proc, ts, ws, n);
    GrewIsLater(proc, ws[n], ts[n], Target(ws[0], ts[n]), ws[n + 1]);
    LaterTransitive(ws[n].fs, ws[n + 1].fs, d.fs);
  }

  /** In particular its target, and its path still names it. */
  lemma StillLands(proc: Process, ts: seq<Item>, ws: seq<World>, d: World, n: nat)
    requires Progress(proc, ts, ws) && n < |ts| && Later(ws[n + 1].fs, d.fs) && d.cwd == ws[n].cwd
    requires Preserves(d.fs, ws[|ts|].fs)
    ensures Lands(d, ts[n], Target(ws[0], ts[n])) && Stands(ws[0], ts[n], d.fs)
  {
    RunReaches(proc, ts, ws, n);
    EntryLater(ws[n + 1].fs, d.fs, ws[n + 1].cwd, RemovedPath(ts[n]));
  }

  /** One removal: the item is translated as it was when it was installed. */
  lemma RemoveOne(cfg: Config, dproc: Process, it: Item, t: Item, k: Path, w: World, d: World, d': World, st: Status)
    requires Sane(it) && Ready(t) && Translated(cfg, w.fs, w.cwd, it) == Success(t)
    requires Later(w.fs, d.fs) && d.cwd == w.cwd && Lands(d, t, k)
    requires k != [] && k in d.fs && (IsDir(d.fs, k) <==> t.op.Mkdir?)
    requires !dproc.faulty && DeinstallStep(cfg, dproc, d, it, false, d', st)
    ensures st.Ok? <==> !(t.op.Mkdir? && HasDescendant(d.fs, k))
    ensures d'.cwd == d.cwd && d'.fs == if st.Ok? then d.fs - {k} else d.fs
  {
    TranslationLater(cfg, w.fs, d.fs, d.cwd, it);
  }

  /** Handling one more item. */
  lemma OneMoreHandled(w0: World, wn: World, ts: seq<Item>, d: World, d': World, sts: seq<Status>, n: nat)
    requires n < |ts| == |sts| && GoodList(w0, ts) && AncestorsFirst(w0, ts) && Undoing(w0, wn, ts, d, sts, n + 1)
    requires var k := Target(w0, ts[n]);
      && k != [] && k in d.fs && (IsDir(d.fs, k) <==> ts[n].op.Mkdir?)
      && (sts[n].Ok? <==> !(ts[n].op.Mkdir? && HasDescendant(d.fs, k)))
      && d'.cwd == d.cwd && d'.fs == if sts[n].Ok? then d.fs - {k} else d.fs
    ensures Undoing(w0, wn, ts, d', sts, n)
  {
    var k := Target(w0, ts[n]);
    if sts[n].Ok? { WellFormedAfterRemove(d.fs, k); }
    assert GoodItem(w0, ts, n);
    assert TargetsFrom(w0, ts, n) == TargetsFrom(w0, ts, n + 1) + {k};
    forall j | n <= j < |ts| ensures Handled(w0, ts[j], d', sts[j]) {
      if j > n {
        assert Handled(w0, ts[j], d, sts[j]);
        if Target(w0, ts[j]) in d.fs {
          var q :| q in d.fs && Target(w0, ts[j]) < q;
          assert q in d'.fs;
        }
      }
    }
  }

  /** The whole deinstall run. */
  lemma {:induction false} UndoneDownTo(cfg: Config, proc: Process, dproc: Process, items: seq<Item>, ts: seq<Item>,
                                        ws: seq<World>, ds: seq<World>, sts: seq<Status>, n: nat)
    requires CleanRun(cfg, proc, items, ts, ws) && GoodList(ws[0], ts) && AncestorsFirst(ws[0], ts)
    requires !dproc.faulty && DeinstallRun(cfg, dproc, items, false, ds, sts) && ds[|items|] == ws[|items|]
    requires n <= |ts|
    ensures Undoing(ws[0], ws[|ts|], ts, ds[n], sts, n)
    decreases |ts| - n
  {
    CleanRunProgresses(cfg, proc, items, ts, ws);
    if n == |ts| {
      RunReaches(proc, ts, ws, |ts|);
    } else {
      UndoneDownTo(cfg, proc, dproc, items, ts, ws, ds, sts, n + 1);
      StillThere(proc, ts, ws, ds[n + 1], sts, n);
      StillLands(proc, ts, ws, ds[n + 1], n);
      assert CleanAt(cfg, proc, items, ts, ws, n) && DeinstallAt(cfg, dproc, items, false, ds, sts, n);
      assert GoodItem(ws[0], ts, n);
      RemoveOne(cfg, dproc, items[n], ts[n], Target(ws[0], ts[n]), ws[n], ds[n + 1], ds[n], sts[n]);
      OneMoreHandled(ws[0], ws[|ts|], ts, ds[n + 1], ds[n], sts, n);
    }
  }

  // ---- what is left in the end

  /** What stands above, or is, a directory that install_rmkdir makes on its way and no item asks for:
      a matter of the list and the initial state alone. */
  ghost predicate Remains(w0: World, ts: seq<Item>, p: Path)
    requires forall j :: 0 <= j < |ts| ==> Ready(ts[j])
  {
    exists u :: p <= u && Unlisted(w0, ts, u)
  }

  ghost predicate Unlisted(w0: World, ts: seq<Item>, u: Path)
    requires forall j :: 0 <= j < |ts| ==> Ready(ts[j])
  {
    u !in w0.fs && u !in TargetsFrom(w0, ts, 0) && AboveListed(w0, ts, u)
  }

  ghost predicate AboveListed(w0: World, ts: seq<Item>, p: Path)
    requires forall j :: 0 <= j < |ts| ==> Ready(ts[j])
  {
    exists m :: 0 <= m < |ts| && ts[m].op.Mkdir? && p < Target(w0, ts[m])
  }

  /** The installation makes exactly these directories beside the targets. */
  lemma UnlistedIsMade(w0: World, wn: World, ts: seq<Item>, u: Path)
    requires GoodList(w0, ts) && RunState(w0, ts, |ts|, wn)
    ensures Unlisted(w0, ts, u) <==> u in wn.fs && u !in w0.fs && u !in TargetsFrom(w0, ts, 0)
    ensures Unlisted(w0, ts, u) ==> IsDir(wn.fs, u)
  {
    if Unlisted(w0, ts, u) {
      var m :| 0 <= m < |ts| && ts[m].op.Mkdir? && u < Target(w0, ts[m]);
      assert Stands(w0, ts[m], wn.fs);
      AncestorsAreDirs(wn.fs, Target(w0, ts[m]), u);
    } else if u in wn.fs && u !in w0.fs {
      var m := BroughtBy(w0, ts, |ts|, wn, u);
    }
  }

  lemma {:induction false} LengthBound(keys: set<Path>) returns (n: nat)
    ensures forall p :: p in keys ==> |p| < n
    decreases |keys|
  {
    n := 0;
    if keys != {} {
      var p :| p in keys;
      var m := LengthBound(keys - {p});
      n := if m > |p| then m else |p| + 1;
      forall q | q in keys ensures |q| < n { assert q == p || q in keys - {p}; }
    }
  }

  /** What is still there is there because of an unlisted directory. */
  lemma {:induction false} StaysForUnlisted(w0: World, wn: World, ts: seq<Item>, d: World, sts: seq<Status>, p: Path,
                                            bound: nat)
    requires |sts| == |ts| && GoodList(w0, ts) && RunState(w0, ts, |ts|, wn) && Undoing(w0, wn, ts, d, sts, 0)
    requires p in d.fs && p !in w0.fs && forall q :: q in d.fs ==> |q| < bound
    ensures Remains(w0, ts, p)
    decreases bound - |p|
  {
    if p in TargetsFrom(w0, ts, 0) {
      var j :| 0 <= j < |ts| && p == Target(w0, ts[j]);
      assert Handled(w0, ts[j], d, sts[j]);
      var q :| q in d.fs && p < q;
      if q in w0.fs { AncestorsAreDirs(w0.fs, q, p); }
      StaysForUnlisted(w0, wn, ts, d, sts, q, bound);
      var u :| q <= u && Unlisted(w0, ts, u);
      assert p <= u;
    } else {
      UnlistedIsMade(w0, wn, ts, p);
    }
  }

  /** Exactly those entries remain. */
  lemma WhatRemains(w0: World, wn: World, ts: seq<Item>, d: World, sts: seq<Status>, p: Path)
    requires |sts| == |ts| && GoodList(w0, ts) && RunState(w0, ts, |ts|, wn) && Undoing(w0, wn, ts, d, sts, 0)
    requires p !in w0.fs
    ensures p in d.fs <==> Remains(w0, ts, p)
    ensures p in d.fs ==> IsDir(d.fs, p) && AboveListed(w0, ts, p)
  {
    if p in d.fs {
      var bound := LengthBound(d.fs.Keys);
      StaysForUnlisted(w0, wn, ts, d, sts, p, bound);
    }
    if Remains(w0, ts, p) {
      var u :| p <= u && Unlisted(w0, ts, u);
      UnlistedIsMade(w0, wn, ts, u);
      assert u in d.fs && IsDir(d.fs, u);
      if p != u { AncestorsAreDirs(d.fs, u, p); }
      var m :| 0 <= m < |ts| && ts[m].op.Mkdir? && u < Target(w0, ts[m]);
      assert p < Target(w0, ts[m]);
    }
  }

  /** A gap is an unlisted directory below a listed one. */
  lemma GapIsUnlisted(w0: World, wn: World, ts: seq<Item>, i: nat, j: nat, p: Path)
    requires GoodList(w0, ts) && RunState(w0, ts, |ts|, wn) && i < |ts| && j < |ts|
    requires ts[i].op.Mkdir? && ts[j].op.Mkdir?
    requires Target(w0, ts[i]) < p && p < Target(w0, ts[j]) && !Listed(w0, ts, p)
    ensures Unlisted(w0, ts, p)
  {
    assert GoodItem(w0, ts, i) && Stands(w0, ts[j], wn.fs);
    AncestorsAreDirs(wn.fs, Target(w0, ts[j]), p);
    if p in w0.fs { AncestorsAreDirs(w0.fs, p, Target(w0, ts[i])); }
    forall m | 0 <= m < |ts| ensures p != Target(w0, ts[m]) { assert Stands(w0, ts[m], wn.fs); }
  }

  /** An unlisted directory below a listed one is a gap. */
  lemma UnlistedIsGap(w0: World, wn: World, ts: seq<Item>, j: nat)
    requires GoodList(w0, ts) && RunState(w0, ts, |ts|, wn) && j < |ts| && Remains(w0, ts, Target(w0, ts[j]))
    ensures !Gapless(w0, ts)
  {
    var k := Target(w0, ts[j]);
    var u :| k <= u && Unlisted(w0, ts, u);
    var m :| 0 <= m < |ts| && ts[m].op.Mkdir? && u < Target(w0, ts[m]);
    UnlistedIsMade(w0, wn, ts, u);
    assert k in TargetsFrom(w0, ts, 0) && u !in TargetsFrom(w0, ts, 0);
    assert k < u by { assert |k| == |u| ==> k == u; }
    AncestorsAreDirs(wn.fs, u, k);
    assert Stands(w0, ts[j], wn.fs);
    assert !Listed(w0, ts, u);
  }

  /** A list has no gaps if and only if no listed directory stands above an unlisted one. */
  lemma GaplessIffNothingRemains(w0: World, wn: World, ts: seq<Item>)
    requires GoodList(w0, ts) && RunState(w0, ts, |ts|, wn)
    ensures Gapless(w0, ts) <==> forall j :: 0 <= j < |ts| ==> !Remains(w0, ts, Target(w0, ts[j]))
  {
    if !Gapless(w0, ts) {
      var i, j, p :| 0 <= i < |ts| && 0 <= j < |ts| && ts[i].op.Mkdir? && ts[j].op.Mkdir?
        && Target(w0, ts[i]) < p && p < Target(w0, ts[j]) && !Listed(w0, ts, p);
      GapIsUnlisted(w0, wn, ts, i, j, p);
      assert Remains(w0, ts, Target(w0, ts[i]));
    } else {
      forall j | 0 <= j < |ts| ensures !Remains(w0, ts, Target(w0, ts[j])) {
        if Remains(w0, ts, Target(w0, ts[j])) { UnlistedIsGap(w0, wn, ts, j); }
      }
    }
  }

  /** What a deinstall run of a list that was installed from w0 ends with. */
  ghost predicate BackAgain(w0: World, ts: seq<Item>, d: World, sts: seq<Status>)
    requires |sts| == |ts| && forall j :: 0 <= j < |ts| ==> Ready(ts[j])
  {
    && Preserves(w0.fs, d.fs)
    && (forall p :: p !in w0.fs ==> (p in d.fs <==> Remains(w0, ts, p)))
    && (forall p :: p in d.fs && p !in w0.fs ==> IsDir(d.fs, p) && AboveListed(w0, ts, p))
    && (forall j :: 0 <= j < |ts| ==> (sts[j].Ok? <==> !Remains(w0, ts, Target(w0, ts[j]))))
  }

  /** Nothing of the initial state is lost. */
  lemma InitialStays(w0: World, wn: World, ts: seq<Item>, d: World, sts: seq<Status>)
    requires |sts| == |ts| && GoodList(w0, ts) && Undoing(w0, wn, ts, d, sts, 0)
    requires forall p :: p in w0.fs && (forall j :: 0 <= j < |ts| ==> p != Target(w0, ts[j])) ==>
      p in wn.fs && wn.fs[p] == w0.fs[p]
    ensures Preserves(w0.fs, d.fs)
  {
    forall p | p in w0.fs ensures p in d.fs && d.fs[p] == w0.fs[p] {
      forall j | 0 <= j < |ts| ensures p != Target(w0, ts[j]) { assert GoodItem(w0, ts, j); }
    }
  }

  /** The end of a deinstall run, in terms of the run of install before it. */
  lemma EndOfUndoing(w0: World, wn: World, ts: seq<Item>, d: World, sts: seq<Status>)
    requires |sts| == |ts| && GoodList(w0, ts) && RunState(w0, ts, |ts|, wn) && Undoing(w0, wn, ts, d, sts, 0)
    requires Preserves(w0.fs, d.fs)
    ensures BackAgain(w0, ts, d, sts)
  {
    forall p | p !in w0.fs
      ensures p in d.fs <==> Remains(w0, ts, p)
      ensures p in d.fs ==> IsDir(d.fs, p) && AboveListed(w0, ts, p)
    {
      WhatRemains(w0, wn, ts, d, sts, p);
    }
    forall j | 0 <= j < |ts| ensures sts[j].Ok? <==> !Remains(w0, ts, Target(w0, ts[j])) {
      assert GoodItem(w0, ts, j) && Handled(w0, ts[j], d, sts[j]);
    }
  }

  lemma AllRemovedIffGapless(w0: World, wn: World, ts: seq<Item>, d: World, sts: seq<Status>)
    requires |sts| == |ts| && GoodList(w0, ts) && RunState(w0, ts, |ts|, wn) && BackAgain(w0, ts, d, sts)
    ensures AllOk(sts) <==> Gapless(w0, ts)
  {
    GaplessIffNothingRemains(w0, wn, ts);
  }

  lemma CleanThenUndone(cfg: Config, proc: Process, dproc: Process, items: seq<Item>, ts: seq<Item>,
                        ws: seq<World>, ds: seq<World>, dsts: seq<Status>)
    requires CleanRun(cfg, proc, items, ts, ws) && GoodList(ws[0], ts) && AncestorsFirst(ws[0], ts)
    requires !dproc.faulty && DeinstallRun(cfg, dproc, items, false, ds, dsts) && ds[|items|] == ws[|items|]
    ensures BackAgain(ws[0], ts, ds[0], dsts) && RunState(ws[0], ts, |ts|, ws[|ts|])
  {
    CleanRunProgresses(cfg, proc, items, ts, ws);
    UndoneDownTo(cfg, proc, dproc, items, ts, ws, ds, dsts, 0);
    RunReaches(proc, ts, ws, |ts|);
    RunOnlyAdds(proc, ts, ws, 0, |ts|);
    InitialStays(ws[0], ws[|ts|], ts, ds[0], dsts);
    EndOfUndoing(ws[0], ws[|ts|], ts, ds[0], dsts);
  }

  /** An all-OK install of a list with ancestors first, and the deinstall of the same list, on a
      system that refuses nothing it could do.  In the end the file system is the initial one plus
      exactly the directories install_rmkdir made that nobody listed and those above them; each
      lies above a listed one.  A removal fails exactly for a listed directory that stands above an
      unlisted one; so all succeed if and only if the list has no gaps. */
  lemma InstallThenDeinstall(cfg: Config, proc: Process, dproc: Process, items: seq<Item>, ts: seq<Item>,
                             ws: seq<World>, sts: seq<Status>, ds: seq<World>, dsts: seq<Status>)
    requires InstallRun(cfg, proc, items, false, ws, sts) && AllOk(sts) && WellFormed(ws[0].fs)
    requires AsTranslated(cfg, items, ws, ts) && NoMkdirFailed(ws, ts)
    requires GoodList(ws[0], ts) && AncestorsFirst(ws[0], ts)
    requires !dproc.faulty && DeinstallRun(cfg, dproc, items, false, ds, dsts) && ds[|items|] == ws[|items|]
    ensures BackAgain(ws[0], ts, ds[0], dsts)
    ensures AllOk(dsts) <==> Gapless(ws[0], ts)
  {
    CleanFromRun(cfg, proc, items, ts, ws, sts);
    CleanThenUndone(cfg, proc, dproc, items, ts, ws, ds, dsts);
    AllRemovedIffGapless(ws[0], ws[|ts|], ts, ds[0], dsts);
  }
}
