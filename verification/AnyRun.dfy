/** What holds of every run, whatever the list and whatever fails: dry runs, the working
    directory, and verdicts. */
module AnyRun {
  import opened Options
  import opened Paths
  import opened FileSystem
  import opened Lookup
  import opened OperatingSystem
  import opened FileCopy
  import opened Translate
  import opened Operators
  import opened Engine
  import opened Footprint

  /** An item that comes back OK leaves the process where it was. */
  lemma OkKeepsCwd(cfg: Config, proc: Process, w: World, it: Item, dry: bool, w': World, st: Status)
    requires Sane(it) && InstallStep(cfg, proc, w, it, dry, w', st)
    ensures st.Ok? ==> w'.cwd == w.cwd
    ensures w'.cwd != w.cwd ==> IsLink(it.op) && (proc.faulty || !IsDir(w.fs, w.cwd))
  {
  }

  /** A dry run of install changes no entry and logs nothing. */
  lemma {:induction false} DryInstall(cfg: Config, proc: Process, items: seq<Item>, ws: seq<World>, sts: seq<Status>,
                                      n: nat)
    requires InstallRun(cfg, proc, items, true, ws, sts) && n <= |items|
    ensures ws[n].fs == ws[0].fs && ws[n].log == ws[0].log
    ensures !proc.faulty && IsDir(ws[0].fs, ws[0].cwd) ==> ws[n] == ws[0]
    decreases n
  {
    if n > 0 {
      DryInstall(cfg, proc, items, ws, sts, n - 1);
      assert InstallAt(cfg, proc, items, true, ws, sts, n - 1);
      OkKeepsCwd(cfg, proc, ws[n - 1], items[n - 1], true, ws[n], sts[n - 1]);
    }
  }

  /** A dry run of deinstall changes nothing at all. */
  lemma {:induction false} DryDeinstall(cfg: Config, proc: Process, items: seq<Item>, ws: seq<World>,
                                        sts: seq<Status>, n: nat)
    requires DeinstallRun(cfg, proc, items, true, ws, sts) && n <= |items|
    ensures ws[n] == ws[|items|]
    decreases |items| - n
  {
    if n < |items| {
      DryDeinstall(cfg, proc, items, ws, sts, n + 1);
      assert DeinstallAt(cfg, proc, items, true, ws, sts, n);
    }
  }

  /** Deinstalling never adds or alters an entry, and keeps the tree a tree. */
  lemma {:induction false} DeinstallOnlyRemoves(cfg: Config, proc: Process, items: seq<Item>, dry: bool,
                                                ws: seq<World>, sts: seq<Status>, n: nat)
    requires DeinstallRun(cfg, proc, items, dry, ws, sts) && n <= |items|
    ensures Preserves(ws[n].fs, ws[|items|].fs) && ws[n].cwd == ws[|items|].cwd
    ensures WellFormed(ws[|items|].fs) ==> WellFormed(ws[n].fs)
    decreases |items| - n
  {
    if n < |items| {
      DeinstallOnlyRemoves(cfg, proc, items, dry, ws, sts, n + 1);
      var w, w' := ws[n + 1], ws[n];
      assert DeinstallAt(cfg, proc, items, dry, ws, sts, n);
      if w' != w && WellFormed(w.fs) {
        var t := Translated(cfg, w.fs, w.cwd, items[n]).value;
        assert CanRemove(w.fs, w.cwd, t);
        WellFormedAfterRemove(w.fs, Entry(w.fs, w.cwd, RemovedPath(t)).value);
      }
    }
  }
}
