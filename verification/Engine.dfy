/** install, install_check and deinstall, and the three driver loops over the item list. */
module Engine {
  import opened Options
  import opened Paths
  import opened FileSystem
  import opened OperatingSystem
  import opened FileCopy
  import opened Translate
  import opened Operators

  method Install(cfg: Config, os: Os, item: InstallItem, dry: bool) returns (st: Status)
    requires Sane(item.View()) && os.mkdirFailure != -1
    modifies item, os
    ensures InstallStep(cfg, os.proc, old(os.W()), old(item.View()), dry, os.W(), st) && !st.Fatal?
  {
    st := Ntran(cfg, os, item);
    if !st.Ok? { return; }
    match item.op
    case Copy => st := InstCopy(os, item, dry);
    case CopyExec => st := InstCopy(os, item, dry);
    case Symlink => st := InstLink(os, item, dry);
    case Mkdir => st := InstMkdir(os, item, dry);
    case LibLink => st := InstLink(os, item, dry);
  }

  /** install_check; counted says whether install_failed goes up. */
  method InstallCheck(cfg: Config, os: Os, item: InstallItem) returns (st: Status, counted: bool)
    requires Sane(item.View())
    modifies item
    ensures CheckStep(cfg, os.proc, os.W(), old(item.View()), st, counted) && !st.Fatal?
  {
    counted := false;
    st := NtranChk(cfg, os, item);
    if !st.Ok? { return; }
    var id;
    st, id := UidGidLookup(os.proc, item.owner, item.group);
    if !st.Ok? { return; }
    var it := item.View();
    st := InstallFileCheck(os, CheckedSource(it), item.perm, CheckedType(item.op), id, CheckedPath(it));
    counted := !st.Ok?;
  }

  method Deinstall(cfg: Config, os: Os, item: InstallItem, dry: bool) returns (st: Status)
    requires Sane(item.View())
    modifies item, os`fs, os`trace, os`log
    ensures DeinstallStep(cfg, os.proc, old(os.W()), old(item.View()), dry, os.W(), st) && !st.Fatal?
  {
    st := Ntran(cfg, os, item);
    if !st.Ok? { return; }
    st := DeinstOp(os, item, dry);
  }

  // ---- whole runs

  ghost predicate InstallAt(cfg: Config, proc: Process, items: seq<Item>, dry: bool, ws: seq<World>, sts: seq<Status>,
                            i: nat)
    requires i < |items| && i + 1 < |ws| && i < |sts|
  {
    Sane(items[i]) && InstallStep(cfg, proc, ws[i], items[i], dry, ws[i + 1], sts[i])
  }

  ghost predicate CheckAt(cfg: Config, proc: Process, items: seq<Item>, w: World, sts: seq<Status>,
                          counted: seq<bool>, i: nat)
    requires i < |items| && i < |sts| && i < |counted|
  {
    Sane(items[i]) && CheckStep(cfg, proc, w, items[i], sts[i], counted[i])
  }

  ghost predicate DeinstallAt(cfg: Config, proc: Process, items: seq<Item>, dry: bool, ws: seq<World>,
                              sts: seq<Status>, i: nat)
    requires i < |items| && i + 1 < |ws| && i < |sts|
  {
    Sane(items[i]) && DeinstallStep(cfg, proc, ws[i + 1], items[i], dry, ws[i], sts[i])
  }

  /** ws[i] is the world before item i and ws[i + 1] the world after it. */
  ghost predicate InstalledSoFar(cfg: Config, proc: Process, items: seq<Item>, dry: bool, ws: seq<World>,
                                 sts: seq<Status>) {
    && |ws| == |sts| + 1 && |sts| <= |items|
    && forall i :: 0 <= i < |sts| ==> InstallAt(cfg, proc, items, dry, ws, sts, i)
  }

  ghost predicate InstallRun(cfg: Config, proc: Process, items: seq<Item>, dry: bool, ws: seq<World>,
                             sts: seq<Status>) {
    InstalledSoFar(cfg, proc, items, dry, ws, sts) && |sts| == |items|
  }

  ghost predicate CheckedSoFar(cfg: Config, proc: Process, items: seq<Item>, w: World, sts: seq<Status>,
                               counted: seq<bool>) {
    && |sts| == |counted| <= |items|
    && forall i :: 0 <= i < |sts| ==> CheckAt(cfg, proc, items, w, sts, counted, i)
  }

  /** The world does not change; counted[i] says whether item i raised install_failed. */
  ghost predicate CheckRun(cfg: Config, proc: Process, items: seq<Item>, w: World, sts: seq<Status>,
                           counted: seq<bool>) {
    CheckedSoFar(cfg, proc, items, w, sts, counted) && |sts| == |items|
  }

  /** The list is taken from its end: ws[i + 1] is the world before item i and ws[i] after it. */
  ghost predicate DeinstalledDownTo(cfg: Config, proc: Process, items: seq<Item>, dry: bool,
                                    ws: seq<World>, sts: seq<Status>, n: nat) {
    && |ws| == |items| + 1 && |sts| == |items|
    && forall i :: n <= i < |items| ==> DeinstallAt(cfg, proc, items, dry, ws, sts, i)
  }

  ghost predicate DeinstallRun(cfg: Config, proc: Process, items: seq<Item>, dry: bool, ws: seq<World>,
                               sts: seq<Status>) {
    DeinstalledDownTo(cfg, proc, items, dry, ws, sts, 0)
  }

  lemma OneMoreInstalled(cfg: Config, proc: Process, items: seq<Item>, dry: bool, ws: seq<World>, sts: seq<Status>,
                         w': World, st: Status)
    requires InstalledSoFar(cfg, proc, items, dry, ws, sts) && |sts| < |items| && Sane(items[|sts|])
    requires InstallStep(cfg, proc, ws[|sts|], items[|sts|], dry, w', st)
    ensures InstalledSoFar(cfg, proc, items, dry, ws + [w'], sts + [st])
  {
    forall i | 0 <= i < |sts + [st]| ensures InstallAt(cfg, proc, items, dry, ws + [w'], sts + [st], i) {
      if i < |sts| { assert InstallAt(cfg, proc, items, dry, ws, sts, i); }
    }
  }

  lemma OneMoreChecked(cfg: Config, proc: Process, items: seq<Item>, w: World, sts: seq<Status>, counted: seq<bool>,
                       st: Status, bad: bool)
    requires CheckedSoFar(cfg, proc, items, w, sts, counted) && |sts| < |items| && Sane(items[|sts|])
    requires CheckStep(cfg, proc, w, items[|sts|], st, bad)
    ensures CheckedSoFar(cfg, proc, items, w, sts + [st], counted + [bad])
  {
    forall i | 0 <= i < |sts + [st]| ensures CheckAt(cfg, proc, items, w, sts + [st], counted + [bad], i) {
      if i < |sts| { assert CheckAt(cfg, proc, items, w, sts, counted, i); }
    }
  }

  lemma OneMoreDeinstalled(cfg: Config, proc: Process, items: seq<Item>, dry: bool, ws: seq<World>, sts: seq<Status>,
                           n: nat, w': World, st: Status)
    requires n < |items| && DeinstalledDownTo(cfg, proc, items, dry, ws, sts, n + 1) && Sane(items[n])
    requires DeinstallStep(cfg, proc, ws[n + 1], items[n], dry, w', st)
    ensures DeinstalledDownTo(cfg, proc, items, dry, ws[n := w'], sts[n := st], n)
  {
    var ws', sts' := ws[n := w'], sts[n := st];
    forall i | n <= i < |items| ensures DeinstallAt(cfg, proc, items, dry, ws', sts', i) {
      if i > n { assert DeinstallAt(cfg, proc, items, dry, ws, sts, i); }
    }
  }

  function Views(hier: seq<InstallItem>): (items: seq<Item>)
    reads hier
    ensures |items| == |hier| && forall i :: 0 <= i < |hier| ==> items[i] == hier[i].View()
  {
    if hier == [] then [] else [hier[0].View()] + Views(hier[1..])
  }

  ghost predicate DistinctItems(hier: seq<InstallItem>) {
    forall i, j :: 0 <= i < j < |hier| ==> hier[i] != hier[j]
  }

  function Count(flags: seq<bool>): nat {
    if flags == [] then 0 else Count(flags[..|flags| - 1]) + if flags[|flags| - 1] then 1 else 0
  }

  /** installer: every item is installed once, in order, whatever happened before it. */
  method Installer(cfg: Config, os: Os, hier: seq<InstallItem>, dry: bool)
      returns (sts: seq<Status>, ghost ws: seq<World>)
    requires DistinctItems(hier) && os.mkdirFailure != -1
    requires forall i :: 0 <= i < |hier| ==> Sane(hier[i].View())
    modifies hier, os
    ensures InstallRun(cfg, os.proc, old(Views(hier)), dry, ws, sts)
    ensures ws[0] == old(os.W()) && ws[|hier|] == os.W()
  {
    ghost var items := Views(hier);
    sts, ws := [], [os.W()];
    for index := 0 to |hier|
      invariant |sts| == index && InstalledSoFar(cfg, os.proc, items, dry, ws, sts)
      invariant ws[0] == old(os.W()) && ws[index] == os.W()
      invariant forall i :: index <= i < |hier| ==> hier[i].View() == items[i]
    {
      var st := Install(cfg, os, hier[index], dry);
      match st {
        case Ok =>
        case Error(_) =>
        case Fatal => assert false;
      }
      OneMoreInstalled(cfg, os.proc, items, dry, ws, sts, os.W(), st);
      sts, ws := sts + [st], ws + [os.W()];
    }
  }

  /** instchk: the exit code is 1 when some file check failed. */
  method Instchk(cfg: Config, os: Os, hier: seq<InstallItem>)
      returns (sts: seq<Status>, ghost counted: seq<bool>, failed: nat, exitCode: int)
    requires DistinctItems(hier)
    requires forall i :: 0 <= i < |hier| ==> Sane(hier[i].View())
    modifies hier
    ensures CheckRun(cfg, os.proc, old(Views(hier)), os.W(), sts, counted)
    ensures failed == Count(counted)
    ensures exitCode == if true in counted then 1 else 0
  {
    ghost var items := Views(hier);
    sts, counted, failed := [], [], 0;
    for index := 0 to |hier|
      invariant |sts| == index && CheckedSoFar(cfg, os.proc, items, os.W(), sts, counted)
      invariant forall i :: index <= i < |hier| ==> hier[i].View() == items[i]
      invariant failed == Count(counted) && (failed != 0 <==> true in counted)
    {
      var st, bad := InstallCheck(cfg, os, hier[index]);
      match st {
        case Ok =>
        case Error(_) =>
        case Fatal => assert false;
      }
      assert (counted + [bad])[..index] == counted;
      OneMoreChecked(cfg, os.proc, items, os.W(), sts, counted, st, bad);
      sts, counted := sts + [st], counted + [bad];
      if bad { failed := failed + 1; }
    }
    exitCode := if failed != 0 then 1 else 0;
  }

  /** deinstaller: from the last item down to the first.  The loop counts an unsigned index down
      from length - 1, so the list must not be empty. */
  method Deinstaller(cfg: Config, os: Os, hier: seq<InstallItem>, dry: bool)
      returns (sts: seq<Status>, ghost ws: seq<World>)
    requires DistinctItems(hier) && hier != []
    requires forall i :: 0 <= i < |hier| ==> Sane(hier[i].View())
    modifies hier, os`fs, os`trace, os`log
    ensures DeinstallRun(cfg, os.proc, old(Views(hier)), dry, ws, sts)
    ensures ws[|hier|] == old(os.W()) && ws[0] == os.W()
  {
    ghost var items := Views(hier);
    ghost var w0 := os.W();
    sts := seq(|hier|, _ => Ok);
    ws := seq(|hier| + 1, _ => w0);
    var index := |hier| - 1;
    while true
      invariant 0 <= index < |hier| && DeinstalledDownTo(cfg, os.proc, items, dry, ws, sts, index + 1)
      invariant ws[index + 1] == os.W() && ws[|hier|] == w0
      invariant forall i :: 0 <= i <= index ==> hier[i].View() == items[i]
      decreases index
    {
      var st := Deinstall(cfg, os, hier[index], dry);
      match st {
        case Ok =>
        case Error(_) =>
        case Fatal => assert false;
      }
      OneMoreDeinstalled(cfg, os.proc, items, dry, ws, sts, index, os.W(), st);
      sts, ws := sts[index := st], ws[index := os.W()];
      if index == 0 { break; }
      index := index - 1;
    }
  }
}
