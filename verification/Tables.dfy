/** Three parallel operator tables, one place in the file system: where install puts an item,
    where install_check looks for it, and what deinstall removes. */
module Tables {
  import opened Options
  import opened Paths
  import opened FileSystem
  import opened Lookup
  import opened OperatingSystem
  import opened FileCopy
  import opened CopyFacts
  import opened Translate
  import opened Operators
  import opened Footprint

  predicate Plain(names: seq<string>) {
    "." !in names && ".." !in names
  }

  /** A walk down plain names that meets no link. */
  lemma {:induction false} LookPlain(fs: Fs, at: Spot, names: seq<string>, last: bool)
    requires Plain(names) && forall q :: q in Passed(fs, at, names, last) ==> !IsSymlink(fs, q)
    ensures Look(fs, at, names, last).Some? && Look(fs, at, names, last).value.path == at.path + names
    decreases |names|
  {
    if names != [] {
      var q := Enter(at.path, names[0]);
      var next := Spot(q, at.hops, at.sure && IsDir(fs, at.path));
      if |names| > 1 || last { assert q in Passed(fs, at, names, last); }
      PassedFlag(fs, next, at.sure, names[1..], last);
      LookPlain(fs, next, names[1..], last);
      assert at.path + [names[0]] + names[1..] == at.path + names;
    }
  }

  /** install_check looks at the very path string deinstall removes. */
  lemma CheckedIsRemoved(cfg: Config, fs: Fs, cwd: Path, it: Item)
    requires Sane(it)
    ensures CheckTranslated(cfg, fs, cwd, it).Success? <==> Translated(cfg, fs, cwd, it).Success?
    ensures Translated(cfg, fs, cwd, it).Success? ==>
      CheckedPath(CheckTranslated(cfg, fs, cwd, it).value) == RemovedPath(Translated(cfg, fs, cwd, it).value)
  {
  }

  /** Where an installed link is, as seen from its directory. */
  lemma LinkedIsThere(proc: Process, w: World, t: Item, w': World)
    requires Ready(t) && IsLink(t.op) && LinkStep(proc, w, t, false, w', Ok)
    ensures w'.cwd == w.cwd && LeadsToDir(w.fs, w.cwd, t.dir.value) && Linkable(w, t)
    ensures LeadsToDir(w'.fs, w'.cwd, t.dir.value) && LinkDir(w', t) == LinkDir(w, t)
    ensures Entry(w'.fs, LinkDir(w, t), t.dst.value) == Some(LinkKey(w, t))
    ensures Look(w'.fs, From(LinkDir(w, t), t.dst.value), Components(t.dst.value), false)
            == Look(w.fs, From(LinkDir(w, t), t.dst.value), Components(t.dst.value), false)
  {
    ReachLater(w.fs, w'.fs, w.cwd, t.dir.value);
    LookLater(w.fs, w'.fs, From(LinkDir(w, t), t.dst.value), Components(t.dst.value), false);
  }

  /** A path formatted from a directory and a name goes on from where the directory leads. */
  lemma PathGoesOn(fs: Fs, cwd: Path, dir: string, dst: string)
    requires LeadsToDir(fs, cwd, dir) && Components(dst) != []
    ensures var path, there := Place(fs, cwd, dir + "/" + dst),
                               Look(fs, Spot(Reach(fs, cwd, dir).value, SYMLOOP_MAX, true), Components(dst), false);
      && (path.Some? ==> there.Some? && path.value == there.value.path)
      && (Entry(fs, cwd, dir + "/" + dst).Some? <==> path.Some? && there.value.sure)
      && ('/' !in dst ==> path.Some?)
  {
    var at, names := From(cwd, dir), Components(dst);
    ComponentsJoin(dir, dst);
    LookJoin(fs, at, Components(dir), names, false);
    var x := Look(fs, at, Components(dir), true).value;
    LookBack(fs, at, Components(dir), true);
    if Look(fs, x, names, false).Some? { LookMoreHops(fs, x, names, false, SYMLOOP_MAX - x.hops); }
    if '/' !in dst && dst != "" { ComponentsOfName(dst); }
  }

  /** The link a relative name gets through chdir stands where check and deinstall look, at the path
      formatted from directory and name, unless that path takes more than SYMLOOP_MAX links; for a
      name without a slash there is no such condition. */
  lemma LinkLandsOnTarget(proc: Process, w: World, t: Item, w': World)
    requires Ready(t) && IsLink(t.op) && LinkStep(proc, w, t, false, w', Ok)
    requires !IsAbsolute(t.dst.value) && |t.dir.value + "/" + t.dst.value| < PATH_MAX
    ensures LeadsToDir(w.fs, w.cwd, t.dir.value) && Linkable(w, t) && w'.fs[LinkKey(w, t)] == Link(t.src.value)
    ensures Lands(w', t, LinkKey(w, t)) <==> Place(w'.fs, w'.cwd, RemovedPath(t)).Some?
    ensures '/' !in t.dst.value ==> Lands(w', t, LinkKey(w, t))
  {
    LinkedIsThere(proc, w, t, w');
    SomeComponent(t.dst.value);
    PathGoesOn(w'.fs, w'.cwd, t.dir.value, t.dst.value);
  }

  /** An absolute name: chdir makes no difference to the link, so with no links on either way it
      stands where deinstall looks if and only if its directory is "/". */
  lemma AbsoluteLinkLands(proc: Process, w: World, t: Item, w': World)
    requires Ready(t) && IsLink(t.op) && LinkStep(proc, w, t, false, w', Ok)
    requires IsAbsolute(t.dst.value) && |t.dir.value + "/" + t.dst.value| < PATH_MAX && Plain(Components(t.dst.value))
    requires NoLinks(w'.fs, [], Components(t.dst.value))
    requires LeadsToDir(w.fs, w.cwd, t.dir.value) ==> NoLinks(w'.fs, LinkDir(w, t), Components(t.dst.value))
    ensures LeadsToDir(w.fs, w.cwd, t.dir.value) && Linkable(w, t)
    ensures LinkDir(w, t) != [] ==> !Lands(w', t, LinkKey(w, t))
    ensures LinkDir(w, t) == [] ==> (Lands(w', t, LinkKey(w, t)) <==> Place(w'.fs, w'.cwd, RemovedPath(t)).Some?)
  {
    LinkedIsThere(proc, w, t, w');
    var d, names := LinkDir(w, t), Components(t.dst.value);
    PathGoesOn(w'.fs, w'.cwd, t.dir.value, t.dst.value);
    LookPlain(w'.fs, Spot([], SYMLOOP_MAX, true), names, false);
    LookPlain(w'.fs, Spot(d, SYMLOOP_MAX, true), names, false);
    assert |d + names| > |[] + names| <==> d != [];
  }

  /** No link on the way down the names from p. */
  ghost predicate NoLinks(fs: Fs, p: Path, names: seq<string>) {
    forall q :: q in Passed(fs, Spot(p, SYMLOOP_MAX, true), names, false) ==> !IsSymlink(fs, q)
  }

  /** A completed copy, with a temporary name that was free or a plain file, stands at the path
      deinstall removes, unless that path led through the very link the copy replaced. */
  lemma CopyLandsOnTarget(proc: Process, w: World, t: Item, w': World)
    requires Ready(t) && IsCopy(t.op) && CopyItemStep(proc, w, t, false, w', Ok) && PlainTemp(w, t.dst.value)
    ensures Entry(w.fs, w.cwd, t.dst.value).Some?
    ensures var k := Entry(w.fs, w.cwd, t.dst.value).value;
      && IsFile(w'.fs, k)
      && (Lands(w', t, k) <==>
            !(IsSymlink(w.fs, k) && k in Passed(w.fs, From(w.cwd, t.dst.value), Components(t.dst.value), false)))
  {
    var id := Ids(proc, t.owner, t.group).value;
    CopyIsNamed(proc, w, t.src.value, t.dst.value, id.uid, id.gid, t.perm);
  }
}
