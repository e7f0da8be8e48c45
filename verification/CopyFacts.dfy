/** The temporary name of a copy, and what a completed copy delivers. */
module CopyFacts {
  import opened Options
  import opened Paths
  import opened FileSystem
  import opened Lookup
  import opened OperatingSystem
  import opened FileCopy

  /** A destination that fills its buffer is its own temporary file: the suffix is cut off. */
  lemma TempIsDestination(dst: string)
    requires |dst| < PATH_MAX
    ensures TempName(dst) == dst <==> |dst| == PATH_MAX - 1
  {
  }

  /** One plain name in a directory. */
  lemma EntryIn(fs: Fs, cwd: Path, dir: string, name: string)
    requires dir != "" && name != "" && '/' !in name && name != "." && name != ".."
    ensures Entry(fs, cwd, dir + "/" + name) ==
            if LeadsToDir(fs, cwd, dir) then Some(Reach(fs, cwd, dir).value + [name]) else None
  {
    var at := From(cwd, dir);
    ComponentsJoin(dir, name);
    ComponentsOfName(name);
    assert From(cwd, dir + "/" + name) == at;
    LookJoin(fs, at, Components(dir), [name], false);
    var x := Look(fs, at, Components(dir), true);
    if x.Some? {
      LookBack(fs, at, Components(dir), true);
      assert Look(fs, x.value, [name], false)
          == Look(fs, Spot(Enter(x.value.path, name), x.value.hops, x.value.sure && IsDir(fs, x.value.path)),
                  [], false);
    }
  }

  /** With room for the suffix the temporary file stands beside the destination, under another
      name. */
  lemma TempStandsBeside(w: World, dir: string, name: string)
    requires dir != "" && name != "" && '/' !in name && name != "." && name != ".."
    requires |dir + "/" + name| + 4 < PATH_MAX && LeadsToDir(w.fs, w.cwd, dir)
    ensures var dst, p := dir + "/" + name, Reach(w.fs, w.cwd, dir).value;
      && Entry(w.fs, w.cwd, dst) == Some(p + [name]) && TempEntry(w, dst) == Some(p + [name + ".tmp"])
      && p + [name] != p + [name + ".tmp"]
  {
    var tmp, p := name + ".tmp", Reach(w.fs, w.cwd, dir).value;
    assert dir + "/" + name + ".tmp" == dir + "/" + tmp;
    assert |tmp| == |name| + 4 && tmp[|tmp| - 1] == 'p';
    EntryIn(w.fs, w.cwd, dir, name);
    EntryIn(w.fs, w.cwd, dir, tmp);
    assert (p + [name])[|p|] != (p + [tmp])[|p|];
  }

  /** A completed copy leaves a file if and only if the temporary name was free or a plain file (if
      it was a link, the link is what gets renamed); and the file has the bytes of its source if
      and only if the source was not the temporary file itself, which opening truncated, or was
      empty. */
  lemma CopyDelivers(proc: Process, w: World, src: string, dst: string, uid: int, gid: int, mode: Mode)
    requires CanCopy(proc, w, src, dst, uid)
    ensures var s, d, g := Reach(w.fs, w.cwd, src).value, Entry(w.fs, w.cwd, dst).value,
                           Copied(proc, w, src, dst, uid, gid, mode);
      && (IsFile(g, d) <==> PlainTemp(w, dst))
      && (PlainTemp(w, dst) ==>
            (g[d].content == w.fs[s].content <==> Some(s) != TempEntry(w, dst) || w.fs[s].content == []))
  {
    EntryAndReach(w.fs, w.cwd, TempName(dst));
  }

  /** Where the temporary file was, nothing is left; every other entry is as it was. */
  lemma CopyTouchesOnly(proc: Process, w: World, src: string, dst: string, uid: int, gid: int, mode: Mode)
    requires CanCopy(proc, w, src, dst, uid) && PlainTemp(w, dst)
    ensures var t, d, g := TempEntry(w, dst).value, Entry(w.fs, w.cwd, dst).value,
                           Copied(proc, w, src, dst, uid, gid, mode);
      && AgreeExcept(w.fs, g, {t, d}) && (t != d ==> t !in g)
  {
    EntryAndReach(w.fs, w.cwd, TempName(dst));
  }

  /** A walk when a link or nothing has become a file: it gets nowhere if it followed that link. */
  lemma {:induction false} LookReplaced(f: Fs, g: Fs, at: Spot, names: seq<string>, d: Path)
    requires forall p :: p != d ==>
      (IsDir(f, p) <==> IsDir(g, p)) && (IsSymlink(f, p) <==> IsSymlink(g, p)) && (IsSymlink(f, p) ==> g[p] == f[p])
    requires !IsDir(f, d) && !IsDir(g, d) && !IsSymlink(g, d)
    ensures var y := Look(g, at, names, false);
      if IsSymlink(f, d) && d in Passed(f, at, names, false) then !(y.Some? && y.value.sure)
      else y == Look(f, at, names, false)
    decreases at.hops, |names|
  {
    if names != [] {
      var q := Enter(at.path, names[0]);
      var sure := at.sure && IsDir(f, at.path);
      var next := Spot(q, at.hops, sure);
      if IsSymlink(f, q) && |names| > 1 {
        if q == d {
          LookBack(g, next, names[1..], false);
        } else {
          var target := f[q].target;
          if at.hops > 0 && target != "" {
            var there := Spot(Start(at.path, target), at.hops - 1, sure);
            PassedFlag(f, there, at.sure, Components(target) + names[1..], false);
            LookReplaced(f, g, there, Components(target) + names[1..], d);
          }
        }
      } else {
        PassedFlag(f, next, at.sure, names[1..], false);
        LookReplaced(f, g, next, names[1..], d);
      }
    }
  }

  /** The destination's own name leads to the new file, unless it passed through the very link that
      the file replaced. */
  lemma CopyIsNamed(proc: Process, w: World, src: string, dst: string, uid: int, gid: int, mode: Mode)
    requires CanCopy(proc, w, src, dst, uid) && PlainTemp(w, dst)
    ensures var d, g := Entry(w.fs, w.cwd, dst), Copied(proc, w, src, dst, uid, gid, mode);
      && IsFile(g, d.value)
      && (Entry(g, w.cwd, dst) == d <==>
            !(IsSymlink(w.fs, d.value) && d.value in Passed(w.fs, From(w.cwd, dst), Components(dst), false)))
  {
    CopyDelivers(proc, w, src, dst, uid, gid, mode);
    CopyTouchesOnly(proc, w, src, dst, uid, gid, mode);
    var t, d, g := TempEntry(w, dst).value, Entry(w.fs, w.cwd, dst).value, Copied(proc, w, src, dst, uid, gid, mode);
    forall p | p != d
      ensures (IsDir(w.fs, p) <==> IsDir(g, p)) && (IsSymlink(w.fs, p) <==> IsSymlink(g, p))
      ensures IsSymlink(w.fs, p) ==> g[p] == w.fs[p]
    {
      if p != t { assert At(w.fs, p) == At(g, p); }
    }
    LookReplaced(w.fs, g, From(w.cwd, dst), Components(dst), d);
  }
}
