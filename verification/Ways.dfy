/** When the way to a path is open: every directory a walk looks a name up in is there. */
module Ways {
  import opened Options
  import opened Paths
  import opened FileSystem
  import opened Lookup

  /** The directories a walk looks names up in. */
  function Steps(fs: Fs, at: Spot, names: seq<string>, last: bool): set<Path>
    decreases at.hops, |names|
  {
    if names == [] then {}
    else
      var q := Enter(at.path, names[0]);
      if IsSymlink(fs, q) && (|names| > 1 || last) then
        var target := fs[q].target;
        if at.hops == 0 || target == "" then {at.path}
        else {at.path}
             + Steps(fs, Spot(Start(at.path, target), at.hops - 1, at.sure), Components(target) + names[1..], last)
      else {at.path} + Steps(fs, Spot(q, at.hops, at.sure), names[1..], last)
  }

  /** A walk whose directories have all been made, with no new link in its way, is sure. */
  lemma {:induction false} LookSure(f: Fs, g: Fs, at: Spot, names: seq<string>, last: bool)
    requires at.sure && Later(f, g) && Undiverted(f, g, at, names, last)
    requires forall p :: p in Steps(f, at, names, last) ==> IsDir(g, p)
    ensures Look(g, at, names, last).Some? ==> Look(g, at, names, last).value.sure
    decreases at.hops, |names|
  {
    if names != [] {
      var q := Enter(at.path, names[0]);
      assert at.path in Steps(f, at, names, last);
      if |names| > 1 || last { assert q in Passed(f, at, names, last); }
      if IsSymlink(f, q) && (|names| > 1 || last) {
        var target := f[q].target;
        if at.hops > 0 && target != "" {
          LookSure(f, g, Spot(Start(at.path, target), at.hops - 1, true), Components(target) + names[1..], last);
        }
      } else {
        LookSure(f, g, Spot(q, at.hops, true), names[1..], last);
      }
    }
  }

  /** What a sure walk names and is not there can be created. */
  lemma {:induction false} FreeIsCreatable(fs: Fs, at: Spot, names: seq<string>)
    requires WellFormed(fs) && names != []
    requires var x := Look(fs, at, names, false); x.Some? && x.value.sure && x.value.path !in fs
    ensures CanCreate(fs, Look(fs, at, names, false).value.path)
    decreases at.hops, |names|
  {
    var q := Enter(at.path, names[0]);
    var sure := at.sure && IsDir(fs, at.path);
    LookBack(fs, at, names, false);
    if |names| == 1 {
      assert Look(fs, at, names, false) == Look(fs, Spot(q, at.hops, sure), [], false);
      assert IsDir(fs, at.path) && IsDir(fs, Parent(at.path));
      assert q == at.path + [names[0]] && Parent(q) == at.path;
    } else if IsSymlink(fs, q) {
      FreeIsCreatable(fs, Spot(Start(at.path, fs[q].target), at.hops - 1, sure), Components(fs[q].target) + names[1..]);
    } else {
      FreeIsCreatable(fs, Spot(q, at.hops, sure), names[1..]);
    }
  }

  /** A walk passes everything a shorter one passes. */
  lemma {:induction false} PassedPrefix(fs: Fs, at: Spot, a: seq<string>, b: seq<string>, last: bool)
    ensures Passed(fs, at, a, last) <= Passed(fs, at, a + b, last)
    decreases at.hops, |a|
  {
    if |a| > 1 || (a != [] && last) {
      var q := Enter(at.path, a[0]);
      assert (a + b)[1..] == a[1..] + b;
      if IsSymlink(fs, q) {
        var target := fs[q].target;
        if at.hops > 0 && target != "" {
          assert Components(target) + (a[1..] + b) == Components(target) + a[1..] + b;
          PassedPrefix(fs, Spot(Start(at.path, target), at.hops - 1, at.sure), Components(target) + a[1..], b, last);
        }
      } else {
        PassedPrefix(fs, Spot(q, at.hops, at.sure), a[1..], b, last);
      }
    }
  }

  /** What is entered on the way to a directory is a directory or a link. */
  lemma NextOnWay(fs: Fs, at: Spot, names: seq<string>) returns (next: Spot, rest: seq<string>)
    requires names != [] && LeadsAlong(fs, at, names)
    ensures var q := Enter(at.path, names[0]);
      && IsDir(fs, at.path) && at.sure && q in Passed(fs, at, names, true)
      && Look(fs, next, rest, true) == Look(fs, at, names, true) && LeadsAlong(fs, next, rest)
      && Passed(fs, at, names, true) == {q} + Passed(fs, next, rest, true) && next.sure && next.hops <= at.hops
      && (IsSymlink(fs, q) ==>
            at.hops > 0 && next == Spot(Start(at.path, fs[q].target), at.hops - 1, true)
            && rest == Components(fs[q].target) + names[1..])
      && (!IsSymlink(fs, q) ==> IsDir(fs, q) && next == Spot(q, at.hops, true) && rest == names[1..])
  {
    var q := Enter(at.path, names[0]);
    LookBack(fs, at, names, true);
    if IsSymlink(fs, q) {
      next, rest := Spot(Start(at.path, fs[q].target), at.hops - 1, true), Components(fs[q].target) + names[1..];
    } else {
      next, rest := Spot(q, at.hops, true), names[1..];
      LookBack(fs, next, rest, true);
    }
  }

  /** A walk to a directory stays the same while directories and the links it follows do. */
  lemma {:induction false} LookKept(f: Fs, g: Fs, at: Spot, names: seq<string>)
    requires LeadsAlong(f, at, names) && forall p :: IsDir(f, p) ==> IsDir(g, p)
    requires forall q :: q in Passed(f, at, names, true) && IsSymlink(f, q) ==> q in g && g[q] == f[q]
    ensures Look(g, at, names, true) == Look(f, at, names, true)
    ensures Passed(g, at, names, true) == Passed(f, at, names, true)
    ensures forall q :: q in Passed(f, at, names, true) ==> (IsSymlink(f, q) <==> IsSymlink(g, q))
    decreases at.hops, |names|
  {
    if names != [] {
      var q := Enter(at.path, names[0]);
      var sure := at.sure && IsDir(f, at.path);
      LookBack(f, at, names, true);
      assert q in Passed(f, at, names, true);
      if IsSymlink(f, q) {
        var next := Spot(Start(at.path, f[q].target), at.hops - 1, sure);
        PassedFlag(f, next, at.sure, Components(f[q].target) + names[1..], true);
        PassedFlag(g, next, at.sure, Components(f[q].target) + names[1..], true);
        LookKept(f, g, next, Components(f[q].target) + names[1..]);
      } else {
        var next := Spot(q, at.hops, sure);
        LookBack(f, next, names[1..], true);
        PassedFlag(f, next, at.sure, names[1..], true);
        PassedFlag(g, next, at.sure, names[1..], true);
        LookKept(f, g, next, names[1..]);
      }
    }
  }

  /** Directories stay, and links on the way stay or are no longer links, or directories instead. */
  ghost predicate Hardly(f: Fs, g: Fs, links: set<Path>) {
    && (forall p :: IsDir(f, p) ==> IsDir(g, p))
    && forall q :: q in links ==> (q in f && q in g && g[q] == f[q]) || !(IsDir(g, q) || IsSymlink(g, q))
  }

  /** The way to a directory then names nothing but what was on it. */
  lemma {:induction false} LookNamesOld(f: Fs, g: Fs, at: Spot, names: seq<string>, links: set<Path>)
    requires LeadsAlong(f, at, names) && Hardly(f, g, links)
    requires forall q :: q in Passed(f, at, names, true) && IsSymlink(f, q) ==> q in links
    ensures var e := Look(g, at, names, false);
      e.Some? && e.value.sure ==> IsDir(f, e.value.path) || e.value.path in links
    decreases at.hops, |names|
  {
    if names != [] {
      var q := Enter(at.path, names[0]);
      var next, rest := NextOnWay(f, at, names);
      if |names| == 1 {
        assert Look(g, at, names, false) == Look(g, Spot(q, at.hops, at.sure && IsDir(g, at.path)), [], false);
      } else if IsSymlink(f, q) && !IsSymlink(g, q) {
        LookBack(g, Spot(q, at.hops, true), names[1..], false);
      } else {
        LookNamesOld(f, g, next, rest, links);
      }
    }
  }

  /** And it leads to a directory only along the links as they were, to the same directory. */
  lemma {:induction false} LookSameIfAny(f: Fs, g: Fs, at: Spot, names: seq<string>, links: set<Path>)
    requires LeadsAlong(f, at, names) && Hardly(f, g, links)
    requires forall q :: q in Passed(f, at, names, true) && IsSymlink(f, q) ==> q in links
    ensures LeadsAlong(g, at, names) ==>
      && Look(g, at, names, true) == Look(f, at, names, true)
      && forall q :: q in Passed(f, at, names, true) ==> (IsSymlink(f, q) <==> IsSymlink(g, q))
    decreases at.hops, |names|
  {
    if names != [] {
      var q := Enter(at.path, names[0]);
      var next, rest := NextOnWay(f, at, names);
      if IsSymlink(f, q) && !IsSymlink(g, q) {
        LookBack(g, Spot(q, at.hops, true), names[1..], true);
        assert Look(g, at, names, true) == Look(g, Spot(q, at.hops, true), names[1..], true);
      } else {
        LookSameIfAny(f, g, next, rest, links);
        assert Look(g, at, names, true) == Look(g, next, rest, true);
      }
    }
  }

  /** A link that is followed on the way to a directory leads to a directory. */
  lemma {:induction false} WayLinkLeads(fs: Fs, at: Spot, names: seq<string>, l: Path) returns (hops: nat)
    requires WellFormed(fs) && LeadsAlong(fs, at, names) && l in Passed(fs, at, names, true) && IsSymlink(fs, l)
    ensures LeadsAlong(fs, Spot(Start(Parent(l), fs[l].target), hops, true), Components(fs[l].target))
    decreases at.hops, |names|
  {
    var q := Enter(at.path, names[0]);
    var next, rest := NextOnWay(fs, at, names);
    if q == l {
      LinkHasParent(fs, at.path, names[0]);
      var target := Components(fs[l].target);
      if names[1..] == [] { assert rest == target; } else { NothingBeyond(fs, next, target, names[1..], true); }
      hops := next.hops;
    } else {
      hops := WayLinkLeads(fs, next, rest, l);
    }
  }

  /** A link is entered from the directory it stands in. */
  lemma LinkHasParent(fs: Fs, p: Path, name: string)
    requires WellFormed(fs) && IsDir(fs, p) && !IsDir(fs, Enter(p, name))
    ensures Parent(Enter(p, name)) == p && Enter(p, name) == p + [name]
  {
    assert p != [] ==> IsDir(fs, Parent(p));
  }

  /** A path that names such a link cannot be opened for writing. */
  lemma WayLinkNotWritable(fs: Fs, cwd: Path, s: string, l: Path, hops: nat)
    requires WellFormed(fs) && Entry(fs, cwd, s) == Some(l) && IsSymlink(fs, l)
    requires LeadsAlong(fs, Spot(Start(Parent(l), fs[l].target), hops, true), Components(fs[l].target))
    ensures !Writable(fs, cwd, s)
  {
    var names, at := Components(s), From(cwd, s);
    if names != [] {
      var front, name := names[..|names| - 1], names[|names| - 1];
      assert names == front + [name];
      LookJoin(fs, at, front, [name], false);
      LookJoin(fs, at, front, [name], true);
      var x := Look(fs, at, front, true).value;
      assert Look(fs, x, [name], false)
          == Look(fs, Spot(Enter(x.path, name), x.hops, x.sure && IsDir(fs, x.path)), [], false);
      LinkHasParent(fs, x.path, name);
      LinkGoesThere(fs, x, name, l, hops);
    }
  }

  lemma LinkGoesThere(fs: Fs, x: Spot, name: string, l: Path, hops: nat)
    requires l == Enter(x.path, name) && Parent(l) == x.path && IsSymlink(fs, l) && x.sure && IsDir(fs, x.path)
    requires LeadsAlong(fs, Spot(Start(Parent(l), fs[l].target), hops, true), Components(fs[l].target))
    ensures var y := Look(fs, x, [name], true); y.Some? ==> IsDir(fs, y.value.path)
  {
    var target := fs[l].target;
    if x.hops > 0 && target != "" {
      var next, names := Spot(Start(x.path, target), x.hops - 1, true), Components(target);
      assert names + [name][1..] == names;
      if Look(fs, next, names, true).Some? {
        LookMoreHops(fs, next, names, true, hops);
        LookMoreHops(fs, next.(hops := hops), names, true, x.hops - 1);
      }
    }
  }
}
