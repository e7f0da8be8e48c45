/** Where the translated names of an item lead: for every configuration, with a fake root and without. */
module TranslatedNames {
  import opened Options
  import opened Paths
  import opened FileSystem
  import opened Lookup
  import opened FileCopy
  import opened Names
  import opened Translate

  /** A name as given, or read from the virtual library file it names. */
  ghost function Meant(fs: Fs, cwd: Path, s: string): Option<string> {
    if exists p :: s == p + ".vlb" then LibNameOf(fs, cwd, s) else Some(s)
  }

  /** What a copy item is to be called: its destination, or else its source. */
  function CalledAs(it: Item): string
    requires it.src.Some?
  {
    match it.dst
    case Some(name) => name
    case None => it.src.value
  }

  /** The last name of a path; "." for the empty one, and a slash for one of slashes. */
  function LastPartOf(s: string): string {
    var names := Components(s);
    if names != [] then names[|names| - 1] else if s == "" then "." else "/"
  }

  /** s starts its walk where the root starts, or the directory if there is no root, and goes down the
      names of both, and then those of the tail. */
  predicate GoesTo(cfg: Config, dir: string, tail: string, s: string) {
    match cfg.fakeRoot
    case Some(root) =>
      && Components(s) == Components(root) + Components(dir) + Components(tail)
      && (IsAbsolute(s) <==> root == "" || IsAbsolute(root))
    case None =>
      && Components(s) == Components(dir) + Components(tail)
      && (IsAbsolute(s) <==> IsAbsolute(dir) || (dir == "" && tail != ""))
  }

  /** The root, if any, the directory and the tail leave room for the terminator. */
  predicate HasRoom(cfg: Config, dir: string, tail: string) {
    (match cfg.fakeRoot case Some(root) => |root| + 1 case None => 0) + |dir| + 1 + |tail| < 1024
  }

  /** A directory and a name, below the root if there is one, as one path. */
  function WholePath(cfg: Config, dir: string, tail: string): string {
    if cfg.fakeRoot.Some? then cfg.fakeRoot.value + "/" + (dir + "/" + tail) else dir + "/" + tail
  }

  lemma JoinGoes(cfg: Config, dir: string, tail: string)
    requires tail != "" && HasRoom(cfg, dir, tail)
    ensures GoesTo(cfg, dir, tail, Format(WholePath(cfg, dir, tail)))
  {
    ComponentsJoin(dir, tail);
    if cfg.fakeRoot.Some? {
      var root := cfg.fakeRoot.value;
      ComponentsJoin(root, dir + "/" + tail);
      assert Components(root) + (Components(dir) + Components(tail))
          == Components(root) + Components(dir) + Components(tail);
    }
  }

  lemma RootedGoes(cfg: Config, dir: string)
    requires HasRoom(cfg, dir, "")
    ensures GoesTo(cfg, dir, "", Rooted(cfg, dir))
  {
    if cfg.fakeRoot.Some? { ComponentsJoin(cfg.fakeRoot.value, dir); }
  }

  /** What a copy item needs: a source and a directory, names that can be read, and room for the one
      it is called by. */
  ghost predicate CanBeCalled(fs: Fs, cwd: Path, it: Item) {
    && it.src.Some? && it.dir.Some?
    && Meant(fs, cwd, it.src.value).Some?
    && Meant(fs, cwd, CalledAs(it)).Some? && |Meant(fs, cwd, CalledAs(it)).value| < 1024
  }

  lemma CopyItemIs(cfg: Config, fs: Fs, cwd: Path, it: Item)
    ensures var r := CopyItem(cfg, fs, cwd, it);
      && (r.Success? <==> CanBeCalled(fs, cwd, it))
      && (r.Success? ==>
            var tail := LastPartOf(Meant(fs, cwd, CalledAs(it)).value);
            && tail != "" && r.value.src == Meant(fs, cwd, it.src.value)
            && r.value.dst == Some(Format(WholePath(cfg, it.dir.value, tail))))
  {
    if it.src.Some? {
      MeantIsReal(fs, cwd, it.src.value);
      MeantIsReal(fs, cwd, CalledAs(it));
    }
    if CanBeCalled(fs, cwd, it) { LastPartIsBase(Meant(fs, cwd, CalledAs(it)).value); }
  }

  lemma MeantIsReal(fs: Fs, cwd: Path, s: string)
    ensures Meant(fs, cwd, s) == RealName(fs, cwd, s)
  {
  }

  lemma LastPartIsBase(s: string)
    ensures LastPartOf(s) == BaseNameOf(s) && LastPartOf(s) != ""
  {
    BaseNameIsName(s);
  }

  /** COPY: the source, and [root/]dir/name, name being the last part of the name meant. */
  lemma CopyIsCalled(cfg: Config, fs: Fs, cwd: Path, it: Item)
    requires it.op.Copy?
    ensures var r := Translated(cfg, fs, cwd, it);
      && (r.Success? <==> CanBeCalled(fs, cwd, it))
      && (r.Success? ==>
            var tail := LastPartOf(Meant(fs, cwd, CalledAs(it)).value);
            && r.value.src == Meant(fs, cwd, it.src.value)
            && (HasRoom(cfg, it.dir.value, tail) ==> GoesTo(cfg, it.dir.value, tail, r.value.dst.value)))
  {
    CopyItemIs(cfg, fs, cwd, it);
    if CanBeCalled(fs, cwd, it) {
      var tail := LastPartOf(Meant(fs, cwd, CalledAs(it)).value);
      if HasRoom(cfg, it.dir.value, tail) { JoinGoes(cfg, it.dir.value, tail); }
    }
  }

  /** A suffix to the path is one to its last part. */
  lemma SuffixJoins(cfg: Config, dir: string, base: string, suffix: string)
    requires HasRoom(cfg, dir, base + suffix)
    ensures Format(Format(WholePath(cfg, dir, base)) + suffix) == Format(WholePath(cfg, dir, base + suffix))
  {
    assert dir + "/" + base + suffix == dir + "/" + (base + suffix);
    if cfg.fakeRoot.Some? {
      var root := cfg.fakeRoot.value;
      assert root + "/" + (dir + "/" + base) + suffix == root + "/" + (dir + "/" + (base + suffix));
    }
  }

  /** COPY_EXEC: both with the suffix of executables. */
  lemma CopyExecIsCalled(cfg: Config, fs: Fs, cwd: Path, it: Item)
    requires it.op.CopyExec?
    ensures var r, suffix := Translated(cfg, fs, cwd, it), cfg.execSuffix;
      && (r.Success? <==> CanBeCalled(fs, cwd, it))
      && (r.Success? ==>
            var src := Meant(fs, cwd, it.src.value).value;
            var tail := LastPartOf(Meant(fs, cwd, CalledAs(it)).value) + suffix;
            && (|src| + |suffix| < 1024 ==> r.value.src == Some(src + suffix))
            && (HasRoom(cfg, it.dir.value, tail) ==> GoesTo(cfg, it.dir.value, tail, r.value.dst.value)))
  {
    CopyItemIs(cfg, fs, cwd, it);
    if CanBeCalled(fs, cwd, it) {
      var dir, base := it.dir.value, LastPartOf(Meant(fs, cwd, CalledAs(it)).value);
      if HasRoom(cfg, dir, base + cfg.execSuffix) {
        SuffixJoins(cfg, dir, base, cfg.execSuffix);
        JoinGoes(cfg, dir, base + cfg.execSuffix);
      }
    }
  }

  /** For a name with a part in it and a suffix without slashes the tail is one name. */
  lemma TailIsName(s: string, suffix: string)
    requires Components(s) != [] && '/' !in suffix
    ensures Components(LastPartOf(s) + suffix) == [LastPartOf(s) + suffix]
  {
    LastHasNoSlash(s);
    NoSlashJoined(LastPartOf(s), suffix);
  }

  lemma NoSlashJoined(name: string, suffix: string)
    requires name != "" && '/' !in name && '/' !in suffix
    ensures Components(name + suffix) == [name + suffix]
  {
    var tail := name + suffix;
    ComponentsOfName(tail);
  }

  lemma LastHasNoSlash(s: string)
    requires Components(s) != []
    ensures '/' !in LastPartOf(s) && LastPartOf(s) != ""
  {
    NamesHaveNoSlash(s);
    assert LastPartOf(s) in Components(s);
  }

  /** SYMLINK: only the directory changes. */
  lemma LinkIsCalled(cfg: Config, fs: Fs, cwd: Path, it: Item)
    requires it.op.Symlink?
    ensures var r := Translated(cfg, fs, cwd, it);
      && (r.Success? <==> it.src.Some? && it.dir.Some? && it.dst.Some?)
      && (r.Success? ==>
            && r.value.src == it.src && r.value.dst == it.dst
            && (cfg.fakeRoot.None? ==> r.value.dir == it.dir)
            && (HasRoom(cfg, it.dir.value, "") ==> GoesTo(cfg, it.dir.value, "", r.value.dir.value)))
  {
    if it.dir.Some? && HasRoom(cfg, it.dir.value, "") { RootedGoes(cfg, it.dir.value); }
  }

  /** MKDIR: always. */
  lemma MkdirIsCalled(cfg: Config, fs: Fs, cwd: Path, it: Item)
    requires it.op.Mkdir? && it.dir.Some?
    ensures var r := Translated(cfg, fs, cwd, it);
      && r.Success? && (cfg.fakeRoot.None? ==> r.value.dir == it.dir)
      && (HasRoom(cfg, it.dir.value, "") ==> GoesTo(cfg, it.dir.value, "", r.value.dir.value))
  {
    if HasRoom(cfg, it.dir.value, "") { RootedGoes(cfg, it.dir.value); }
  }

  /** LIBLINK: as SYMLINK; the destination is its last part with the library suffix, and a source that
      names a virtual library file is the last part of what the file holds. */
  lemma LibLinkIsCalled(cfg: Config, fs: Fs, cwd: Path, it: Item)
    requires it.op.LibLink?
    ensures var r, given := Translated(cfg, fs, cwd, it), it.src.Some? && it.dir.Some? && it.dst.Some?;
      && (r.Success? <==> given && Meant(fs, cwd, it.src.value).Some? && |it.dst.value| < 1024)
      && (r.Success? ==>
            var src, base := it.src.value, LastPartOf(it.dst.value);
            && r.value.src == Some(if exists p :: src == p + ".vlb" then LastPartOf(Meant(fs, cwd, src).value) else src)
            && (|base| + |cfg.dlibSuffix| < 1024 ==> r.value.dst == Some(base + cfg.dlibSuffix))
            && (cfg.fakeRoot.None? ==> r.value.dir == it.dir)
            && (HasRoom(cfg, it.dir.value, "") ==> GoesTo(cfg, it.dir.value, "", r.value.dir.value)))
  {
    if it.dir.Some? && HasRoom(cfg, it.dir.value, "") { RootedGoes(cfg, it.dir.value); }
  }

  /** For the check, a link's destination is put below its directory, and nothing else changes. */
  lemma CheckedLinkIsCalled(cfg: Config, fs: Fs, cwd: Path, it: Item)
    requires Sane(it)
    ensures var r, c := Translated(cfg, fs, cwd, it), CheckTranslated(cfg, fs, cwd, it);
      && (c.Success? <==> r.Success?)
      && (c.Success? && !it.op.Symlink? && !it.op.LibLink? ==> c == r)
      && (c.Success? && (it.op.Symlink? || it.op.LibLink?) ==>
            && c.value == r.value.(dst := c.value.dst) && c.value.dst.Some?
            && var dir, name, s := r.value.dir.value, r.value.dst.value, c.value.dst.value;
               |dir| + 1 + |name| < 1024 ==>
                 && Components(s) == Components(dir) + Components(name)
                 && (IsAbsolute(s) <==> dir == "" || IsAbsolute(dir)))
  {
    var r := Translated(cfg, fs, cwd, it);
    if r.Success? && (it.op.Symlink? || it.op.LibLink?) { ComponentsJoin(r.value.dir.value, r.value.dst.value); }
  }
}
