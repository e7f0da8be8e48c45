/** install_rmkdir: make a directory and the directories leading to it. */
module MakeDirs {
  import opened Options
  import opened Paths
  import opened FileSystem
  import opened Lookup
  import opened OperatingSystem

  /** The prefixes of dir that end just after a slash at position from or later. */
  function SlashPrefixes(dir: string, from: nat): seq<string>
    requires from <= |dir|
    decreases |dir| - from
  {
    if from == |dir| then []
    else (if dir[from] == '/' then [dir[..from + 1]] else []) + SlashPrefixes(dir, from + 1)
  }

  /** The directories still to be asked for once the first from characters are dealt with. */
  function CallsFrom(dir: string, from: nat): seq<string>
    requires from < |dir|
  {
    SlashPrefixes(dir, from)
    + if dir[|dir| - 1] != '/' && |dir| < PATH_MAX - 1 then [dir + "/"] else []
  }

  /** The directories asked for, outermost first.  The last one gets a slash appended, which no
      longer fits when the name has 1023 characters; a longer name is refused at once. */
  function MakeDirCalls(dir: string): seq<string> {
    if dir == "" || |dir| >= PATH_MAX then [] else CallsFrom(dir, 0)
  }

  /** The calls still to come at a position, which may be past the end. */
  function Rest(dir: string, from: nat): seq<string> {
    if from < |dir| then CallsFrom(dir, from) else []
  }

  /** What one mkdir call leaves when it succeeds if it can. */
  function AfterCall(fs: Fs, cwd: Path, call: string, n: Node): Fs {
    if Creatable(fs, cwd, call) then fs[Entry(fs, cwd, call).value := n] else fs
  }

  /** What a run of mkdir calls leaves when each call that can succeed does. */
  function MakeAll(fs: Fs, cwd: Path, calls: seq<string>, n: Node): Fs
    decreases |calls|
  {
    if calls == [] then fs else MakeAll(AfterCall(fs, cwd, calls[0], n), cwd, calls[1..], n)
  }

  /** The calls that make their directory in such a run. */
  function MadeLog(fs: Fs, cwd: Path, calls: seq<string>, n: Node): seq<string>
    decreases |calls|
  {
    if calls == [] then []
    else (if Creatable(fs, cwd, calls[0]) then [calls[0]] else [])
         + MadeLog(AfterCall(fs, cwd, calls[0], n), cwd, calls[1..], n)
  }

  /** One of the strings names the entry. */
  ghost predicate MadeBy(w: World, calls: seq<string>, p: Path) {
    exists c :: c in calls && Entry(w.fs, w.cwd, c) == Some(p)
  }

  /** The string names an entry that the first world does not have. */
  predicate NamesNew(w: World, w': World, s: string) {
    var k := Entry(w'.fs, w'.cwd, s);
    k.Some? && k.value !in w.fs
  }

  /** Every logged call names something new. */
  ghost predicate LogNames(w0: World, w: World) {
    |w0.log| <= |w.log| && forall i :: |w0.log| <= i < |w.log| ==> NamesNew(w0, w, w.log[i])
  }

  /** Everything new was made by a logged call. */
  ghost predicate NewLogged(w0: World, w: World) {
    |w0.log| <= |w.log| && forall p :: p in w.fs && p !in w0.fs ==> MadeBy(w, w.log[|w0.log|..], p)
  }

  /** Everything new is the given node. */
  ghost predicate NewAre(w0: World, w: World, n: Node) {
    forall p :: p in w.fs && p !in w0.fs ==> w.fs[p] == n
  }

  /** How the world may change while mkdir is called on each of a list of strings: what is new was
      made by a logged call, and a logged call led nowhere before and names something new. */
  ghost predicate MadeDirs(proc: Process, w: World, calls: seq<string>, perm: Mode, w': World) {
    && w'.cwd == w.cwd
    && Preserves(w.fs, w'.fs)
    && LoggedOnly(w.log, w'.log, s => s in calls && Stat(w.fs, w.cwd, s).None?)
    && LogNames(w, w') && NewLogged(w, w') && NewAre(w, w', NewDir(proc, perm))
    && (WellFormed(w.fs) ==> WellFormed(w'.fs))
  }

  lemma {:induction false} NoSlashNoPrefix(dir: string, from: nat)
    requires from <= |dir| && forall i :: from <= i < |dir| ==> dir[i] != '/'
    ensures SlashPrefixes(dir, from) == []
    decreases |dir| - from
  {
    if from < |dir| { NoSlashNoPrefix(dir, from + 1); }
  }

  lemma {:induction false} NextSlash(dir: string, from: nat, at: nat)
    requires from <= at < |dir| && dir[at] == '/' && forall i :: from <= i < at ==> dir[i] != '/'
    ensures SlashPrefixes(dir, from) == [dir[..at + 1]] + SlashPrefixes(dir, at + 1)
    decreases at - from
  {
    if from < at { NextSlash(dir, from + 1, at); }
  }

  lemma {:induction false} SlashPrefixShape(dir: string, from: nat, s: string)
    requires from <= |dir| && s in SlashPrefixes(dir, from)
    ensures from < |s| <= |dir| && s == dir[..|s|] && dir[|s| - 1] == '/'
    decreases |dir| - from
  {
    if from < |dir| && s in SlashPrefixes(dir, from + 1) {
      SlashPrefixShape(dir, from + 1, s);
    }
  }

  /** A prefix that ends with a slash, and the rest. */
  lemma SlashPrefixSplits(dir: string, c: string) returns (a: string, b: string)
    requires c in SlashPrefixes(dir, 0)
    ensures c == a + "/" && dir == a + "/" + b
  {
    SlashPrefixShape(dir, 0, c);
    a, b := dir[..|c| - 1], dir[|c|..];
  }

  /** strchr (s + from, '/'): the next slash, or the length when there is none. */
  method FindSlash(s: string, from: nat) returns (at: nat)
    requires from <= |s|
    ensures from <= at <= |s|
    ensures forall i :: from <= i < at ==> s[i] != '/'
    ensures at < |s| ==> s[at] == '/'
  {
    at := from;
    while at < |s| && s[at] != '/'
      invariant from <= at <= |s|
      invariant forall i :: from <= i < at ==> s[i] != '/'
    {
      at := at + 1;
    }
  }

  /** Which call comes first, given the next slash. */
  lemma FirstCall(dir: string, from: nat, next: nat)
    requires from <= next <= |dir| < PATH_MAX && from < |dir|
    requires forall i :: from <= i < next ==> dir[i] != '/'
    requires next < |dir| ==> dir[next] == '/'
    ensures next < |dir| || |dir| < PATH_MAX - 1 ==> CallsFrom(dir, from) == [dir[..next] + "/"] + Rest(dir, next + 1)
    ensures next == |dir| == PATH_MAX - 1 ==> CallsFrom(dir, from) == []
    ensures next < |dir| ==> dir[..next + 1] == dir[..next] + "/"
  {
    if next == |dir| {
      NoSlashNoPrefix(dir, from);
      assert dir[..next] == dir;
    } else {
      NextSlash(dir, from, next);
      assert dir[..next + 1] == dir[..next] + "/";
    }
  }

  /** memcpy of the next name into the path buffer, a slash after it, and the terminator. */
  method AppendName(buf: array<char>, dir: string, from: nat, n: nat) returns (path: string)
    requires from + n + 1 < buf.Length && from + n <= |dir|
    requires buf[..from] == dir[..from]
    modifies buf
    ensures path == buf[..from + n + 1] == dir[..from + n] + "/" && buf[from + n + 1] == '\0'
  {
    forall i | 0 <= i < n {
      buf[from + i] := dir[from + i];
    }
    buf[from + n] := '/';
    buf[from + n + 1] := '\0';
    path := buf[..from + n + 1];
  }

  /** The next name of dir: its length, and the buffer up to the slash put after it. */
  method NextName(buf: array<char>, bufLen: nat, dir: string, from: nat) returns (pos: nat, path: string)
    requires from < |dir| < PATH_MAX == buf.Length && bufLen == buf.Length - from
    requires buf[..from] == dir[..from]
    modifies buf
    ensures from + pos <= |dir|
    ensures bufLen <= pos + 1 ==> Rest(dir, from) == []
    ensures bufLen > pos + 1 ==>
      && path == buf[..from + pos + 1]
      && (from + pos < |dir| ==> path == dir[..from + pos + 1])
      && Rest(dir, from) == [path] + Rest(dir, from + pos + 1)
  {
    var next := FindSlash(dir, from);
    pos := next - from;
    path := "";
    FirstCall(dir, from, next);
    if bufLen > pos + 1 {
      path := AppendName(buf, dir, from, pos);
    }
  }

  /** The state after the calls in done: what they made, and that they were made. */
  ghost predicate Asked(os: Os, w0: World, m0: seq<string>, done: seq<string>, perm: Mode)
    reads os
  {
    && MadeDirs(os.proc, w0, done, perm, os.W()) && os.mkdirCalls == m0 + done
    && (!os.proc.faulty ==> MadeAll(w0, done, NewDir(os.proc, perm), os.W()))
  }

  /** Every call that could make its directory did. */
  ghost predicate MadeAll(w0: World, done: seq<string>, n: Node, w: World) {
    && w.cwd == w0.cwd && w.fs == MakeAll(w0.fs, w0.cwd, done, n)
    && w.log == w0.log + MadeLog(w0.fs, w0.cwd, done, n)
  }

  /** One make_dir call that was made if it could be. */
  lemma OneOfAll(w0: World, done: seq<string>, path: string, n: Node, w: World, w': World)
    requires MadeAll(w0, done, n, w) && w'.cwd == w.cwd && w'.fs == AfterCall(w.fs, w.cwd, path, n)
    requires w'.log == w.log + if Creatable(w.fs, w.cwd, path) then [path] else []
    ensures MadeAll(w0, done + [path], n, w')
  {
    MakeAllAppend(w0.fs, w0.cwd, done, path, n);
  }

  /** One make_dir call and the test of its result. */
  method AskFor(os: Os, ghost w0: World, ghost m0: seq<string>, ghost done: seq<string>, path: string, perm: Mode,
                end: bool)
      returns (failed: bool)
    requires Asked(os, w0, m0, done, perm)
    modifies os`fs, os`log, os`trace, os`mkdirCalls
    ensures Asked(os, w0, m0, done + [path], perm)
    ensures os.mkdirFailure != -1 ==> !failed
  {
    ghost var before := os.W();
    var r, errno := os.MakeDir(path, perm);
    KeepsMade(os.proc, w0, done, before, path, perm, os.W());
    if !os.proc.faulty { OneOfAll(w0, done, path, NewDir(os.proc, perm), before, os.W()); }
    failed := false;
    if r == -1 {
      if !end {
        if errno != EEXIST && errno != EISDIR { failed := true; }
      } else {
        failed := true;
      }
    }
  }

  /** install_rmkdir.  Its verdict looks for -1 from make_dir; the platform tables return 0 for
      a failed mkdir, so there a failure is never noticed. */
  method Rmkdir(os: Os, dir: string, perm: Mode) returns (ok: bool)
    modifies os`fs, os`log, os`trace, os`mkdirCalls
    ensures MadeDirs(os.proc, old(os.W()), MakeDirCalls(dir), perm, os.W())
    ensures os.mkdirFailure != -1 ==> ok == (|dir| < PATH_MAX)
    ensures os.mkdirFailure != -1 ==> os.mkdirCalls == old(os.mkdirCalls) + MakeDirCalls(dir)
    ensures !os.proc.faulty && os.mkdirFailure != -1 ==>
      MadeAll(old(os.W()), MakeDirCalls(dir), NewDir(os.proc, perm), os.W())
  {
    ok := |dir| < PATH_MAX;
    if ok {
      ghost var w0 := os.W();
      ghost var done;
      ok, done := MakeEach(os, dir, perm);
      assert MadeDirs(os.proc, w0, done, perm, os.W());
      assert forall c :: c in done ==> c in MakeDirCalls(dir);
    }
  }

  /** One turn of the loop of install_rmkdir: the next name goes into the buffer, with a slash, and
      its directory is asked for; fits is false when there is no room left. */
  method MakeNext(os: Os, buf: array<char>, bufLen: nat, dir: string, from: nat, perm: Mode,
                  ghost w0: World, ghost m0: seq<string>, ghost done: seq<string>)
      returns (pos: nat, fits: bool, failed: bool, ghost done': seq<string>, ghost rest: seq<string>)
    requires from < |dir| < PATH_MAX == buf.Length && bufLen == buf.Length - from && buf[..from] == dir[..from]
    requires Asked(os, w0, m0, done, perm)
    modifies buf, os`fs, os`log, os`trace, os`mkdirCalls
    ensures from + pos <= |dir| && Asked(os, w0, m0, done', perm)
    ensures fits <==> bufLen > pos + 1
    ensures fits && from + pos < |dir| ==> buf[..from + pos + 1] == dir[..from + pos + 1]
    ensures done' + rest == done + Rest(dir, from)
    ensures fits ==> rest == Rest(dir, if from + pos < |dir| then from + pos + 1 else |dir|)
    ensures !fits ==> rest == []
    ensures failed ==> os.mkdirFailure == -1
  {
    var path;
    pos, path := NextName(buf, bufLen, dir, from);
    fits, failed, done', rest := bufLen > pos + 1, false, done, [];
    if fits {
      failed := AskFor(os, w0, m0, done, path, perm, from + pos == |dir|);
      MoveFirst(done, path, Rest(dir, from + pos + 1));
      done', rest := done + [path], Rest(dir, from + pos + 1);
    }
  }

  /** The loop of install_rmkdir; done holds the calls it made. */
  method MakeEach(os: Os, dir: string, perm: Mode) returns (ok: bool, ghost done: seq<string>)
    requires |dir| < PATH_MAX
    modifies os`fs, os`log, os`trace, os`mkdirCalls
    ensures Asked(os, old(os.W()), old(os.mkdirCalls), done, perm)
    ensures done <= MakeDirCalls(dir)
    ensures os.mkdirFailure != -1 ==> ok && done == MakeDirCalls(dir)
  {
    var pathBuf := new char[1024];
    var bufLen: nat := pathBuf.Length;
    var bufPos: nat := 0;
    var len: nat := |dir|;
    var ptr: nat := 0;
    ghost var w0, m0, rest := os.W(), os.mkdirCalls, MakeDirCalls(dir);
    ok, done := true, [];
    while len != 0
      invariant ptr + len == |dir| && bufPos + bufLen == pathBuf.Length
      invariant len > 0 ==> bufPos == ptr && pathBuf[..bufPos] == dir[..ptr]
      invariant done + rest == MakeDirCalls(dir)
      invariant rest == Rest(dir, ptr)
      invariant Asked(os, w0, m0, done, perm)
      decreases len
    {
      var pos, fits, failed;
      pos, fits, failed, done, rest := MakeNext(os, pathBuf, bufLen, dir, ptr, perm, w0, m0, done);
      if !fits { break; }
      bufPos := bufPos + pos + 1;
      bufLen := bufLen - pos - 1;
      if failed { ok := false; break; }
      ptr := ptr + pos;
      len := len - pos;
      if len != 0 {
        ptr := ptr + 1;
        len := len - 1;
      }
    }
  }

  lemma MoveFirst(done: seq<string>, path: string, rest: seq<string>)
    ensures done + ([path] + rest) == (done + [path]) + rest
  {
  }

  lemma {:induction false} MakeAllAppend(fs: Fs, cwd: Path, calls: seq<string>, last: string, n: Node)
    ensures var g := MakeAll(fs, cwd, calls, n);
      && MakeAll(fs, cwd, calls + [last], n) == AfterCall(g, cwd, last, n)
      && MadeLog(fs, cwd, calls + [last], n)
         == MadeLog(fs, cwd, calls, n) + if Creatable(g, cwd, last) then [last] else []
    decreases |calls|
  {
    if calls == [] {
      assert [] + [last] == [last] && [last][1..] == [];
    } else {
      assert (calls + [last])[1..] == calls[1..] + [last];
      MakeAllAppend(AfterCall(fs, cwd, calls[0], n), cwd, calls[1..], last, n);
    }
  }

  /** mkdir succeeds only on a string that has led nowhere so far. */
  lemma LedNowhere(w0: World, w: World, path: string)
    requires w.cwd == w0.cwd && Preserves(w0.fs, w.fs) && Creatable(w.fs, w.cwd, path)
    ensures Stat(w0.fs, w0.cwd, path).None?
  {
    if Stat(w0.fs, w0.cwd, path).Some? {
      ReachLater(w0.fs, w.fs, w0.cwd, path);
      EntryAndReach(w.fs, w.cwd, path);
    }
  }

  /** Strings logged so far go on naming what they named. */
  lemma StillNamesNew(w0: World, w: World, w': World, s: string)
    requires NamesNew(w0, w, s) && Preserves(w.fs, w'.fs) && w'.cwd == w.cwd
    ensures NamesNew(w0, w', s)
  {
    EntryLater(w.fs, w'.fs, w.cwd, s);
  }

  /** One more mkdir keeps the summary of the calls so far. */
  lemma KeepsMade(proc: Process, w0: World, done: seq<string>, w: World, path: string, perm: Mode, w': World)
    requires MadeDirs(proc, w0, done, perm, w)
    requires w'.cwd == w.cwd
    requires w' == w ||
      (Creatable(w.fs, w.cwd, path) && w'.fs == w.fs[Entry(w.fs, w.cwd, path).value := NewDir(proc, perm)]
       && w'.log == w.log + [path])
    ensures MadeDirs(proc, w0, done + [path], perm, w')
  {
    assert forall c :: c in done ==> c in done + [path];
    if w' != w { OneMade(proc, w0, done, w, path, perm, w'); }
  }

  lemma LogNamesOn(w0: World, w: World, path: string, n: Node, w': World)
    requires LogNames(w0, w) && Preserves(w0.fs, w.fs) && w'.cwd == w.cwd && Creatable(w.fs, w.cwd, path)
    requires w'.fs == w.fs[Entry(w.fs, w.cwd, path).value := n] && w'.log == w.log + [path]
    ensures LogNames(w0, w')
  {
    EntryLater(w.fs, w'.fs, w.cwd, path);
    forall i | |w0.log| <= i < |w'.log| ensures NamesNew(w0, w', w'.log[i]) {
      if i < |w.log| { StillNamesNew(w0, w, w', w.log[i]); }
    }
  }

  lemma StillMade(w: World, w': World, calls: seq<string>, calls': seq<string>, p: Path)
    requires MadeBy(w, calls, p) && Preserves(w.fs, w'.fs) && w'.cwd == w.cwd && forall c :: c in calls ==> c in calls'
    ensures MadeBy(w', calls', p)
  {
    var c := NamedBy(w, calls, p);
    EntryLater(w.fs, w'.fs, w.cwd, c);
  }

  lemma NewLoggedOn(w0: World, w: World, path: string, n: Node, w': World)
    requires NewLogged(w0, w) && w'.cwd == w.cwd && Creatable(w.fs, w.cwd, path)
    requires w'.fs == w.fs[Entry(w.fs, w.cwd, path).value := n] && w'.log == w.log + [path]
    ensures NewLogged(w0, w')
  {
    var calls, calls' := w.log[|w0.log|..], w'.log[|w0.log|..];
    assert calls' == calls + [path];
    EntryLater(w.fs, w'.fs, w.cwd, path);
    forall p | p in w'.fs && p !in w0.fs ensures MadeBy(w', calls', p) {
      if p in w.fs { StillMade(w, w', calls, calls', p); } else { assert path in calls'; }
    }
  }

  lemma LedNowhereOn(w0: World, done: seq<string>, w: World, path: string, w': World)
    requires LoggedOnly(w0.log, w.log, s => s in done && Stat(w0.fs, w0.cwd, s).None?)
    requires w.cwd == w0.cwd && Preserves(w0.fs, w.fs) && Creatable(w.fs, w.cwd, path) && w'.log == w.log + [path]
    ensures LoggedOnly(w0.log, w'.log, s => s in done + [path] && Stat(w0.fs, w0.cwd, s).None?)
  {
    LedNowhere(w0, w, path);
    assert path in done + [path];
    forall c | c in done ensures c in done + [path] {}
  }

  lemma NewAreOn(w0: World, w: World, k: Path, n: Node, w': World)
    requires Preserves(w0.fs, w.fs) && NewAre(w0, w, n) && k !in w.fs && w'.fs == w.fs[k := n]
    ensures Preserves(w0.fs, w'.fs) && NewAre(w0, w', n)
  {
  }

  /** The case that a directory is made. */
  lemma OneMade(proc: Process, w0: World, done: seq<string>, w: World, path: string, perm: Mode, w': World)
    requires MadeDirs(proc, w0, done, perm, w) && w'.cwd == w.cwd && Creatable(w.fs, w.cwd, path)
    requires w'.fs == w.fs[Entry(w.fs, w.cwd, path).value := NewDir(proc, perm)] && w'.log == w.log + [path]
    ensures MadeDirs(proc, w0, done + [path], perm, w')
  {
    LedNowhereOn(w0, done, w, path, w');
    LogNamesOn(w0, w, path, NewDir(proc, perm), w');
    NewLoggedOn(w0, w, path, NewDir(proc, perm), w');
    NewAreOn(w0, w, Entry(w.fs, w.cwd, path).value, NewDir(proc, perm), w');
    if WellFormed(w0.fs) { WellFormedAfterCreate(w.fs, Entry(w.fs, w.cwd, path).value, NewDir(proc, perm)); }
  }

  ghost function NamedBy(w: World, calls: seq<string>, p: Path): (c: string)
    requires MadeBy(w, calls, p)
    ensures c in calls && Entry(w.fs, w.cwd, c) == Some(p)
  {
    var c :| c in calls && Entry(w.fs, w.cwd, c) == Some(p);
    c
  }
}
