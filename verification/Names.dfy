/** base_name, str_ends and libname. */
module Names {
  import opened Options
  import opened Paths
  import opened FileSystem
  import opened Lookup
  import opened OperatingSystem

  /** The last name of a path; "." for the empty string, "/" when there is no name. */
  function BaseNameOf(s: string): string {
    var c := Components(s);
    if s == "" then "." else if c == [] then "/" else c[|c| - 1]
  }

  lemma {:induction false} NamesHaveNoSlash(s: string)
    ensures forall c :: c in Components(s) ==> c != "" && '/' !in c
    decreases |s|
  {
    if s != "" {
      if s[0] == '/' {
        NamesHaveNoSlash(s[1..]);
      } else {
        var n := NameLength(s);
        NamesHaveNoSlash(s[n..]);
        assert s[..n] != "";
      }
    }
  }

  /** base_name never returns a path with a directory part, except for "/" itself. */
  lemma BaseNameIsName(s: string)
    ensures BaseNameOf(s) != ""
    ensures '/' in BaseNameOf(s) <==> s != "" && Components(s) == []
    ensures BaseNameOf(s) != "/" ==> '/' !in BaseNameOf(s)
  {
  }

  lemma {:induction false} SlashesHaveNoNames(s: string)
    requires forall i :: 0 <= i < |s| ==> s[i] == '/'
    ensures Components(s) == []
    decreases |s|
  {
    if s != "" { SlashesHaveNoNames(s[1..]); }
  }

  lemma NameThenSlashes(s: string, n: nat)
    requires 0 < n <= |s| && '/' !in s[..n] && forall i :: n <= i < |s| ==> s[i] == '/'
    ensures Components(s) == [s[..n]]
  {
    var name := s[..n];
    ComponentsOfName(name);
    if n == |s| {
      assert s == name;
    } else {
      var rest := s[n + 1..];
      assert s == name + "/" + rest;
      SlashesHaveNoNames(rest);
      ComponentsJoin(name, rest);
    }
  }

  lemma LastNameEndsAt(s: string, u: nat, t: nat)
    requires u <= t < |s| && forall i :: u <= i <= t ==> s[i] != '/'
    requires forall i :: t < i < |s| ==> s[i] == '/'
    requires u == 0 || s[u - 1] == '/'
    ensures var c := Components(s); c != [] && c[|c| - 1] == s[u..t + 1]
  {
    var tail := s[u..];
    assert tail[..t + 1 - u] == s[u..t + 1];
    NameThenSlashes(tail, t + 1 - u);
    if u > 0 {
      assert s == s[..u - 1] + "/" + tail;
      ComponentsJoin(s[..u - 1], tail);
    }
  }

  predicate OnlySlashes(s: string) {
    forall i :: 0 <= i < |s| ==> s[i] == '/'
  }

  /** b stands in dir from u to t, after a slash or nothing, with nothing but slashes behind it. */
  predicate LastPart(dir: string, b: string, u: nat, t: nat) {
    && u < t <= |dir| && b == dir[u..t] && '/' !in b
    && (u == 0 || dir[u - 1] == '/') && OnlySlashes(dir[t..])
  }

  /** There is only one such place. */
  lemma LastPartIsOne(dir: string, b: string, u: nat, t: nat, b': string, u': nat, t': nat)
    requires LastPart(dir, b, u, t) && LastPart(dir, b', u', t')
    ensures b == b' && u == u' && t == t'
  {
    PartOf(dir, b, u, t);
    PartOf(dir, b', u', t');
    assert dir[t - 1] != '/' && dir[t' - 1] != '/';
  }

  lemma PartOf(dir: string, b: string, u: nat, t: nat)
    requires LastPart(dir, b, u, t)
    ensures forall i :: u <= i < t ==> dir[i] != '/'
    ensures forall i :: t <= i < |dir| ==> dir[i] == '/'
  {
    forall i | u <= i < t ensures dir[i] != '/' { assert dir[i] == b[i - u]; }
    forall i | t <= i < |dir| ensures dir[i] == '/' { assert dir[i] == dir[t..][i - t]; }
  }

  /** base_name of a path that ends in a name is that name. */
  lemma BaseNameOfJoin(a: string, name: string)
    requires name != "" && '/' !in name
    ensures BaseNameOf(a + "/" + name) == name && BaseNameOf(name) == name
  {
    ComponentsJoin(a, name);
    ComponentsOfName(name);
  }

  lemma EndIsBaseName(dir: string)
    ensures forall k :: 0 < k < |dir| && dir[k - 1] == '/' && '/' !in dir[k..] ==> BaseNameOf(dir) == dir[k..]
  {
    forall k | 0 < k < |dir| && dir[k - 1] == '/' && '/' !in dir[k..] ensures BaseNameOf(dir) == dir[k..] {
      assert dir == dir[..k - 1] + "/" + dir[k..];
      BaseNameOfJoin(dir[..k - 1], dir[k..]);
    }
  }

  /** base_name: None when the path does not fit the buffer. */
  method BaseName(dir: string) returns (r: Option<string>)
    ensures r == if |dir| < PATH_MAX then Some(BaseNameOf(dir)) else None
    ensures r.Some? <==> |dir| < PATH_MAX
    ensures r.Some? && !OnlySlashes(dir) ==>
      exists u: nat, t: nat :: LastPart(dir, r.value, u, t)
    ensures forall k :: 0 < k < |dir| < PATH_MAX && dir[k - 1] == '/' && '/' !in dir[k..] ==> r == Some(dir[k..])
    ensures r.Some? && OnlySlashes(dir) ==> r.value == if dir == "" then "." else "/"
  {
    if |dir| == 0 { return Some("."); }
    if |dir| >= PATH_MAX { return None; }
    var t := |dir| - 1;
    while t > 0 && dir[t] == '/'
      invariant 0 <= t < |dir|
      invariant forall i :: t < i < |dir| ==> dir[i] == '/'
    {
      t := t - 1;
    }
    if t == 0 && dir[t] == '/' {
      SlashesHaveNoNames(dir);
      assert forall k :: 0 < k < |dir| ==> dir[k..][0] == '/';
      return Some("/");
    }
    var u := t;
    while u > 0 && dir[u - 1] != '/'
      invariant 0 <= u <= t
      invariant forall i :: u <= i <= t ==> dir[i] != '/'
    {
      u := u - 1;
    }
    LastNameEndsAt(dir, u, t);
    assert LastPart(dir, dir[u..t + 1], u, t + 1);
    EndIsBaseName(dir);
    return Some(dir[u..t + 1]);
  }

  /** str_ends: end is a suffix of s. */
  predicate StrEnds(s: string, end: string): (b: bool)
    ensures b <==> exists p :: s == p + end
  {
    var n := if |end| > |s| then |s| else |end|;
    assert s[|s| - n..] == end ==> s == s[..|s| - n] + end;
    s[|s| - n..] == end
  }

  /** Space, tab, newline, carriage return. */
  const BLANKS: set<Byte> := {32, 9, 10, 13}

  /** The bytes before the first of the given ones. */
  function Until(bytes: seq<Byte>, stop: set<Byte>): seq<Byte> {
    if bytes == [] || bytes[0] in stop then [] else [bytes[0]] + Until(bytes[1..], stop)
  }

  function AsString(bytes: seq<Byte>): string {
    seq(|bytes|, i requires 0 <= i < |bytes| => bytes[i] as char)
  }

  /** The name a virtual library file stands for: its first token, up to a NUL if it holds one.
      None when the file cannot be opened, or the token leaves no room for its terminator. */
  function LibNameOf(fs: Fs, cwd: Path, name: string): Option<string> {
    var k := Reach(fs, cwd, name);
    if k.None? || !IsFile(fs, k.value) then None
    else
      var content := fs[k.value].content;
      var token := Until(content[..if |content| < PATH_MAX then |content| else PATH_MAX], BLANKS);
      if |token| == PATH_MAX then None else Some(AsString(Until(token, {0})))
  }

  lemma {:induction false} UntilPrefix(bytes: seq<Byte>, n: nat, stop: set<Byte>)
    requires n <= |bytes| && forall i :: 0 <= i < n ==> bytes[i] !in stop
    requires n < |bytes| ==> bytes[n] in stop
    ensures Until(bytes, stop) == bytes[..n]
    decreases n
  {
    if n > 0 { UntilPrefix(bytes[1..], n - 1, stop); }
  }

  lemma LibNameFits(fs: Fs, cwd: Path, name: string)
    ensures LibNameOf(fs, cwd, name).Some? ==> |LibNameOf(fs, cwd, name).value| < PATH_MAX
  {
    var k := Reach(fs, cwd, name);
    if k.Some? && IsFile(fs, k.value) {
      var content := fs[k.value].content;
      var head := content[..if |content| < PATH_MAX then |content| else PATH_MAX];
      UntilIsFirst(head, BLANKS);
      UntilIsFirst(Until(head, BLANKS), {0});
    }
  }

  /** The bytes up to a position hold neither a blank nor a NUL, and one of them follows, or nothing. */
  predicate FirstToken(content: seq<Byte>, n: nat) {
    && n <= |content|
    && (forall i :: 0 <= i < n ==> content[i] !in {0, 9, 10, 13, 32})
    && (n < |content| ==> content[n] in {0, 9, 10, 13, 32})
  }

  /** There is no blank in what is read, which is all that fits. */
  predicate TooLong(content: seq<Byte>) {
    |content| >= 1024 && forall i :: 0 <= i < 1024 ==> content[i] !in {9, 10, 13, 32}
  }

  lemma {:induction false} UntilIsFirst(bytes: seq<Byte>, stop: set<Byte>)
    ensures var u := Until(bytes, stop);
      && u <= bytes && (forall i :: 0 <= i < |u| ==> u[i] !in stop) && (|u| < |bytes| ==> bytes[|u|] in stop)
    decreases |bytes|
  {
    if bytes != [] && bytes[0] !in stop { UntilIsFirst(bytes[1..], stop); }
  }

  /** What the two passes over a file leave. */
  lemma TokenIsFirst(content: seq<Byte>)
    ensures var token := Until(content[..if |content| < PATH_MAX then |content| else PATH_MAX], BLANKS);
      && (|token| == PATH_MAX <==> TooLong(content))
      && Until(token, {0}) <= content
      && (!TooLong(content) ==> FirstToken(content, |Until(token, {0})|))
  {
    var head := content[..if |content| < PATH_MAX then |content| else PATH_MAX];
    UntilIsFirst(head, BLANKS);
    UntilIsFirst(Until(head, BLANKS), {0});
  }

  /** The name is the first token of the file. */
  lemma LibNameIsFirst(fs: Fs, cwd: Path, name: string)
    ensures var s, r := Stat(fs, cwd, name), LibNameOf(fs, cwd, name);
      && (r.Some? <==> s.Some? && s.value.File? && !TooLong(s.value.content))
      && (r.Some? ==> FirstToken(s.value.content, |r.value|)
                      && forall i :: 0 <= i < |r.value| ==> r.value[i] as int == s.value.content[i] as int)
  {
    var k := Reach(fs, cwd, name);
    if k.Some? && IsFile(fs, k.value) {
      TokenIsFirst(fs[k.value].content);
    }
  }

  /** libname */
  method LibName(os: Os, name: string) returns (r: Option<string>)
    ensures r == LibNameOf(os.fs, os.cwd, name)
  {
    var k := Reach(os.fs, os.cwd, name);
    if k.None? || !IsFile(os.fs, k.value) { return None; }
    var content := os.fs[k.value].content;
    var readBuf := content[..if |content| < PATH_MAX then |content| else PATH_MAX];
    var s := 0;
    var clean := false;
    while s < |readBuf| && !clean
      invariant 0 <= s <= |readBuf|
      invariant forall i :: 0 <= i < s ==> readBuf[i] !in BLANKS
      invariant clean ==> s < |readBuf| && readBuf[s] in BLANKS
      decreases |readBuf| - s, !clean
    {
      if readBuf[s] in BLANKS { clean := true; } else { s := s + 1; }
    }
    UntilPrefix(readBuf, s, BLANKS);
    if s == PATH_MAX { return None; }
    return Some(AsString(Until(readBuf[..s], {0})));
  }
}
