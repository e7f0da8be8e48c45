/** C path strings, the fixed-size buffers they are formatted into, and their components.
    A C string is the sequence of its characters before the terminator. */
module Paths {

  /** A directory entry, as the component names that lead to it from "/" without any link. */
  type Path = seq<string>

  /** INSTALL_MAX_PATHLEN */
  const PATH_MAX := 1024

  /** What snprintf leaves in a PATH_MAX buffer: the text, cut to leave room for the terminator. */
  function Format(s: string): string {
    if |s| < PATH_MAX then s else s[..PATH_MAX - 1]
  }

  predicate IsAbsolute(s: string) {
    s != "" && s[0] == '/'
  }

  function NameLength(s: string): (n: nat)
    ensures n <= |s| && '/' !in s[..n]
    ensures n < |s| ==> s[n] == '/'
  {
    if s == "" || s[0] == '/' then 0 else 1 + NameLength(s[1..])
  }

  /** The names between the slashes of a path string; repeated slashes count once. */
  function Components(s: string): seq<string> {
    if s == "" then []
    else if s[0] == '/' then Components(s[1..])
    else var n := NameLength(s); [s[..n]] + Components(s[n..])
  }

  /** Where one name leads from a directory that is reached without links. */
  function Enter(p: Path, name: string): Path {
    if name == "." then p
    else if name == ".." then (if p == [] then [] else p[..|p| - 1])
    else p + [name]
  }

  /** Where the resolution of a path string starts. */
  function Start(cwd: Path, s: string): Path {
    if IsAbsolute(s) then [] else cwd
  }

  predicate NoParentSteps(s: string) {
    ".." !in Components(s)
  }

  lemma {:induction false} ComponentsJoin(a: string, b: string)
    ensures Components(a + "/" + b) == Components(a) + Components(b)
    decreases |a|
  {
    var s := a + "/" + b;
    if a == "" {
      assert s[1..] == b;
    } else if a[0] == '/' {
      assert s[1..] == a[1..] + "/" + b;
      ComponentsJoin(a[1..], b);
    } else {
      var n := NameLength(a);
      NameLengthJoin(a, b);
      assert s[..n] == a[..n];
      assert s[n..] == a[n..] + "/" + b;
      ComponentsJoin(a[n..], b);
    }
  }

  lemma {:induction false} NameLengthJoin(a: string, b: string)
    ensures NameLength(a + "/" + b) == NameLength(a)
  {
    var s := a + "/" + b;
    if a != "" && a[0] != '/' {
      assert s[1..] == a[1..] + "/" + b;
      NameLengthJoin(a[1..], b);
    }
  }

  /** A slash at the end of a path string adds no name. */
  lemma ComponentsSlash(a: string)
    ensures Components(a + "/") == Components(a)
  {
    assert a + "/" == a + "/" + "";
    ComponentsJoin(a, "");
  }

  lemma {:induction false} ComponentsOfName(name: string)
    requires '/' !in name && name != ""
    ensures Components(name) == [name]
  {
    NameLengthOfName(name);
    assert name[|name|..] == "";
    assert name[..|name|] == name;
  }

  lemma NameLengthOfName(name: string)
    requires '/' !in name
    ensures NameLength(name) == |name|
  {
  }

  /** Only slashes have no components. */
  lemma SomeComponent(s: string)
    requires s != "" && !IsAbsolute(s)
    ensures Components(s) != []
  {
  }
}
