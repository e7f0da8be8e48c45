/** The Windows locker flattens an argument vector into one command line for a POSIX shell
    (sd_locker_win32_convert_command), here with a reading of that line by the shell's rule for
    single quotes (IEEE Std 1003.1, Shell & Utilities, section 2.2.2). */
module CommandLine {
  import opened Options

  const PREFIX: string := "sh -c \""
  const QUOTE: string := "'"

  /** sizeof (' '): a character constant is an int in C. */
  const SIZEOF_SPACE: nat := 4

  function Quoted(args: seq<string>): string {
    if args == [] then "" else QUOTE + args[0] + QUOTE + " " + Quoted(args[1..])
  }

  /** The line, without its terminator. */
  function Encode(args: seq<string>): string {
    PREFIX + Quoted(args) + "\""
  }

  // ---- what the shell makes of it

  function Prepend(word: string, rest: Option<seq<string>>): Option<seq<string>> {
    if rest.None? then None else Some([word] + rest.value)
  }

  /** Split into words: blanks separate, a quote starts or ends a stretch in which every character
      stands for itself, and a line that ends inside quotes is no command.  word is the word under
      way. */
  function Split(s: string, word: Option<string>, inQuotes: bool): Option<seq<string>>
    decreases |s|
  {
    var sofar := if word.Some? then word.value else "";
    if s == "" then (if inQuotes then None else Some(if word.Some? then [sofar] else []))
    else if s[0] == '\'' then Split(s[1..], Some(sofar), !inQuotes)
    else if s[0] == ' ' && !inQuotes then
      (if word.Some? then Prepend(sofar, Split(s[1..], None, false)) else Split(s[1..], None, false))
    else Split(s[1..], Some(sofar + [s[0]]), inQuotes)
  }

  /** Strip the prefix and the closing double quote, and split. */
  function Decode(line: string): Option<seq<string>> {
    if |line| > |PREFIX| && line[..|PREFIX|] == PREFIX && line[|line| - 1] == '"' then
      Split(line[|PREFIX|..|line| - 1], None, false)
    else None
  }

  predicate QuoteFree(args: seq<string>) {
    forall i :: 0 <= i < |args| ==> '\'' !in args[i]
  }

  lemma {:induction false} SplitQuoted(a: string, sofar: string, rest: string)
    requires '\'' !in a
    ensures Split(a + QUOTE + rest, Some(sofar), true) == Split(rest, Some(sofar + a), false)
    decreases |a|
  {
    var s := a + QUOTE + rest;
    if a == "" {
      assert s[1..] == rest;
      assert sofar + a == sofar;
    } else {
      assert s[1..] == a[1..] + QUOTE + rest;
      SplitQuoted(a[1..], sofar + [a[0]], rest);
      assert sofar + [a[0]] + a[1..] == sofar + a;
    }
  }

  lemma {:induction false} SplitArguments(args: seq<string>)
    requires QuoteFree(args)
    ensures Split(Quoted(args), None, false) == Some(args)
    decreases |args|
  {
    if args != [] {
      var a, rest := args[0], " " + Quoted(args[1..]);
      var s := Quoted(args);
      assert s == QUOTE + (a + QUOTE + rest);
      assert s[1..] == a + QUOTE + rest;
      assert Split(s, None, false) == Split(s[1..], Some(""), true);
      SplitQuoted(a, "", rest);
      assert "" + a == a;
      assert rest[1..] == Quoted(args[1..]);
      SplitArguments(args[1..]);
      assert [a] + args[1..] == args;
    }
  }

  /** No word the shell finds has a quote in it. */
  lemma {:induction false} WordsHaveNoQuote(s: string, word: Option<string>, inQuotes: bool)
    requires word.Some? ==> '\'' !in word.value
    ensures Split(s, word, inQuotes).Some? ==> QuoteFree(Split(s, word, inQuotes).value)
    decreases |s|
  {
    if s != "" {
      var sofar := if word.Some? then word.value else "";
      if s[0] == '\'' {
        WordsHaveNoQuote(s[1..], Some(sofar), !inQuotes);
      } else if s[0] == ' ' && !inQuotes {
        WordsHaveNoQuote(s[1..], None, false);
      } else {
        WordsHaveNoQuote(s[1..], Some(sofar + [s[0]]), inQuotes);
      }
    }
  }

  lemma StripEncode(args: seq<string>)
    ensures Decode(Encode(args)) == Split(Quoted(args), None, false)
  {
  }

  /** The shell gets back the argument vector if and only if no argument has a single quote. */
  lemma ShellGetsArguments(args: seq<string>)
    ensures Decode(Encode(args)) == Some(args) <==> QuoteFree(args)
  {
    StripEncode(args);
    if QuoteFree(args) { SplitArguments(args); }
    WordsHaveNoQuote(Quoted(args), None, false);
  }

  /** Different quote-free vectors have different lines. */
  lemma EncodeIsInjective(a: seq<string>, b: seq<string>)
    requires QuoteFree(a) && QuoteFree(b) && Encode(a) == Encode(b)
    ensures a == b
  {
    ShellGetsArguments(a);
    ShellGetsArguments(b);
  }

  /** With quotes allowed they need not. */
  lemma QuotesCollide()
    ensures Encode(["a' 'b"]) == Encode(["a", "b"])
  {
  }

  // ---- the two passes

  function TotalLength(args: seq<string>): nat {
    if args == [] then 0 else |args[0]| + TotalLength(args[1..])
  }

  lemma {:induction false} QuotedLength(args: seq<string>)
    ensures |Quoted(args)| == TotalLength(args) + 3 * |args|
    decreases |args|
  {
    if args != [] { QuotedLength(args[1..]); }
  }

  lemma {:induction false} LengthOfPrefix(args: seq<string>, n: nat)
    requires n < |args|
    ensures TotalLength(args[..n + 1]) == TotalLength(args[..n]) + |args[n]|
    ensures Quoted(args[..n + 1]) == Quoted(args[..n]) + QUOTE + args[n] + QUOTE + " "
    decreases |args|
  {
    if n == 0 {
      assert args[..1] == [args[0]] && args[..0] == [];
      assert args[..1][1..] == [];
    } else {
      assert args[..n + 1][1..] == args[1..][..n] && args[..n][1..] == args[1..][..n - 1];
      LengthOfPrefix(args[1..], n - 1);
    }
  }

  /** memcpy */
  method CopyTo(buffer: array<char>, at: nat, s: string)
    requires at + |s| <= buffer.Length
    modifies buffer
    ensures buffer[..at] == old(buffer[..at])
    ensures buffer[at..at + |s|] == s
  {
    forall i | 0 <= i < |s| {
      buffer[at + i] := s[i];
    }
  }

  method Append(buffer: array<char>, at: nat, s: string, ghost sofar: string) returns (next: nat)
    requires at + |s| <= buffer.Length && buffer[..at] == sofar
    modifies buffer
    ensures next == at + |s| && buffer[..next] == sofar + s
  {
    CopyTo(buffer, at, s);
    next := at + |s|;
    assert buffer[..next] == buffer[..at] + buffer[at..next];
  }

  /** The first pass: for every argument two quotes and a space. */
  method RequiredLength(args: seq<string>) returns (lengthTotal: nat)
    ensures lengthTotal == |Encode(args)| + 3 * |args|
  {
    lengthTotal := |PREFIX| + |QUOTE|;
    for index := 0 to |args|
      invariant lengthTotal == |PREFIX| + |QUOTE| + TotalLength(args[..index]) + (2 + SIZEOF_SPACE) * index
    {
      LengthOfPrefix(args, index);
      lengthTotal := lengthTotal + |QUOTE| + |args[index]| + |QUOTE| + SIZEOF_SPACE;
    }
    assert args[..|args|] == args;
    QuotedLength(args);
  }

  /** sd_locker_win32_convert_command; its caller asserts that there is an argument.  It fails
      exactly when malloc does.  Every write is in bounds, and 3 * argc - 1 bytes stay unused. */
  method ConvertCommand(args: seq<string>, hasMemory: bool) returns (buffer: array<char>, used: nat, ok: bool)
    requires |args| > 0
    ensures ok == hasMemory
    ensures ok ==> fresh(buffer) && used <= buffer.Length && buffer[..used] == Encode(args) + ['\0']
    ensures ok ==> buffer.Length - used == 3 * |args| - 1
  {
    used := 0;
    var lengthTotal := RequiredLength(args);
    ok := hasMemory;
    if !ok { buffer := new char[0]; return; }
    buffer := new char[lengthTotal];
    used := Append(buffer, 0, PREFIX, "");
    assert PREFIX + Quoted(args[..0]) == PREFIX;
    for index := 0 to |args|
      invariant buffer.Length == |Encode(args)| + 3 * |args| && used <= buffer.Length
      invariant buffer[..used] == PREFIX + Quoted(args[..index])
    {
      RoomFor(args, index);
      used := AppendArgument(buffer, used, args[index], PREFIX + Quoted(args[..index]));
    }
    assert args[..|args|] == args;
    used := Append(buffer, used, "\"", PREFIX + Quoted(args));
    used := Append(buffer, used, ['\0'], Encode(args));
  }

  method AppendArgument(buffer: array<char>, at: nat, arg: string, ghost sofar: string) returns (next: nat)
    requires at + |arg| + 3 <= buffer.Length && buffer[..at] == sofar
    modifies buffer
    ensures next == at + |arg| + 3 && buffer[..next] == sofar + QUOTE + arg + QUOTE + " "
  {
    next := Append(buffer, at, QUOTE, sofar);
    next := Append(buffer, next, arg, sofar + QUOTE);
    next := Append(buffer, next, QUOTE, sofar + QUOTE + arg);
    next := Append(buffer, next, " ", sofar + QUOTE + arg + QUOTE);
  }

  /** What has been written and the next argument fit, and where they lead. */
  lemma RoomFor(args: seq<string>, n: nat)
    requires n < |args|
    ensures |PREFIX + Quoted(args[..n])| + |args[n]| + 3 <= |Encode(args)|
    ensures PREFIX + Quoted(args[..n + 1]) == PREFIX + Quoted(args[..n]) + QUOTE + args[n] + QUOTE + " "
  {
    QuotedLength(args);
    QuotedLength(args[..n]);
    LengthOfPrefix(args, n);
    LengthGrows(args, n + 1);
  }

  lemma {:induction false} LengthGrows(args: seq<string>, n: nat)
    requires n <= |args|
    ensures TotalLength(args[..n]) <= TotalLength(args)
    decreases |args| - n
  {
    if n < |args| {
      LengthOfPrefix(args, n);
      LengthGrows(args, n + 1);
    } else {
      assert args[..n] == args;
    }
  }
}
