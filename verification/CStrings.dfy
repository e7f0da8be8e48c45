/** C strings in flat memory, and their conversion to and from Ada strings (c_string.adb). */
module CStrings {

  /** Interfaces.C.char and Character: the conversions between them keep the code. */
  type Char = c: int | 0 <= c < 256

  type Text = seq<Char>

  const NUL: Char := 0

  /** Integer'Last and C.size_t'Last */
  const INTEGER_LAST: nat := 0x7FFF_FFFF
  const SIZE_LAST: nat := 0xFFFF_FFFF_FFFF_FFFF

  /** Exceptions, and Fault for a read of memory that is not there. */
  datatype Outcome<+T> =
    | Ok(value: T) | ConstraintError | LengthError | NullTerminationError | Fault
  {
    /** The same failure of a computation of something else. */
    function Failed<U>(): (r: Outcome<U>)
      requires !Ok?
      ensures !r.Ok?
    {
      match this
      case ConstraintError => ConstraintError
      case LengthError => LengthError
      case NullTerminationError => NullTerminationError
      case Fault => Fault
    }
  }

  /** Memory seen as characters and as words that hold addresses; null is 0, and nothing at or
      above top is in use.  wordSize is the stride of the word view. */
  datatype Heap = Heap(chars: map<int, Char>, words: map<int, int>, top: int, wordSize: nat)

  ghost predicate ValidHeap(h: Heap) {
    && h.top > 0 && h.wordSize > 0
    && (forall a :: a in h.chars ==> a < h.top)
    && (forall a :: a in h.words ==> a < h.top)
  }

  /** Everything in use stays as it is. */
  ghost predicate Extends(h: Heap, g: Heap) {
    && g.wordSize == h.wordSize && h.top <= g.top
    && (forall a :: a in h.chars ==> a in g.chars && g.chars[a] == h.chars[a])
    && (forall a :: a in h.words ==> a in g.words && g.words[a] == h.words[a])
  }

  /** Unsafe_Index: the character at an offset, with no check for a terminator. */
  function Peek(h: Heap, p: int, k: nat): Outcome<Char> {
    if p + k in h.chars then Ok(h.chars[p + k]) else Fault
  }

  /** Length: the scan from position i. */
  function LengthFrom(h: Heap, p: int, i: nat): Outcome<nat>
    decreases SIZE_LAST + 1 - i
  {
    if i > SIZE_LAST then ConstraintError
    else if !Peek(h, p, i).Ok? then Fault
    else if Peek(h, p, i).value == NUL then Ok(i)
    else LengthFrom(h, p, i + 1)
  }

  /** A terminated string of the given text. */
  ghost predicate TextAt(h: Heap, p: int, text: Text) {
    && NUL !in text
    && (forall k :: 0 <= k < |text| ==> Peek(h, p, k) == Ok(text[k]))
    && Peek(h, p, |text|) == Ok(NUL)
  }

  /** The text of a terminated string, as To_String finds it. */
  function StringOf(h: Heap, p: int): Outcome<Text>
  {
    match LengthFrom(h, p, 0)
    case Ok(n) => if n > INTEGER_LAST then ConstraintError else CharsOf(h, p, n)
    case o => o.Failed()
  }

  /** The given number of characters from an address on. */
  function CharsOf(h: Heap, p: int, n: nat): Outcome<Text> {
    if n == 0 then Ok([])
    else
      var front := CharsOf(h, p, n - 1);
      if !front.Ok? then front
      else if !Peek(h, p, n - 1).Ok? then Fault
      else Ok(front.value + [Peek(h, p, n - 1).value])
  }

  /** An Ada string up to its first NUL. */
  function Cut(s: Text): (r: Text)
    ensures r <= s && NUL !in r && (|r| < |s| ==> s[|r|] == NUL)
  {
    if s == [] || s[0] == NUL then [] else [s[0]] + Cut(s[1..])
  }

  lemma CutKeeps(s: Text)
    ensures Cut(s) == s <==> NUL !in s
  {
  }

  lemma {:induction false} LengthIs(h: Heap, p: int, text: Text, i: nat)
    requires TextAt(h, p, text) && i <= |text| <= SIZE_LAST
    ensures LengthFrom(h, p, i) == Ok(|text|)
    decreases |text| - i
  {
    if i < |text| {
      assert Peek(h, p, i) == Ok(text[i]);
      LengthIs(h, p, text, i + 1);
    }
  }

  lemma {:induction false} CharsAre(h: Heap, p: int, text: Text, n: nat)
    requires n <= |text| && forall k :: 0 <= k < n ==> Peek(h, p, k) == Ok(text[k])
    ensures CharsOf(h, p, n) == Ok(text[..n])
    decreases n
  {
    if n > 0 {
      CharsAre(h, p, text, n - 1);
      assert Peek(h, p, n - 1) == Ok(text[n - 1]);
      assert text[..n - 1] + [text[n - 1]] == text[..n];
    }
  }

  /** A terminated string that an Ada string can hold is read back in full. */
  lemma StringIs(h: Heap, p: int, text: Text)
    requires TextAt(h, p, text) && |text| <= INTEGER_LAST
    ensures StringOf(h, p) == Ok(text)
  {
    LengthIs(h, p, text, 0);
    CharsAre(h, p, text, |text|);
    assert text[..|text|] == text;
  }

  /** There is a character at the offset, and it is not the terminator. */
  predicate Printable(h: Heap, p: int, k: nat) {
    Peek(h, p, k).Ok? && Peek(h, p, k).value != NUL
  }

  /** What Length returns: the first terminator; or it ran into missing memory first; or it
      exhausted the range of its result. */
  lemma {:induction false} LengthFound(h: Heap, p: int, i: nat)
    requires forall k :: 0 <= k < i ==> Printable(h, p, k)
    requires i <= SIZE_LAST + 1
    ensures match LengthFrom(h, p, i)
      case Ok(n) => n <= SIZE_LAST && Peek(h, p, n) == Ok(NUL) && forall k :: 0 <= k < n ==> Printable(h, p, k)
      case Fault =>
        exists n: nat :: n <= SIZE_LAST && !Peek(h, p, n).Ok? && forall k :: 0 <= k < n ==> Printable(h, p, k)
      case ConstraintError => forall k :: 0 <= k <= SIZE_LAST ==> Printable(h, p, k)
      case _ => false
    decreases SIZE_LAST + 1 - i
  {
    if i <= SIZE_LAST && Printable(h, p, i) {
      LengthFound(h, p, i + 1);
    }
  }

  /** To_String returns a text exactly when the memory holds it, terminated. */
  lemma StringIffText(h: Heap, p: int, text: Text)
    requires |text| <= INTEGER_LAST
    ensures StringOf(h, p) == Ok(text) <==> TextAt(h, p, text)
  {
    if TextAt(h, p, text) { StringIs(h, p, text); }
    if StringOf(h, p) == Ok(text) {
      LengthFound(h, p, 0);
      var n := LengthFrom(h, p, 0).value;
      CharsTell(h, p, n);
      forall k | 0 <= k < n ensures text[k] != NUL { assert Printable(h, p, k); }
    }
  }

  lemma {:induction false} CharsTell(h: Heap, p: int, n: nat)
    requires CharsOf(h, p, n).Ok?
    ensures var t := CharsOf(h, p, n).value;
      |t| == n && forall k :: 0 <= k < n ==> Peek(h, p, k) == Ok(t[k])
    decreases n
  {
    if n > 0 {
      CharsTell(h, p, n - 1);
    }
  }

  /** A heap-allocated char_array: where it is and how long. */
  datatype CharArray = CharArray(at: int, length: nat)

  /** The characters of an array. */
  ghost predicate Holds(h: Heap, item: CharArray, text: Text) {
    |text| == item.length && forall k :: 0 <= k < |text| ==> Peek(h, item.at, k) == Ok(text[k])
  }

  class Memory {
    var chars: map<int, Char>
    var words: map<int, int>
    var top: int
    const wordSize: nat

    ghost function H(): Heap
      reads this
    {
      Heap(chars, words, top, wordSize)
    }

    constructor (chars: map<int, Char>, words: map<int, int>, top: int, wordSize: nat)
      ensures H() == Heap(chars, words, top, wordSize)
    {
      this.chars, this.words, this.top, this.wordSize := chars, words, top, wordSize;
    }

    method UnsafeIndex(item: int, index: nat) returns (r: Outcome<Char>)
      ensures r == Peek(H(), item, index)
    {
      r := if item + index in chars then Ok(chars[item + index]) else Fault;
    }

    method Length(item: int) returns (r: Outcome<nat>)
      ensures r == LengthFrom(H(), item, 0)
    {
      for i := 0 to SIZE_LAST + 1
        invariant LengthFrom(H(), item, 0) == LengthFrom(H(), item, i)
      {
        var ch := UnsafeIndex(item, i);
        if !ch.Ok? { return Fault; }
        if ch.value == NUL { return Ok(i); }
      }
      return ConstraintError;
    }

    /** To_String of an unterminated array of the given size. */
    method ToStringSized(item: int, size: nat) returns (r: Outcome<Text>)
      ensures r == if size > INTEGER_LAST then ConstraintError else CharsOf(H(), item, size)
    {
      if size > INTEGER_LAST { return ConstraintError; }
      var result: Text := [];
      for i := 1 to size + 1
        invariant CharsOf(H(), item, i - 1) == Ok(result)
      {
        var ch := UnsafeIndex(item, i - 1);
        if !ch.Ok? {
          CharsStop(H(), item, i, size);
          return Fault;
        }
        result := result + [ch.value];
      }
      return Ok(result);
    }

    /** To_String of a terminated string. */
    method ToString(item: int) returns (r: Outcome<Text>)
      ensures r == StringOf(H(), item)
    {
      var length := Length(item);
      if !length.Ok? { return length.Failed(); }
      r := ToStringSized(item, length.value);
    }

    /** Index of a terminated string. */
    method Index(item: int, index: nat) returns (r: Outcome<Char>)
      ensures var n := LengthFrom(H(), item, 0);
        match n
        case Ok(length) => if index < length then r == Peek(H(), item, index) && r.Ok? else r == ConstraintError
        case _ => r == n.Failed()
    {
      LengthFound(H(), item, 0);
      var length := Length(item);
      if !length.Ok? { return length.Failed(); }
      if index >= length.value { return ConstraintError; }
      assert Printable(H(), item, index);
      r := UnsafeIndex(item, index);
    }

    /** Index of an array of the given size. */
    method IndexSized(item: int, size: nat, index: nat) returns (r: Outcome<Char>)
      ensures r == if index >= size then ConstraintError else Peek(H(), item, index)
    {
      if index >= size { return ConstraintError; }
      r := UnsafeIndex(item, index);
    }

    /** To_C_String: a pointer to an array is a C string only if the array holds a terminator. */
    method ToCString(item: CharArray) returns (r: Outcome<int>)
      requires forall k :: 0 <= k < item.length ==> Peek(H(), item.at, k).Ok?
      ensures r == if exists k :: 0 <= k < item.length && Peek(H(), item.at, k) == Ok(NUL)
                   then Ok(item.at) else NullTerminationError
    {
      var hasNull := HasNull(item);
      r := if hasNull then Ok(item.at) else NullTerminationError;
    }

    method HasNull(item: CharArray) returns (r: bool)
      requires forall k :: 0 <= k < item.length ==> Peek(H(), item.at, k).Ok?
      ensures r <==> exists k :: 0 <= k < item.length && Peek(H(), item.at, k) == Ok(NUL)
    {
      for i := 0 to item.length
        invariant forall k :: 0 <= k < i ==> Peek(H(), item.at, k) != Ok(NUL)
      {
        assert Peek(H(), item.at, i).Ok?;
        if chars[item.at + i] == NUL { return true; }
      }
      return false;
    }

    /** To_C_Char_Array: the address of the first character, which an empty array does not have. */
    method ToCCharArray(item: CharArray) returns (r: Outcome<int>)
      ensures if item.length == 0 then r == ConstraintError else r.Ok?
      ensures r.Ok? ==> forall text :: Holds(H(), item, text) ==> CharsOf(H(), r.value, item.length) == Ok(text)
    {
      forall text | Holds(H(), item, text)
        ensures CharsOf(H(), item.at, item.length) == Ok(text)
      {
        CharsAre(H(), item.at, text, |text|);
        assert text[..|text|] == text;
      }
      r := if item.length == 0 then ConstraintError else Ok(item.at);
    }

    /** new C.char_array'(C.To_C (s)): the characters and a terminator, in fresh memory. */
    method NewCString(s: Text) returns (item: CharArray)
      requires ValidHeap(H())
      modifies `chars, `top
      ensures ValidHeap(H()) && Extends(old(H()), H()) && words == old(words)
      ensures item.at == old(top) && item.length == |s| + 1 && top == item.at + item.length
      ensures forall k :: 0 <= k <= |s| ==> Peek(H(), item.at, k) == Ok((s + [NUL])[k])
    {
      item := CharArray(top, |s| + 1);
      var bytes := s + [NUL];
      for k := 0 to |bytes|
        invariant top == old(top) && words == old(words)
        invariant forall a :: a in chars ==> a < item.at + k
        invariant forall a :: a in old(chars) ==> a in chars && chars[a] == old(chars)[a]
        invariant forall j :: 0 <= j < k ==> Peek(H(), item.at, j) == Ok(bytes[j])
      {
        chars := chars[item.at + k := bytes[k]];
      }
      top := top + |s| + 1;
    }
  }

  lemma {:induction false} CharsStop(h: Heap, p: int, i: nat, n: nat)
    requires 0 < i <= n && CharsOf(h, p, i - 1).Ok? && !Peek(h, p, i - 1).Ok?
    ensures CharsOf(h, p, n) == Fault
    decreases n
  {
    if i < n { CharsStop(h, p, i, n - 1); }
  }
}
