/** Tables of C strings in flat memory, and their conversion to and from Ada arrays of strings
    (c_string-arrays.adb).  A table is a row of words, each the address of a string or null. */
module CStringArrays {
  import opened CStrings

  /** String_Array_t: its strings, and the index of the first, whatever it is. */
  datatype StringArray = StringArray(first: nat, items: seq<Text>)

  /** Bounds of subtype Natural, and strings that an Ada String can hold. */
  predicate IsAdaArray(s: StringArray) {
    && (s.items != [] ==> s.first + |s.items| - 1 <= INTEGER_LAST)
    && forall i :: 0 <= i < |s.items| ==> |s.items[i]| <= INTEGER_LAST
  }

  /** The word in a slot of a table. */
  function Word(h: Heap, p: int, i: nat): Outcome<int> {
    if p + i * h.wordSize in h.words then Ok(h.words[p + i * h.wordSize]) else Fault
  }

  /** Size_Terminated: the walk from slot n on. */
  function SizeFrom(h: Heap, p: int, n: nat): Outcome<nat>
    requires n <= INTEGER_LAST
    decreases INTEGER_LAST - n
  {
    if !Word(h, p, n).Ok? then Fault
    else if Word(h, p, n).value == 0 then Ok(n)
    else if n == INTEGER_LAST then ConstraintError
    else SizeFrom(h, p, n + 1)
  }

  /** Index_Core: the offset is an Integer product, so it overflows before the memory ends. */
  function IndexCore(h: Heap, p: int, i: nat): Outcome<Text> {
    if i * h.wordSize > INTEGER_LAST then ConstraintError
    else
      match Word(h, p, i)
      case Ok(w) => if w == 0 then Ok([]) else StringOf(h, w)
      case _ => Fault
  }

  /** Convert: the first n strings. */
  function ConvertTo(h: Heap, p: int, n: nat): Outcome<seq<Text>> {
    if n == 0 then Ok([])
    else
      var front := ConvertTo(h, p, n - 1);
      if !front.Ok? then front
      else
        match IndexCore(h, p, n - 1)
        case Ok(t) => Ok(front.value + [t])
        case o => o.Failed()
  }

  function ConvertTerminated(h: Heap, p: int): Outcome<seq<Text>> {
    match SizeFrom(h, p, 0)
    case Ok(n) => ConvertTo(h, p, n)
    case o => o.Failed()
  }

  function IndexTerminated(h: Heap, p: int, i: nat): Outcome<Text> {
    match SizeFrom(h, p, 0)
    case Ok(n) => if n <= i then ConstraintError else IndexCore(h, p, i)
    case o => o.Failed()
  }

  // ---- reading any table

  predicate Occupied(h: Heap, p: int, i: nat) {
    Word(h, p, i).Ok? && Word(h, p, i).value != 0
  }

  lemma {:induction false} SizeFound(h: Heap, p: int, n: nat)
    requires n <= INTEGER_LAST && forall k :: 0 <= k < n ==> Occupied(h, p, k)
    ensures SizeFrom(h, p, n).Ok? ==>
      var m := SizeFrom(h, p, n).value;
      m <= INTEGER_LAST && Word(h, p, m) == Ok(0) && forall k :: 0 <= k < m ==> Occupied(h, p, k)
    decreases INTEGER_LAST - n
  {
    if n < INTEGER_LAST && Occupied(h, p, n) { SizeFound(h, p, n + 1); }
  }

  lemma {:induction false} SizeReached(h: Heap, p: int, n: nat, m: nat)
    requires n <= m <= INTEGER_LAST && Word(h, p, m) == Ok(0) && forall k :: 0 <= k < m ==> Occupied(h, p, k)
    ensures SizeFrom(h, p, n) == Ok(m)
    decreases m - n
  {
    if n < m {
      assert Occupied(h, p, n);
      SizeReached(h, p, n + 1, m);
    }
  }

  /** Size_Terminated gives the least n whose word is null. */
  lemma SizeIsLeast(h: Heap, p: int, n: nat)
    ensures SizeFrom(h, p, 0) == Ok(n) <==>
            n <= INTEGER_LAST && Word(h, p, n) == Ok(0) && forall k :: 0 <= k < n ==> Occupied(h, p, k)
  {
    SizeFound(h, p, 0);
    if n <= INTEGER_LAST && Word(h, p, n) == Ok(0) && forall k :: 0 <= k < n ==> Occupied(h, p, k) {
      SizeReached(h, p, 0, n);
    }
  }

  /** Walking the table and indexing it give the same strings. */
  lemma {:induction false} ConvertAgrees(h: Heap, p: int, n: nat)
    ensures ConvertTo(h, p, n).Ok? <==> forall i :: 0 <= i < n ==> IndexCore(h, p, i).Ok?
    ensures ConvertTo(h, p, n).Ok? ==>
      && |ConvertTo(h, p, n).value| == n
      && forall i :: 0 <= i < n ==> IndexCore(h, p, i) == Ok(ConvertTo(h, p, n).value[i])
    decreases n
  {
    if n > 0 { ConvertAgrees(h, p, n - 1); }
  }

  /** Convert_Terminated and Index_Terminated agree on every index, and Index_Terminated raises on
      all others. */
  lemma IndexAgrees(h: Heap, p: int, i: nat)
    requires ConvertTerminated(h, p).Ok?
    ensures var items := ConvertTerminated(h, p).value;
      IndexTerminated(h, p, i) == if i < |items| then Ok(items[i]) else ConstraintError
  {
    ConvertAgrees(h, p, SizeFrom(h, p, 0).value);
  }

  // ---- tables that hold given texts

  ghost predicate PointsTo(h: Heap, p: int, i: nat, text: Text) {
    Occupied(h, p, i) && TextAt(h, Word(h, p, i).value, text)
  }

  ghost predicate TableAt(h: Heap, p: int, texts: seq<Text>) {
    && (forall i :: 0 <= i < |texts| ==> PointsTo(h, p, i, texts[i]))
    && Word(h, p, |texts|) == Ok(0)
  }

  predicate Holdable(texts: seq<Text>) {
    |texts| <= INTEGER_LAST && forall i :: 0 <= i < |texts| ==> |texts[i]| <= INTEGER_LAST
  }

  lemma SizeOfTable(h: Heap, p: int, texts: seq<Text>)
    requires TableAt(h, p, texts) && Holdable(texts)
    ensures SizeFrom(h, p, 0) == Ok(|texts|)
  {
    forall k | 0 <= k < |texts| ensures Occupied(h, p, k) { assert PointsTo(h, p, k, texts[k]); }
    SizeReached(h, p, 0, |texts|);
  }

  lemma IndexOfTable(h: Heap, p: int, texts: seq<Text>, i: nat)
    requires TableAt(h, p, texts) && Holdable(texts) && i <= |texts|
    ensures IndexCore(h, p, i) ==
      if i * h.wordSize > INTEGER_LAST then ConstraintError else Ok((texts + [[]])[i])
  {
    if i < |texts| {
      assert PointsTo(h, p, i, texts[i]);
      StringIs(h, Word(h, p, i).value, texts[i]);
    }
  }

  /** Converting up to the table's end, or one slot past its strings. */
  lemma {:induction false} ConvertOfTable(h: Heap, p: int, texts: seq<Text>, n: nat)
    requires TableAt(h, p, texts) && Holdable(texts) && n <= |texts| + 1
    ensures ConvertTo(h, p, n) ==
      if n > 0 && (n - 1) * h.wordSize > INTEGER_LAST then ConstraintError else Ok((texts + [[]])[..n])
    decreases n
  {
    if n > 0 {
      ConvertOfTable(h, p, texts, n - 1);
      IndexOfTable(h, p, texts, n - 1);
      assert (texts + [[]])[..n] == (texts + [[]])[..n - 1] + [(texts + [[]])[n - 1]];
      if n > 1 { OffsetGrows(n - 2, h.wordSize); }
    }
  }

  lemma OffsetGrows(i: nat, w: nat)
    ensures (i + 1) * w == i * w + w
  {
  }

  /** Read back to its null, a table gives its strings, if the last offset is an Integer. */
  lemma TableReadsBack(h: Heap, p: int, texts: seq<Text>)
    requires TableAt(h, p, texts) && Holdable(texts)
    ensures ConvertTerminated(h, p) ==
      if texts != [] && (|texts| - 1) * h.wordSize > INTEGER_LAST then ConstraintError else Ok(texts)
  {
    SizeOfTable(h, p, texts);
    ConvertOfTable(h, p, texts, |texts|);
    assert (texts + [[]])[..|texts|] == texts;
  }

  lemma TableStays(h: Heap, g: Heap, p: int, texts: seq<Text>)
    requires Extends(h, g) && TableAt(h, p, texts)
    ensures TableAt(g, p, texts)
  {
  }

  // ---- the strings as C sees them

  function CutAll(items: seq<Text>): (r: seq<Text>)
    ensures |r| == |items| && forall i :: 0 <= i < |items| ==> r[i] == Cut(items[i])
  {
    seq(|items|, i requires 0 <= i < |items| => Cut(items[i]))
  }

  predicate NoneHasNul(items: seq<Text>) {
    forall i :: 0 <= i < |items| ==> NUL !in items[i]
  }

  lemma CutAllKeeps(items: seq<Text>)
    ensures CutAll(items) == items <==> NoneHasNul(items)
  {
    forall i | 0 <= i < |items| ensures Cut(items[i]) == items[i] <==> NUL !in items[i] { CutKeeps(items[i]); }
    if CutAll(items) == items {
      forall i | 0 <= i < |items| ensures NUL !in items[i] { assert CutAll(items)[i] == items[i]; }
    }
  }

  // ---- the package's subprograms

  method SizeTerminated(m: Memory, pointer: int) returns (r: Outcome<nat>)
    ensures r == SizeFrom(m.H(), pointer, 0)
  {
    var current, size: nat := pointer, 0;
    while true
      invariant current == pointer + size * m.wordSize && size <= INTEGER_LAST
      invariant SizeFrom(m.H(), pointer, 0) == SizeFrom(m.H(), pointer, size)
      decreases INTEGER_LAST - size
    {
      if current !in m.words { return Fault; }
      if m.words[current] == 0 { return Ok(size); }
      OffsetGrows(size, m.wordSize);
      current := current + m.wordSize;
      if size == INTEGER_LAST { return ConstraintError; }
      size := size + 1;
    }
  }

  /** Index_Core with Index_Address. */
  method ReadIndex(m: Memory, pointer: int, index: nat) returns (r: Outcome<Text>)
    ensures r == IndexCore(m.H(), pointer, index)
  {
    var offset := index * m.wordSize;
    if offset > INTEGER_LAST { return ConstraintError; }
    var address := pointer + offset;
    if address !in m.words { return Fault; }
    if m.words[address] == 0 { return Ok([]); }
    r := m.ToString(m.words[address]);
  }

  method Index(m: Memory, pointer: int, size: nat, index: nat) returns (r: Outcome<Text>)
    ensures r == if size <= index then ConstraintError else IndexCore(m.H(), pointer, index)
  {
    if size <= index { return ConstraintError; }
    r := ReadIndex(m, pointer, index);
  }

  method ReadIndexTerminated(m: Memory, pointer: int, index: nat) returns (r: Outcome<Text>)
    ensures r == IndexTerminated(m.H(), pointer, index)
  {
    var size := SizeTerminated(m, pointer);
    if !size.Ok? { return size.Failed(); }
    if size.value <= index { return ConstraintError; }
    r := ReadIndex(m, pointer, index);
  }

  /** Convert: an array indexed from 0. */
  method Convert(m: Memory, pointer: int, size: nat) returns (r: Outcome<StringArray>)
    ensures match ConvertTo(m.H(), pointer, size)
      case Ok(items) => r == Ok(StringArray(0, items))
      case o => r == o.Failed()
  {
    var table: seq<Text> := [];
    for i := 0 to size
      invariant ConvertTo(m.H(), pointer, i) == Ok(table)
    {
      var t := ReadIndex(m, pointer, i);
      if !t.Ok? {
        ConvertStops(m.H(), pointer, i, size);
        return t.Failed();
      }
      table := table + [t.value];
    }
    return Ok(StringArray(0, table));
  }

  lemma {:induction false} ConvertStops(h: Heap, p: int, i: nat, n: nat)
    requires i < n && ConvertTo(h, p, i).Ok? && !IndexCore(h, p, i).Ok?
    ensures ConvertTo(h, p, n) == IndexCore(h, p, i).Failed()
    decreases n
  {
    if i + 1 < n { ConvertStops(h, p, i, n - 1); }
  }

  method ReadTerminated(m: Memory, pointer: int) returns (r: Outcome<StringArray>)
    ensures match ConvertTerminated(m.H(), pointer)
      case Ok(items) => r == Ok(StringArray(0, items))
      case o => r == o.Failed()
  {
    var size := SizeTerminated(m, pointer);
    if !size.Ok? { return size.Failed(); }
    r := Convert(m, pointer, size.value);
  }

  lemma SlotsDiffer(i: nat, j: nat, w: nat)
    requires w > 0 && i < j
    ensures i * w + w <= j * w
  {
    var d := j - i - 1;
    assert j * w == (i + 1 + d) * w == i * w + w + d * w;
  }

  /** new Table_t, with every slot set to null. */
  method NewTable(m: Memory, slots: nat) returns (p: int)
    requires ValidHeap(m.H())
    modifies m`words, m`top
    ensures ValidHeap(m.H()) && Extends(old(m.H()), m.H())
    ensures p == old(m.top) && m.top == p + slots * m.wordSize
    ensures forall i :: 0 <= i < slots ==> Word(m.H(), p, i) == Ok(0)
  {
    p := m.top;
    m.top := p + slots * m.wordSize;
    for i := 0 to slots
      invariant p == old(m.top) && m.top == p + slots * m.wordSize
      invariant forall a :: a in m.words ==> a < p + i * m.wordSize
      invariant Extends(old(m.H()), m.H())
      invariant forall j :: 0 <= j < i ==> Word(m.H(), p, j) == Ok(0)
    {
      ghost var before := m.H();
      SlotsDiffer(i, i + 1, m.wordSize);
      m.words := m.words[p + i * m.wordSize := 0];
      forall j | 0 <= j < i ensures Word(m.H(), p, j) == Ok(0) { assert Word(before, p, j) == Ok(0); }
    }
  }

  /** A fresh C string reads as the text up to the first NUL. */
  lemma FreshText(h: Heap, at: int, s: Text)
    requires forall k :: 0 <= k <= |s| ==> Peek(h, at, k) == Ok((s + [NUL])[k])
    ensures TextAt(h, at, Cut(s))
  {
  }

  /** A filled slot stays filled when strings are added and other slots set. */
  lemma SlotStays(h: Heap, g: Heap, p: int, i: nat, text: Text)
    requires PointsTo(h, p, i, text) && Word(g, p, i) == Word(h, p, i)
    requires forall a :: a in h.chars ==> a in g.chars && g.chars[a] == h.chars[a]
    ensures PointsTo(g, p, i, text)
  {
  }

  /** Pointer_Array (Index) := .. */
  method SetSlot(m: Memory, p: int, i: nat, slots: nat, w: int)
    requires ValidHeap(m.H()) && i < slots && forall j :: 0 <= j < slots ==> Word(m.H(), p, j).Ok?
    modifies m`words
    ensures ValidHeap(m.H()) && Word(m.H(), p, i) == Ok(w)
    ensures forall j :: 0 <= j < slots && j != i ==> Word(m.H(), p, j) == old(Word(m.H(), p, j))
    ensures forall a :: a < p && a in old(m.words) ==> a in m.words && m.words[a] == old(m.words)[a]
  {
    assert Word(m.H(), p, i).Ok?;
    ghost var before := m.H();
    var offset := i * m.wordSize;
    OffsetIsNat(i, m.wordSize);
    m.words := m.words[p + offset := w];
    forall j | 0 <= j < slots && j != i ensures Word(m.H(), p, j) == Word(before, p, j) {
      OtherSlot(i, j, m.wordSize);
    }
  }

  lemma OffsetIsNat(i: nat, w: nat)
    ensures i * w >= 0
  {
  }

  lemma OtherSlot(i: nat, j: nat, w: nat)
    requires w > 0 && i != j
    ensures i * w != j * w
  {
  }

  /** The body the two conversions to C share: all slots null, then all but the last filled. */
  method FilledTable(m: Memory, items: seq<Text>, slots: nat) returns (p: int)
    requires ValidHeap(m.H()) && 0 < slots <= |items| + 1
    modifies m`words, m`chars, m`top
    ensures ValidHeap(m.H()) && Extends(old(m.H()), m.H()) && p == old(m.top)
    ensures TableAt(m.H(), p, CutAll(items[..slots - 1]))
  {
    p := NewTable(m, slots);
    for i := 0 to slots - 1
      invariant ValidHeap(m.H()) && Extends(old(m.H()), m.H()) && p == old(m.top) && p < m.top
      invariant forall j :: 0 <= j < slots ==> Word(m.H(), p, j).Ok?
      invariant forall j :: 0 <= j < i ==> PointsTo(m.H(), p, j, Cut(items[j]))
      invariant forall j :: i <= j < slots ==> Word(m.H(), p, j) == Ok(0)
    {
      FillSlot(m, p, items, i, slots);
    }
  }

  /** The loop body: a new C string, and its address in the table. */
  method FillSlot(m: Memory, p: int, items: seq<Text>, i: nat, slots: nat)
    requires ValidHeap(m.H()) && i < slots - 1 <= |items| && p < m.top
    requires forall j :: 0 <= j < slots ==> Word(m.H(), p, j).Ok?
    requires forall j :: 0 <= j < i ==> PointsTo(m.H(), p, j, Cut(items[j]))
    modifies m`words, m`chars, m`top
    ensures ValidHeap(m.H()) && m.top >= old(m.top)
    ensures forall a :: a in old(m.chars) ==> a in m.chars && m.chars[a] == old(m.chars)[a]
    ensures forall a :: a < p && a in old(m.words) ==> a in m.words && m.words[a] == old(m.words)[a]
    ensures forall j :: 0 <= j < slots ==> Word(m.H(), p, j).Ok?
    ensures forall j :: 0 <= j <= i ==> PointsTo(m.H(), p, j, Cut(items[j]))
    ensures forall j :: i < j < slots ==> Word(m.H(), p, j) == old(Word(m.H(), p, j))
  {
    ghost var before := m.H();
    var newString := items[i];
    var newCString := m.NewCString(newString);
    assert forall j :: 0 <= j < slots ==> Word(m.H(), p, j) == Word(before, p, j);
    assert Peek(m.H(), newCString.at, |newString|) == Ok((newString + [NUL])[|newString|]);
    var pointer := m.ToCString(newCString);
    FreshText(m.H(), newCString.at, newString);
    ghost var mid := m.H();
    SetSlot(m, p, i, slots, pointer.value);
    SlotFilled(mid, m.H(), p, i, newCString.at, Cut(newString));
    forall j | 0 <= j < i ensures PointsTo(m.H(), p, j, Cut(items[j])) {
      SlotStays(before, m.H(), p, j, Cut(items[j]));
    }
  }

  lemma SlotFilled(mid: Heap, h: Heap, p: int, i: nat, at: int, text: Text)
    requires TextAt(mid, at, text) && h.chars == mid.chars && at != 0 && Word(h, p, i) == Ok(at)
    ensures PointsTo(h, p, i, text)
  {
  }

  /** Convert_To_C_Terminated. */
  method ConvertToCTerminated(m: Memory, strings: StringArray) returns (r: Outcome<int>)
    requires ValidHeap(m.H()) && IsAdaArray(strings)
    modifies m`words, m`chars, m`top
    ensures ToC(old(m.H()), strings, true, m.H(), r)
    ensures strings.items == [] ==> r == LengthError
    ensures strings.items != [] ==>
      r == if strings.first + |strings.items| <= INTEGER_LAST then Ok(old(m.top)) else ConstraintError
  {
    if |strings.items| == 0 { return LengthError; }
    var last := strings.first + |strings.items| - 1;
    if last + 1 > INTEGER_LAST { return ConstraintError; }
    var p := FilledTable(m, strings.items, last + 1 - strings.first + 1);
    assert strings.items[..|strings.items|] == strings.items;
    return Ok(p);
  }

  /** Convert_To_C. */
  method ConvertToC(m: Memory, strings: StringArray) returns (r: Outcome<int>)
    requires ValidHeap(m.H()) && IsAdaArray(strings)
    modifies m`words, m`chars, m`top
    ensures ToC(old(m.H()), strings, false, m.H(), r)
    ensures r == if strings.items == [] then LengthError else Ok(old(m.top))
  {
    if |strings.items| == 0 { return LengthError; }
    var last := strings.first + |strings.items| - 1;
    var p := FilledTable(m, strings.items, last - strings.first + 1);
    return Ok(p);
  }

  /** The strings that get into the table: Convert_To_C stops before the last one. */
  function Stored(s: StringArray, terminated: bool): seq<Text>
    requires s.items != []
  {
    if terminated then s.items else s.items[..|s.items| - 1]
  }

  /** What a conversion to C does: an empty array is refused, and in the terminated form one whose
      last index has no successor; otherwise a table is built in fresh memory. */
  ghost predicate ToC(h: Heap, s: StringArray, terminated: bool, g: Heap, r: Outcome<int>) {
    if s.items == [] then g == h && r == LengthError
    else if terminated && s.first + |s.items| > INTEGER_LAST then g == h && r == ConstraintError
    else ValidHeap(g) && Extends(h, g) && r == Ok(h.top) && TableAt(g, h.top, CutAll(Stored(s, terminated)))
  }

  // ---- the round trips

  /** The last offset the conversion back computes is an Integer. */
  predicate InReach(h: Heap, s: StringArray) {
    |s.items| <= INTEGER_LAST && (s.items == [] || (|s.items| - 1) * h.wordSize <= INTEGER_LAST)
  }

  /** Convert_Terminated after Convert_To_C_Terminated: the strings, each up to its first NUL,
      whatever the index of the first one was; and so the strings themselves if and only if none
      has a NUL.  A table too long for its offsets raises. */
  lemma RoundTrip(h: Heap, s: StringArray, g: Heap, r: Outcome<int>)
    requires IsAdaArray(s) && ToC(h, s, true, g, r) && r.Ok?
    ensures ConvertTerminated(g, r.value) == if InReach(h, s) then Ok(CutAll(s.items)) else ConstraintError
    ensures InReach(h, s) ==> (ConvertTerminated(g, r.value) == Ok(s.items) <==> NoneHasNul(s.items))
  {
    TableReadsBack(g, r.value, CutAll(s.items));
    CutAllKeeps(s.items);
  }

  /** One slot past its strings a table reads as "". */
  lemma PastTheEnd(h: Heap, p: int, texts: seq<Text>)
    requires TableAt(h, p, texts) && Holdable(texts) && |texts| * h.wordSize <= INTEGER_LAST
    ensures SizeFrom(h, p, 0) == Ok(|texts|)
    ensures ConvertTerminated(h, p) == Ok(texts)
    ensures ConvertTo(h, p, |texts| + 1) == Ok(texts + [[]])
  {
    if texts != [] { OffsetGrows(|texts| - 1, h.wordSize); }
    TableReadsBack(h, p, texts);
    SizeOfTable(h, p, texts);
    ConvertOfTable(h, p, texts, |texts| + 1);
    assert (texts + [[]])[..|texts| + 1] == texts + [[]];
  }

  lemma CutLast(items: seq<Text>)
    requires items != []
    ensures CutAll(items) == CutAll(items[..|items| - 1]) + [[]] <==> Cut(items[|items| - 1]) == []
  {
  }

  /** After Convert_To_C, the slot of the last string is null: Convert of all slots finds "" there,
      the terminated forms find one string less, as if the last one had never been given; and the
      result is as meant if and only if the last string is empty up to its first NUL. */
  lemma LastStringIsLost(h: Heap, s: StringArray, g: Heap, r: Outcome<int>)
    requires IsAdaArray(s) && ToC(h, s, false, g, r) && r.Ok? && InReach(h, s)
    ensures var n := |s.items|;
      && SizeFrom(g, r.value, 0) == Ok(n - 1)
      && ConvertTerminated(g, r.value) == Ok(CutAll(s.items[..n - 1]))
      && ConvertTo(g, r.value, n) == Ok(CutAll(s.items[..n - 1]) + [[]])
      && (ConvertTo(g, r.value, n) == Ok(CutAll(s.items)) <==> Cut(s.items[n - 1]) == [])
  {
    CutLast(s.items);
    PastTheEnd(g, r.value, CutAll(s.items[..|s.items| - 1]));
  }

  /** It reads as if the last string had been left out and the terminated form used. */
  lemma LikeOneStringLess(h: Heap, s: StringArray, g: Heap, r: Outcome<int>, h': Heap, g': Heap, r': Outcome<int>)
    requires IsAdaArray(s) && |s.items| >= 2 && ToC(h, s, false, g, r) && InReach(h, s) && h'.wordSize == h.wordSize
    requires ToC(h', StringArray(s.first, s.items[..|s.items| - 1]), true, g', r')
    ensures r.Ok? && r'.Ok? && ConvertTerminated(g, r.value) == ConvertTerminated(g', r'.value)
  {
    var s' := StringArray(s.first, s.items[..|s.items| - 1]);
    OffsetGrows(|s.items| - 2, h.wordSize);
    LastStringIsLost(h, s, g, r);
    RoundTrip(h', s', g', r');
  }

  /** Deallocate and Deallocate_Terminated do nothing. */
  method Deallocate(m: Memory, pointer: int, size: nat)
    ensures m.H() == old(m.H())
  {
  }

  // ---- any sequence of calls

  datatype Call = ToTable(strings: StringArray, terminated: bool) | Free(pointer: int) | Read(pointer: int)

  ghost predicate CallStep(h: Heap, c: Call, g: Heap, r: Outcome<int>) {
    match c
    case ToTable(s, terminated) => IsAdaArray(s) && ToC(h, s, terminated, g, r)
    case Free(_) => g == h
    case Read(_) => g == h
  }

  method Perform(m: Memory, c: Call) returns (r: Outcome<int>)
    requires ValidHeap(m.H()) && (c.ToTable? ==> IsAdaArray(c.strings))
    modifies m`words, m`chars, m`top
    ensures CallStep(old(m.H()), c, m.H(), r) && ValidHeap(m.H())
  {
    match c
    case ToTable(s, terminated) =>
      if terminated { r := ConvertToCTerminated(m, s); } else { r := ConvertToC(m, s); }
    case Free(pointer) =>
      Deallocate(m, pointer, 0);
      r := Ok(pointer);
    case Read(pointer) =>
      var items := ReadTerminated(m, pointer);
      r := Ok(pointer);
  }

  /** hs[i] is the memory before call i. */
  ghost predicate CallRun(calls: seq<Call>, hs: seq<Heap>, rs: seq<Outcome<int>>) {
    && |hs| == |calls| + 1 && |rs| == |calls|
    && forall i :: 0 <= i < |calls| ==> CallStep(hs[i], calls[i], hs[i + 1], rs[i])
  }

  lemma {:induction false} MemoryOnlyGrows(calls: seq<Call>, hs: seq<Heap>, rs: seq<Outcome<int>>, m: nat, n: nat)
    requires CallRun(calls, hs, rs) && m <= n <= |calls|
    ensures Extends(hs[m], hs[n])
    decreases n - m
  {
    if m < n {
      MemoryOnlyGrows(calls, hs, rs, m, n - 1);
      assert CallStep(hs[n - 1], calls[n - 1], hs[n], rs[n - 1]);
    }
  }

  /** Over any sequence of conversions, deallocations and reads, an array returned earlier still
      reads as the same strings. */
  lemma EarlierArraysStay(calls: seq<Call>, hs: seq<Heap>, rs: seq<Outcome<int>>, i: nat, n: nat)
    requires CallRun(calls, hs, rs) && i < n <= |calls|
    requires calls[i].ToTable? && calls[i].strings.items != [] && rs[i].Ok? && InReach(hs[i], calls[i].strings)
    ensures ConvertTerminated(hs[n], rs[i].value) == Ok(CutAll(Stored(calls[i].strings, calls[i].terminated)))
  {
    assert CallStep(hs[i], calls[i], hs[i + 1], rs[i]);
    MemoryOnlyGrows(calls, hs, rs, i + 1, n);
    var texts := CutAll(Stored(calls[i].strings, calls[i].terminated));
    TableStays(hs[i + 1], hs[n], rs[i].value, texts);
    if |texts| > 0 && |texts| < |calls[i].strings.items| { OffsetGrows(|texts| - 1, hs[i].wordSize); }
    TableReadsBack(hs[n], rs[i].value, texts);
  }
}
