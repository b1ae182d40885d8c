/**
  A minimal archiver: a header of fixed size with names and positions, then the contents
  one after the other. The header is written first with the positions missing and written
  again over itself at the end. The extractor reads the header and copies one range.
 */
module MiniTar {
  import opened Files
  import opened Options

  const MAX_FILES: nat := 128
  const NAME_LENGTH: nat := 128
  const BUFSIZE: nat := 1024
  const HEADER_SIZE: nat := 4 + NAME_LENGTH * MAX_FILES + 4 * MAX_FILES + 4 * MAX_FILES
  const INT_LIMIT: nat := 0x8000_0000
  const WORD: nat := 0x1_0000_0000

  type Name = s: seq<byte> | 0 !in s

  /** A command-line argument, and the bytes of the file if it can be opened. */
  datatype Source = Source(name: Name, content: Option<seq<byte>>)

  /** One slot per file that can be managed, used or not. */
  datatype Header = Header(numFiles: int, names: seq<seq<byte>>, starts: seq<int>, ends: seq<int>)

  datatype TarResult = Usage | Done | NameTooLong(name: Name) | CannotOpen(name: Name)

  datatype ExtractResult = Found(content: seq<byte>) | NotFound | BadHeader

  predicate IsInt(v: int) { -(INT_LIMIT as int) <= v < INT_LIMIT }

  predicate WellFormed(h: Header) {
    && |h.names| == |h.starts| == |h.ends| == MAX_FILES
    && (forall i :: 0 <= i < MAX_FILES ==> |h.names[i]| == NAME_LENGTH)
  }

  /** An int as it comes out of four bytes: the number wrapped round at 2^32. */
  function Wrap(v: int): (w: int)
    ensures IsInt(w) && (IsInt(v) <==> w == v)
  {
    (v + INT_LIMIT) % WORD - INT_LIMIT
  }

  /** What reading a header back gives. */
  function Stored(h: Header): Header
    requires WellFormed(h)
  {
    Header(Wrap(h.numFiles), h.names, Wraps(h.starts), Wraps(h.ends))
  }

  function Wraps(vs: seq<int>): (ws: seq<int>)
    ensures |ws| == |vs|
  {
    seq(|vs|, i requires 0 <= i < |vs| => Wrap(vs[i]))
  }

  // --------------------------------------------------------- the header as bytes

  /** An int as it lies in memory: four bytes, the lowest first, two's complement. */
  function IntBytes(v: int): (b: seq<byte>)
    ensures |b| == 4
  {
    [v % 256, v / 256 % 256, v / 256 / 256 % 256, v / 256 / 256 / 256 % 256]
  }

  function IntOf(b: seq<byte>): int
    requires |b| == 4
  {
    var b0: int, b1: int, b2: int, b3: int := b[0], b[1], b[2], b[3];
    var u := b0 + 256 * b1 + 65536 * b2 + 16777216 * b3;
    if u < INT_LIMIT then u else u - WORD
  }

  /** Four bytes keep a number up to its multiples of 2^32, so exactly the ints survive. */
  lemma IntRoundTrip(v: int)
    ensures IntOf(IntBytes(v)) == Wrap(v)
    ensures IntOf(IntBytes(v)) == v <==> IsInt(v)
  {
    var x := v / 256;
    var y := x / 256;
    var z := y / 256;
    var w := z / 256;
    assert v == 256 * x + v % 256 && x == 256 * y + x % 256 && y == 256 * z + y % 256 && z == 256 * w + z % 256;
    var u := v - WORD * w;
    assert 0 <= u < WORD;
    assert IntOf(IntBytes(v)) == if u < INT_LIMIT then u else u - WORD;
    WrapIs(v, w, u);
  }

  lemma WrapIs(v: int, w: int, u: int)
    requires v == WORD * w + u && 0 <= u < WORD
    ensures Wrap(v) == if u < INT_LIMIT then u else u - WORD
  {
    if u < INT_LIMIT {
      assert (v + INT_LIMIT) % WORD == u + INT_LIMIT;
    } else {
      assert v + INT_LIMIT == WORD * (w + 1) + (u - INT_LIMIT);
      assert (v + INT_LIMIT) % WORD == u - INT_LIMIT;
    }
  }

  function Flatten(parts: seq<seq<byte>>): seq<byte> {
    if parts == [] then [] else parts[0] + Flatten(parts[1..])
  }

  function IntParts(vs: seq<int>): (parts: seq<seq<byte>>)
    ensures |parts| == |vs| && forall i :: 0 <= i < |parts| ==> |parts[i]| == 4
  {
    seq(|vs|, i requires 0 <= i < |vs| => IntBytes(vs[i]))
  }

  lemma {:induction false} FlattenLength(parts: seq<seq<byte>>, w: nat)
    requires forall i :: 0 <= i < |parts| ==> |parts[i]| == w
    ensures |Flatten(parts)| == w * |parts|
  {
    if parts != [] {
      FlattenLength(parts[1..], w);
      assert w * |parts| == w + w * (|parts| - 1);
    }
  }

  /** The first n pieces of w bytes. */
  function Pieces(b: seq<byte>, w: nat, n: nat): seq<seq<byte>>
    requires |b| >= w * n
    decreases n, |b|
  {
    if n == 0 then [] else
      assert w * n == w + w * (n - 1);
      [b[..w]] + Pieces(b[w..], w, n - 1)
  }

  lemma {:induction false} PiecesOfFlatten(parts: seq<seq<byte>>, w: nat, rest: seq<byte>)
    requires forall i :: 0 <= i < |parts| ==> |parts[i]| == w
    ensures |Flatten(parts) + rest| >= w * |parts|
    ensures Pieces(Flatten(parts) + rest, w, |parts|) == parts
  {
    FlattenLength(parts, w);
    if parts != [] {
      PiecesOfFlatten(parts[1..], w, rest);
      var b := Flatten(parts) + rest;
      assert b == parts[0] + (Flatten(parts[1..]) + rest);
      assert b[..w] == parts[0] && b[w..] == Flatten(parts[1..]) + rest;
    }
  }

  function Ints(parts: seq<seq<byte>>): (vs: seq<int>)
    requires forall i :: 0 <= i < |parts| ==> |parts[i]| == 4
    ensures |vs| == |parts|
  {
    seq(|parts|, i requires 0 <= i < |parts| => IntOf(parts[i]))
  }

  function HeaderBytes(h: Header): (b: seq<byte>)
    requires WellFormed(h)
    ensures |b| == HEADER_SIZE
  {
    FlattenLength(h.names, NAME_LENGTH);
    FlattenLength(IntParts(h.starts), 4);
    FlattenLength(IntParts(h.ends), 4);
    IntBytes(h.numFiles) + Flatten(h.names) + Flatten(IntParts(h.starts)) + Flatten(IntParts(h.ends))
  }

  lemma {:induction false} PieceLengths(b: seq<byte>, w: nat, n: nat)
    requires |b| >= w * n
    ensures |Pieces(b, w, n)| == n && forall i :: 0 <= i < n ==> |Pieces(b, w, n)[i]| == w
  {
    if n > 0 {
      assert w * n == w + w * (n - 1);
      PieceLengths(b[w..], w, n - 1);
    }
  }

  function HeaderOf(b: seq<byte>): (h: Header)
    requires |b| == HEADER_SIZE
    ensures WellFormed(h)
  {
    var names, starts, ends := b[4..], b[4 + NAME_LENGTH * MAX_FILES..], b[4 + NAME_LENGTH * MAX_FILES + 4 * MAX_FILES..];
    PieceLengths(names, NAME_LENGTH, MAX_FILES);
    PieceLengths(starts, 4, MAX_FILES);
    PieceLengths(ends, 4, MAX_FILES);
    Header(IntOf(b[..4]), Pieces(names, NAME_LENGTH, MAX_FILES), Ints(Pieces(starts, 4, MAX_FILES)), Ints(Pieces(ends, 4, MAX_FILES)))
  }

  lemma IntsRoundTrip(vs: seq<int>)
    ensures Ints(IntParts(vs)) == Wraps(vs)
  {
    forall i | 0 <= i < |vs| ensures Ints(IntParts(vs))[i] == Wraps(vs)[i] { IntRoundTrip(vs[i]); }
  }

  /** A header written and read back keeps its names, and its numbers as far as they are ints. */
  lemma HeaderRoundTrip(h: Header)
    requires WellFormed(h)
    ensures HeaderOf(HeaderBytes(h)) == Stored(h)
  {
    var n, a, z := Flatten(h.names), Flatten(IntParts(h.starts)), Flatten(IntParts(h.ends));
    FlattenLength(h.names, NAME_LENGTH);
    FlattenLength(IntParts(h.starts), 4);
    FlattenLength(IntParts(h.ends), 4);
    var b := HeaderBytes(h);
    assert b[..4] == IntBytes(h.numFiles) && b[4..] == n + (a + z);
    assert b[4 + NAME_LENGTH * MAX_FILES..] == a + z;
    assert b[4 + NAME_LENGTH * MAX_FILES + 4 * MAX_FILES..] == z + [];
    PiecesOfFlatten(h.names, NAME_LENGTH, a + z);
    PiecesOfFlatten(IntParts(h.starts), 4, z);
    PiecesOfFlatten(IntParts(h.ends), 4, []);
    IntRoundTrip(h.numFiles);
    IntsRoundTrip(h.starts);
    IntsRoundTrip(h.ends);
  }

  // ----------------------------------------------------------- what an archive is

  /** The contents of the first i sources, one after the other. */
  function Joined(sources: seq<Source>, i: nat): seq<byte>
    requires i <= |sources|
  {
    if i == 0 then [] else Joined(sources, i - 1) + ContentOf(sources[i - 1])
  }

  function ContentOf(s: Source): seq<byte> { if s.content.Some? then s.content.value else [] }

  function Padded(name: Name): seq<byte> {
    if |name| <= NAME_LENGTH then name + Zeros(NAME_LENGTH - |name|) else name
  }

  /** Where source i starts in the archive; source i - 1 ends there. */
  function Position(sources: seq<Source>, i: nat): nat
    requires i <= |sources|
  {
    HEADER_SIZE + |Joined(sources, i)|
  }

  /** The header after the positions of the first `placed` of `named` sources are known. */
  function HeaderAfter(sources: seq<Source>, named: nat, placed: nat): Header
    requires placed <= |sources| && named <= |sources|
  {
    Header(named,
           seq(MAX_FILES, i requires i >= 0 => if i < named then Padded(sources[i].name) else Zeros(NAME_LENGTH)),
           seq(MAX_FILES, i requires i >= 0 => if i < placed then Position(sources, i) else 0),
           seq(MAX_FILES, i requires i >= 0 => if i < placed then Position(sources, i + 1) else 0))
  }

  /** What keeps a source list from being archived, the first obstacle first. */
  function Check(sources: seq<Source>, i: nat): TarResult
    requires i <= |sources|
    decreases |sources| - i
  {
    if i == |sources| then Done
    else if |sources[i].name| >= NAME_LENGTH then NameTooLong(sources[i].name)
    else if sources[i].content.None? then CannotOpen(sources[i].name)
    else Check(sources, i + 1)
  }

  predicate Archivable(sources: seq<Source>) {
    && |sources| <= MAX_FILES
    && forall i :: 0 <= i < |sources| ==> |sources[i].name| < NAME_LENGTH && sources[i].content.Some?
  }

  lemma {:induction false} CheckMeans(sources: seq<Source>, i: nat)
    requires i <= |sources|
    ensures Check(sources, i) == Done <==>
      forall k :: i <= k < |sources| ==> |sources[k].name| < NAME_LENGTH && sources[k].content.Some?
    decreases |sources| - i
  {
    if i < |sources| { CheckMeans(sources, i + 1); }
  }

  /** The header of a finished archive. */
  function Written(sources: seq<Source>): (h: Header)
    requires Archivable(sources)
    ensures WellFormed(h)
  {
    HeaderAfter(sources, |sources|, |sources|)
  }

  function Archive(sources: seq<Source>): (a: seq<byte>)
    requires Archivable(sources)
    ensures |a| == Position(sources, |sources|) >= HEADER_SIZE
  {
    HeaderBytes(Written(sources)) + Joined(sources, |sources|)
  }

  // ------------------------------------------------------------------ mini-tar

  /** Copies a file to the end of another through a buffer, whatever read returns each time. */
  method CopyAll(src: File, dd: File)
    requires src != dd && src.offset == 0 && dd.offset == |dd.content|
    modifies src, dd
    ensures src.content == old(src.content)
    ensures dd.content == old(dd.content) + src.content && dd.offset == |dd.content|
  {
    var buffer := new byte[BUFSIZE];
    var size: nat := 1;
    assert src.content[..0] == [];
    while size > 0
      invariant src.content == old(src.content) && src.offset <= |src.content|
      invariant dd.content == old(dd.content) + src.content[..src.offset] && dd.offset == |dd.content|
      invariant size == 0 ==> src.offset == |src.content|
      decreases |src.content| - src.offset, size
    {
      ghost var was := src.offset;
      size := src.ReadSome(buffer, BUFSIZE);
      assert size > 0 ==> src.content[..src.offset] == src.content[..was] + buffer[..size];
      assert size == 0 ==> buffer[..size] == [];
      dd.Write(buffer, size);
    }
    assert src.content[..src.offset] == src.content;
  }

  method WriteHeader(h: Header, dd: File)
    requires WellFormed(h)
    modifies dd
    ensures dd.content == Overwritten(old(dd.content), old(dd.offset), HeaderBytes(h))
    ensures dd.offset == old(dd.offset) + HEADER_SIZE
  {
    var bytes := HeaderBytes(h);
    var memory := new byte[HEADER_SIZE](i requires 0 <= i < |bytes| => bytes[i]);
    assert memory[..HEADER_SIZE] == bytes;
    dd.Write(memory, HEADER_SIZE);
  }

  /** Opens the sources and collects their names, up to the first obstacle. */
  method OpenAll(sources: seq<Source>) returns (r: TarResult, h: Header, descriptors: seq<File>)
    requires |sources| <= MAX_FILES
    ensures r == Check(sources, 0)
    ensures r == Done ==>
      && h == HeaderAfter(sources, |sources|, 0) && |descriptors| == |sources|
      && (forall k :: 0 <= k < |sources| ==>
            fresh(descriptors[k]) && descriptors[k].content == ContentOf(sources[k]) && descriptors[k].offset == 0)
      && (forall k, l :: 0 <= k < l < |sources| ==> descriptors[k] != descriptors[l])
  {
    h := Header(0, seq(MAX_FILES, i => Zeros(NAME_LENGTH)), seq(MAX_FILES, i => 0), seq(MAX_FILES, i => 0));
    assert h == HeaderAfter(sources, 0, 0);
    descriptors := [];
    r := Done;
    var i := 0;
    while i < |sources|
      invariant 0 <= i <= |sources| && |descriptors| == i && Check(sources, 0) == Check(sources, i)
      invariant h == HeaderAfter(sources, i, 0)
      invariant forall k :: 0 <= k < i ==>
        fresh(descriptors[k]) && descriptors[k].content == ContentOf(sources[k]) && descriptors[k].offset == 0
      invariant forall k, l :: 0 <= k < l < i ==> descriptors[k] != descriptors[l]
    {
      h := h.(numFiles := h.numFiles + 1);
      if |sources[i].name| >= NAME_LENGTH { return NameTooLong(sources[i].name), h, descriptors; }
      if sources[i].content.None? { return CannotOpen(sources[i].name), h, descriptors; }
      var f := new File(sources[i].content.value);
      descriptors := descriptors + [f];
      h := h.(names := h.names[i := Padded(sources[i].name)]);
      i := i + 1;
      assert h.names == HeaderAfter(sources, i, 0).names;
    }
  }

  /** Appends the contents one after the other and notes where each begins and ends. */
  method PlaceAll(sources: seq<Source>, unplaced: Header, descriptors: seq<File>, dd: File) returns (h: Header)
    requires |sources| <= MAX_FILES && |descriptors| == |sources| && unplaced == HeaderAfter(sources, |sources|, 0)
    requires |dd.content| == HEADER_SIZE == dd.offset
    requires forall k :: 0 <= k < |sources| ==>
      descriptors[k] != dd && descriptors[k].content == ContentOf(sources[k]) && descriptors[k].offset == 0
    requires forall k, l :: 0 <= k < l < |sources| ==> descriptors[k] != descriptors[l]
    modifies dd, descriptors
    ensures h == HeaderAfter(sources, |sources|, |sources|)
    ensures dd.content == old(dd.content) + Joined(sources, |sources|)
  {
    h := unplaced;
    var i := 0;
    while i < |sources|
      invariant 0 <= i <= |sources| && h == HeaderAfter(sources, |sources|, i)
      invariant dd.content == old(dd.content) + Joined(sources, i) && dd.offset == |dd.content|
      invariant forall k :: i <= k < |sources| ==>
        descriptors[k].content == ContentOf(sources[k]) && descriptors[k].offset == 0
    {
      h := PlaceOne(sources, h, i, descriptors[i], dd, old(dd.content));
      i := i + 1;
    }
  }

  /** Appends one content and notes where it begins and ends. */
  method PlaceOne(sources: seq<Source>, placed: Header, i: nat, src: File, dd: File, ghost front: seq<byte>)
    returns (h: Header)
    requires i < |sources| <= MAX_FILES && placed == HeaderAfter(sources, |sources|, i)
    requires |front| == HEADER_SIZE && dd.content == front + Joined(sources, i) && dd.offset == |dd.content|
    requires src != dd && src.content == ContentOf(sources[i]) && src.offset == 0
    modifies dd, src
    ensures h == HeaderAfter(sources, |sources|, i + 1)
    ensures dd.content == front + Joined(sources, i + 1) && dd.offset == |dd.content|
  {
    Placed(sources, placed, i);
    Appended(front, sources, i);
    var start := dd.offset;
    CopyAll(src, dd);
    h := placed.(starts := placed.starts[i := start], ends := placed.ends[i := dd.offset]);
  }

  lemma Appended(front: seq<byte>, sources: seq<Source>, i: nat)
    requires i < |sources|
    ensures (front + Joined(sources, i)) + ContentOf(sources[i]) == front + Joined(sources, i + 1)
  {
  }

  lemma Placed(sources: seq<Source>, h: Header, i: nat)
    requires i < |sources| <= MAX_FILES && h == HeaderAfter(sources, |sources|, i)
    ensures h.(starts := h.starts[i := Position(sources, i)], ends := h.ends[i := Position(sources, i + 1)])
         == HeaderAfter(sources, |sources|, i + 1)
  {
    var next := HeaderAfter(sources, |sources|, i + 1);
    assert h.starts[i := Position(sources, i)] == next.starts;
    assert h.ends[i := Position(sources, i + 1)] == next.ends;
  }

  /** The header written again at offset 0 covers itself and nothing else. */
  lemma BackPatch(first: seq<byte>, second: seq<byte>, rest: seq<byte>)
    requires |first| == |second|
    ensures Overwritten(first + rest, 0, second) == second + rest
  {
  }

  /** The archiver. The destination has just been created or emptied. */
  method Tar(sources: seq<Source>, dd: File) returns (r: TarResult)
    requires |sources| <= MAX_FILES && dd.content == [] && dd.offset == 0
    modifies dd
    ensures r == if sources == [] then Usage else Check(sources, 0)
    ensures if r == Done then Archivable(sources) && dd.content == Archive(sources) else dd.content == []
  {
    if sources == [] { return Usage; }
    var h, descriptors;
    r, h, descriptors := OpenAll(sources);
    if r != Done { return; }
    CheckMeans(sources, 0);
    WriteHeader(h, dd);
    ghost var first := dd.content;
    h := PlaceAll(sources, h, descriptors, dd);
    BackPatch(first, HeaderBytes(h), Joined(sources, |sources|));
    dd.SeekSet(0);
    WriteHeader(h, dd);
  }

  // ------------------------------------------------------------------ extraction

  /** The name in a slot of the header, up to its terminator. */
  function CString(b: seq<byte>): seq<byte> {
    if b == [] || b[0] == 0 then [] else [b[0]] + CString(b[1..])
  }

  /** The first slot from i on that carries the name. */
  function Lookup(names: seq<seq<byte>>, name: Name, i: nat): Option<nat>
    requires i <= |names|
    decreases |names| - i
  {
    if i == |names| then None else if CString(names[i]) == name then Some(i) else Lookup(names, name, i + 1)
  }

  /** The header, if the archive is long enough to have one. */
  method ReadHeader(dd: File) returns (r: Option<Header>)
    requires dd.offset == 0
    modifies dd`offset
    ensures r == if |dd.content| >= HEADER_SIZE then Some(HeaderOf(dd.content[..HEADER_SIZE])) else None
    ensures r.Some? ==> dd.offset == HEADER_SIZE
  {
    var memory := new byte[HEADER_SIZE];
    var k := dd.Read(memory, HEADER_SIZE);
    if k != HEADER_SIZE { return None; }
    assert memory[..k] == memory[..] == dd.content[..HEADER_SIZE];
    r := Some(HeaderOf(memory[..]));
  }

  /** How many bytes are copied: up to the end, from the start, or from -1 when lseek refuses the start. */
  function Count(start: int, end: int): nat {
    var from := if start >= 0 then start else -1;
    if from < end then end - from else 0
  }

  /** Where they are read: from the start, or behind the header when lseek refuses the start. */
  function Begin(start: int): nat { if start >= 0 then start else HEADER_SIZE }

  /** A byte of the archive, or behind its end the byte before once more; before any was read it is anything. */
  predicate ByteIs(archive: seq<byte>, begin: nat, content: seq<byte>, k: nat)
    requires k < |content|
  {
    if begin + k < |archive| then content[k] == archive[begin + k] else k > 0 ==> content[k] == content[k - 1]
  }

  /** What copying from one position to another prints. */
  predicate RangeIs(archive: seq<byte>, start: int, end: int, content: seq<byte>) {
    && |content| == Count(start, end)
    && forall k: nat :: k < |content| ==> ByteIs(archive, Begin(start), content, k)
  }

  /** Copies the bytes from one position to another to standard output, one at a time. */
  method CopyRange(dd: File, start: int, end: int) returns (out: seq<byte>)
    requires dd.offset == HEADER_SIZE
    modifies dd`offset
    ensures RangeIs(dd.content, start, end, out)
  {
    var c := new byte[1];
    out := [];
    var seek := -1;
    if start >= 0 {
      dd.SeekSet(start);
      seek := start;
    }
    ghost var from, begin := seek, Begin(start);
    while seek < end
      invariant seek == from + |out| && (out != [] ==> seek <= end)
      invariant dd.offset == if begin + |out| <= |dd.content| || out == [] then begin + |out|
                             else if begin <= |dd.content| then |dd.content| else begin
      invariant forall k: nat :: k < |out| ==> ByteIs(dd.content, begin, out, k)
      invariant out != [] ==> c[0] == out[|out| - 1]
    {
      ghost var at, before := dd.offset, c[..];
      var k := dd.Read(c, 1);
      assert if k > 0 then c[..k][0] == dd.content[at..at + k][0] else c[k..][0] == before[0];
      CopiedOn(dd.content, begin, out, c[0]);
      out := out + [c[0]];
      seek := seek + 1;
    }
  }

  lemma CopiedOn(archive: seq<byte>, begin: nat, out: seq<byte>, x: byte)
    requires forall k: nat :: k < |out| ==> ByteIs(archive, begin, out, k)
    requires if begin + |out| < |archive| then x == archive[begin + |out|] else out != [] ==> x == out[|out| - 1]
    ensures forall k: nat :: k < |out + [x]| ==> ByteIs(archive, begin, out + [x], k)
  {
    forall k: nat | k < |out + [x]| ensures ByteIs(archive, begin, out + [x], k) {
      if k < |out| {
        assert ByteIs(archive, begin, out, k);
      }
    }
  }

  /** r is what extraction may give: the range noted for the first slot of that name. */
  predicate Answers(archive: seq<byte>, name: Name, r: ExtractResult) {
    if |archive| < HEADER_SIZE then r == BadHeader else
      var h := HeaderOf(archive[..HEADER_SIZE]);
      var slot := Lookup(h.names, name, 0);
      if slot == None then r == NotFound else
        r.Found? && slot.value < MAX_FILES && RangeIs(archive, h.starts[slot.value], h.ends[slot.value], r.content)
  }

  /** The loop over the slots. */
  method FindSlot(names: seq<seq<byte>>, name: Name) returns (slot: Option<nat>)
    ensures slot == Lookup(names, name, 0) && (slot.Some? ==> slot.value < |names|)
  {
    for i := 0 to |names|
      invariant Lookup(names, name, 0) == Lookup(names, name, i)
    {
      if CString(names[i]) == name { return Some(i); }
    }
    slot := None;
  }

  /** The extractor. */
  method Extract(dd: File, name: Name) returns (r: ExtractResult)
    requires dd.offset == 0
    modifies dd`offset
    ensures Answers(dd.content, name, r)
  {
    var header := ReadHeader(dd);
    if header == None { return BadHeader; }
    var h := header.value;
    var slot := FindSlot(h.names, name);
    if slot == None { return NotFound; }
    var content := CopyRange(dd, h.starts[slot.value], h.ends[slot.value]);
    r := Found(content);
  }

  // ------------------------------------------------------------------ round trip

  lemma {:induction false} PaddedName(name: Name, n: nat)
    ensures CString(name + Zeros(n)) == name
  {
    if name == [] {
      if n > 0 { assert Zeros(n)[0] == 0; }
    } else {
      assert (name + Zeros(n))[1..] == name[1..] + Zeros(n);
      assert name[0] in name;
      assert 0 !in name[1..];
      PaddedName(name[1..], n);
    }
  }

  lemma {:induction false} JoinedGrows(sources: seq<Source>, i: nat, n: nat)
    requires i <= n <= |sources|
    ensures Joined(sources, i) <= Joined(sources, n)
  {
    if i < n { JoinedGrows(sources, i, n - 1); }
  }

  lemma JoinedAt(sources: seq<Source>, i: nat, n: nat)
    requires i < n <= |sources|
    ensures |Joined(sources, i)| <= |Joined(sources, i + 1)| <= |Joined(sources, n)|
    ensures Joined(sources, n)[|Joined(sources, i)|..|Joined(sources, i + 1)|] == ContentOf(sources[i])
  {
    JoinedGrows(sources, i + 1, n);
    var a, c, all := Joined(sources, i), ContentOf(sources[i]), Joined(sources, n);
    assert Joined(sources, i + 1) == a + c;
    assert all[..|a + c|] == a + c;
    assert all[|a|..|a + c|] == all[..|a + c|][|a|..];
  }

  /** Ranges are adjacent, behind the header, and inside the archive. */
  lemma RangeOf(sources: seq<Source>, i: nat)
    requires Archivable(sources) && i < |sources|
    ensures HEADER_SIZE <= Position(sources, i) <= Position(sources, i + 1) <= |Archive(sources)|
    ensures Archive(sources)[Position(sources, i)..Position(sources, i + 1)] == ContentOf(sources[i])
  {
    JoinedAt(sources, i, |sources|);
    SliceBehind(HeaderBytes(Written(sources)), Joined(sources, |sources|),
                |Joined(sources, i)|, |Joined(sources, i + 1)|);
  }

  lemma SliceBehind(h: seq<byte>, all: seq<byte>, i: nat, j: nat)
    requires i <= j <= |all|
    ensures (h + all)[|h| + i..|h| + j] == all[i..j]
  {
  }

  predicate NameAt(sources: seq<Source>, name: Name, i: nat) {
    i < |sources| && sources[i].name == name && forall k :: 0 <= k < i ==> sources[k].name != name
  }

  /** No source has the name. */
  predicate Absent(sources: seq<Source>, name: Name) {
    forall i :: 0 <= i < |sources| ==> sources[i].name != name
  }

  /** The names in the header of an archive. */
  function Names(sources: seq<Source>): (names: seq<seq<byte>>)
    requires Archivable(sources)
    ensures |names| == MAX_FILES
  {
    Written(sources).names
  }

  lemma SlotName(sources: seq<Source>, i: nat)
    requires Archivable(sources) && i < MAX_FILES
    ensures CString(Names(sources)[i]) == if i < |sources| then sources[i].name else []
  {
    if i < |sources| {
      PaddedName(sources[i].name, NAME_LENGTH - |sources[i].name|);
    } else {
      PaddedName([], NAME_LENGTH);
      assert Zeros(NAME_LENGTH) == [] + Zeros(NAME_LENGTH);
    }
  }

  /** The slot is that of the first source of the name, or none if there is no such source; see ArchiveAnswers. */
  predicate Finds(sources: seq<Source>, name: Name, slot: Option<nat>) {
    match slot
    case None => Absent(sources, name) && (name != [] || |sources| == MAX_FILES)
    case Some(k) => k < MAX_FILES && (NameAt(sources, name, k) || (k == |sources| && name == [] && Absent(sources, name)))
  }

  lemma {:induction false} LookupFinds(sources: seq<Source>, name: Name, i: nat)
    requires Archivable(sources) && i <= MAX_FILES
    requires forall k :: 0 <= k < i && k < |sources| ==> sources[k].name != name
    requires i > |sources| ==> name != []
    ensures Finds(sources, name, Lookup(Names(sources), name, i))
    decreases MAX_FILES - i
  {
    if i < MAX_FILES {
      SlotName(sources, i);
      if CString(Names(sources)[i]) != name { LookupFinds(sources, name, i + 1); }
    }
  }

  /** The header read back: the names, and the positions as far as they are ints. */
  lemma ArchivedHeader(sources: seq<Source>)
    requires Archivable(sources)
    ensures HeaderOf(Archive(sources)[..HEADER_SIZE]) == Stored(Written(sources))
  {
    var h := Written(sources);
    HeaderRoundTrip(h);
    FrontIs(HeaderBytes(h), Joined(sources, |sources|));
  }

  lemma FrontIs(h: seq<byte>, rest: seq<byte>)
    ensures (h + rest)[..|h|] == h
  {
  }

  lemma StoredSlot(sources: seq<Source>, k: nat)
    requires Archivable(sources) && k < MAX_FILES
    ensures var h := Stored(Written(sources));
      && h.names == Names(sources)
      && (k < |sources| ==> h.starts[k] == Wrap(Position(sources, k)) && h.ends[k] == Wrap(Position(sources, k + 1)))
      && (k >= |sources| ==> h.starts[k] == h.ends[k] == 0)
  {
  }

  /** The header read back is the one written exactly when every position fits an int. */
  lemma HeaderSurvivesExactlyWhen(sources: seq<Source>)
    requires Archivable(sources)
    ensures HeaderOf(Archive(sources)[..HEADER_SIZE]) == Written(sources)
            <==> |Archive(sources)| < INT_LIMIT
  {
    var n, h := |sources|, Written(sources);
    ArchivedHeader(sources);
    if |Archive(sources)| < INT_LIMIT {
      PositionsAreInts(sources);
    } else {
      StoredSlot(sources, n - 1);
      assert h.ends[n - 1] == Position(sources, n);
    }
  }

  lemma PositionsAreInts(sources: seq<Source>)
    requires Archivable(sources) && |Archive(sources)| < INT_LIMIT
    ensures var h := Written(sources); Stored(h) == h
  {
    var h := Written(sources);
    forall k | 0 <= k < MAX_FILES ensures Wrap(h.starts[k]) == h.starts[k] && Wrap(h.ends[k]) == h.ends[k] {
      if k < |sources| { RangeOf(sources, k); }
    }
    assert Wraps(h.starts) == h.starts && Wraps(h.ends) == h.ends;
  }

  /** What is printed of the range that the header notes for source i. */
  predicate NotedRange(sources: seq<Source>, i: nat, content: seq<byte>)
    requires Archivable(sources) && i < |sources|
  {
    RangeIs(Archive(sources), Wrap(Position(sources, i)), Wrap(Position(sources, i + 1)), content)
  }

  /**
    What an archive answers for a name: the range noted for the first source of that name;
    nothing for a name that was not archived. The empty name is the exception: unless the
    archive is full it finds the first unused slot, an empty range.
   */
  lemma ArchiveAnswers(sources: seq<Source>, name: Name, r: ExtractResult)
    requires Archivable(sources) && Answers(Archive(sources), name, r)
    ensures if Absent(sources, name) then r == (if name == [] && |sources| < MAX_FILES then Found([]) else NotFound)
      else r.Found? && exists i: nat :: NameAt(sources, name, i) && NotedRange(sources, i, r.content)
  {
    ArchivedHeader(sources);
    LookupFinds(sources, name, 0);
    StoredSlot(sources, 0);
    var slot := Lookup(Names(sources), name, 0);
    if slot.Some? {
      StoredSlot(sources, slot.value);
      assert NameAt(sources, name, slot.value) || r == Found([]);
    }
  }

  // ------------------------------------------------------------------ which contents survive

  /**
    The content of source i can be extracted: its range ends below 2^31, or it is empty, or
    its positions, wrapped round at 2^32, happen to name a range with the same bytes.
   */
  predicate Intact(sources: seq<Source>, i: nat)
    requires Archivable(sources) && i < |sources|
  {
    || Position(sources, i + 1) < INT_LIMIT
    || ContentOf(sources[i]) == []
    || (Position(sources, i + 1) >= WORD && Repeated(sources, i))
  }

  predicate Repeated(sources: seq<Source>, i: nat)
    requires Archivable(sources) && i < |sources|
  {
    var start, c := Wrap(Position(sources, i)), ContentOf(sources[i]);
    && Count(start, Wrap(Position(sources, i + 1))) == |c|
    && Begin(start) + |c| <= |Archive(sources)|
    && Archive(sources)[Begin(start)..Begin(start) + |c|] == c
  }

  /** A range inside the archive is copied as it is. */
  lemma InsideIsCopied(archive: seq<byte>, start: int, end: int, content: seq<byte>)
    requires RangeIs(archive, start, end, content) && Begin(start) + |content| <= |archive|
    ensures content == archive[Begin(start)..Begin(start) + |content|]
  {
    forall k: nat | k < |content| ensures content[k] == archive[Begin(start) + k] {
      assert ByteIs(archive, Begin(start), content, k);
    }
  }

  /** Where the content of source i is looked for lies inside the archive. */
  lemma WrappedInside(sources: seq<Source>, i: nat)
    requires Archivable(sources) && i < |sources|
    ensures Begin(Wrap(Position(sources, i))) + |ContentOf(sources[i])| <= |Archive(sources)|
    ensures Position(sources, i + 1) == Position(sources, i) + |ContentOf(sources[i])|
  {
    RangeOf(sources, i);
    assert Wrap(Position(sources, i)) <= Position(sources, i);
  }

  /** Extracting gives the content exactly if it is intact; nothing at all between 2^31 and 2^32. */
  lemma ExtractedExactlyWhen(sources: seq<Source>, i: nat, content: seq<byte>)
    requires Archivable(sources) && i < |sources|
    requires NotedRange(sources, i, content)
    ensures content == ContentOf(sources[i]) <==> Intact(sources, i)
    ensures INT_LIMIT <= Position(sources, i + 1) < WORD ==> content == []
  {
    var c, start, end := ContentOf(sources[i]), Position(sources, i), Position(sources, i + 1);
    WrappedInside(sources, i);
    WrapBelowWord(end);
    if |content| == |c| {
      InsideIsCopied(Archive(sources), Wrap(start), Wrap(end), content);
    }
    if end < INT_LIMIT {
      RangeOf(sources, i);
    }
  }

  lemma WrapBelowWord(v: int)
    requires v >= 0
    ensures INT_LIMIT <= v < WORD ==> Wrap(v) < 0
  {
  }

  /**
    The round trip: on what Tar wrote Extract gives the content of the first source of that
    name, byte for byte, exactly if it is intact, and reports absent names. Below 2^32 the
    sizes alone decide: a content that ends at 2^31 or behind comes out empty.
   */
  lemma RoundTrip(sources: seq<Source>, name: Name, r: ExtractResult)
    requires Archivable(sources) && Answers(Archive(sources), name, r)
    ensures Absent(sources, name) ==> r == if name == [] && |sources| < MAX_FILES then Found([]) else NotFound
    ensures forall i: nat :: NameAt(sources, name, i) ==>
      && (r == Found(ContentOf(sources[i])) <==> Intact(sources, i))
      && (Position(sources, i + 1) < WORD ==>
            (r == Found(ContentOf(sources[i])) <==> Position(sources, i + 1) < INT_LIMIT || ContentOf(sources[i]) == []))
      && (INT_LIMIT <= Position(sources, i + 1) < WORD ==> r == Found([]))
  {
    ArchiveAnswers(sources, name, r);
    forall i: nat | NameAt(sources, name, i)
      ensures r == Found(ContentOf(sources[i])) <==> Intact(sources, i)
      ensures INT_LIMIT <= Position(sources, i + 1) < WORD ==> r == Found([])
    {
      var j: nat :| NameAt(sources, name, j) && NotedRange(sources, j, r.content);
      assert i == j;
      ExtractedExactlyWhen(sources, i, r.content);
    }
  }

  /** A short file, and a long one behind it: the first is extracted as it was, the second as nothing. */
  lemma LongArchive(short: seq<byte>, long: seq<byte>, first: ExtractResult, second: ExtractResult)
    requires |short| <= 1000 && |long| == INT_LIMIT
    requires Answers(Archive(TwoFiles(short, long)), [97], first) && Answers(Archive(TwoFiles(short, long)), [98], second)
    ensures first == Found(short) && second == Found([]) && second != Found(long)
  {
    var sources := TwoFiles(short, long);
    RoundTrip(sources, [97], first);
    RoundTrip(sources, [98], second);
    assert NameAt(sources, [97], 0) && NameAt(sources, [98], 1);
    TwoPositions(short, long);
  }

  function TwoFiles(short: seq<byte>, long: seq<byte>): (sources: seq<Source>)
    ensures Archivable(sources)
  {
    [Source([97], Some(short)), Source([98], Some(long))]
  }

  lemma TwoPositions(short: seq<byte>, long: seq<byte>)
    ensures Position(TwoFiles(short, long), 1) == HEADER_SIZE + |short|
    ensures Position(TwoFiles(short, long), 2) == HEADER_SIZE + |short| + |long|
  {
    var sources := TwoFiles(short, long);
    assert Joined(sources, 1) == short && Joined(sources, 2) == short + long;
  }
}
