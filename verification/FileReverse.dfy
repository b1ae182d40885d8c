/**
  Reversing a file in place, byte by byte and block by block. Both programs move the two
  ends towards each other and rely on where read and write leave the offset.
 */
module FileReverse {
  import opened Files

  function Reversed(s: seq<byte>): (r: seq<byte>)
    ensures |r| == |s|
  {
    seq(|s|, i requires 0 <= i < |s| => s[|s| - 1 - i])
  }

  lemma ReversedTwice(s: seq<byte>)
    ensures Reversed(Reversed(s)) == s
  {
  }

  /** Byte i, once the outermost k bytes at either end have changed places. */
  predicate OuterAt(was: seq<byte>, now: seq<byte>, k: nat, i: nat)
    requires i < |was| == |now|
  {
    now[i] == if i < k || i >= |was| - k then was[|was| - 1 - i] else was[i]
  }

  predicate Outer(was: seq<byte>, now: seq<byte>, k: nat) {
    |now| == |was| && 2 * k <= |was| && forall i :: 0 <= i < |was| ==> OuterAt(was, now, k, i)
  }

  /** The block after the outermost k bytes at the front, and the one before them at the back. */
  function SwappedBlocks(now: seq<byte>, k: nat, b: nat): (next: seq<byte>)
    requires 2 * (k + b) <= |now|
    ensures |next| == |now|
  {
    var back := |now| - k - b;
    now[..k] + Reversed(now[back..back + b]) + now[k + b..back] + Reversed(now[k..k + b]) + now[back + b..]
  }

  /** Exchanging two blocks and reversing each carries the reversal on by their length. */
  lemma SwapCarriesOn(was: seq<byte>, now: seq<byte>, k: nat, b: nat)
    requires Outer(was, now, k) && 2 * (k + b) <= |was|
    ensures Outer(was, SwappedBlocks(now, k, b), k + b)
  {
    var next, n, m := SwappedBlocks(now, k, b), |was|, k + b;
    forall i | 0 <= i < n ensures OuterAt(was, next, m, i) {
      SwappedAt(now, k, b, i);
      assert OuterAt(was, now, k, i) && OuterAt(was, now, k, n - 1 - i);
    }
  }

  lemma SwappedAt(now: seq<byte>, k: nat, b: nat, i: nat)
    requires 2 * (k + b) <= |now| && i < |now|
    ensures SwappedBlocks(now, k, b)[i] ==
      if k <= i < k + b || |now| - k - b <= i < |now| - k then now[|now| - 1 - i] else now[i]
  {
    var back := |now| - k - b;
    var p1, p2, p3, p4 := now[..k], Reversed(now[back..back + b]), now[k + b..back], Reversed(now[k..k + b]);
    if i < k {
    } else if i < k + b {
      assert SwappedBlocks(now, k, b)[i] == p2[i - k];
    } else if i < back {
      assert SwappedBlocks(now, k, b)[i] == p3[i - k - b];
    } else if i < back + b {
      assert SwappedBlocks(now, k, b)[i] == p4[i - back];
    } else {
      assert SwappedBlocks(now, k, b)[i] == now[back + b..][i - back - b];
    }
  }

  lemma AllTheWay(was: seq<byte>, now: seq<byte>, k: nat)
    requires Outer(was, now, k) && |was| <= 2 * k + 1
    ensures now == Reversed(was)
  {
    forall i | 0 <= i < |was| ensures now[i] == Reversed(was)[i] { assert OuterAt(was, now, k, i); }
  }

  /** Two blocks read and reversed, and written to each other's place. */
  lemma TwoWrites(now: seq<byte>, next: seq<byte>, k: nat, back: nat, b: nat, x: seq<byte>, y: seq<byte>)
    requires k + b <= back && back + b + k == |now|
    requires x == Reversed(now[k..k + b]) && y == Reversed(now[back..back + b])
    requires next == Overwritten(Overwritten(now, back, x), k, y)
    ensures next == SwappedBlocks(now, k, b)
  {
    var once := Overwritten(now, back, x);
    assert once == now[..back] + x + now[back + b..];
    assert once[..k] == now[..k];
    assert once[k + b..] == now[k + b..back] + x + now[back + b..];
  }

  /** Reads the next n bytes; there are so many. */
  method ReadNext(f: File, c: array<byte>, n: nat)
    requires n <= c.Length && f.offset + n <= |f.content|
    modifies f`offset, c
    ensures f.offset == old(f.offset) + n
    ensures c[..n] == f.content[old(f.offset)..old(f.offset) + n]
  {
    var k := f.Read(c, n);
  }

  method WriteAt(f: File, c: array<byte>, n: nat, at: nat)
    requires n <= c.Length
    modifies f
    ensures f.content == Overwritten(old(f.content), at, c[..n]) && f.offset == at + n
  {
    f.SeekSet(at);
    f.Write(c, n);
  }

  method WriteBlocks(f: File, c1: array<byte>, c2: array<byte>, start: nat, end: nat, bytes: nat)
    requires bytes <= c1.Length && bytes <= c2.Length
    modifies f
    ensures f.content == Overwritten(Overwritten(old(f.content), end, c1[..bytes]), start, c2[..bytes])
    ensures f.offset == start + bytes
  {
    WriteAt(f, c1, bytes, end);
    WriteAt(f, c2, bytes, start);
  }

  lemma ReversedOne(s: seq<byte>)
    requires |s| == 1
    ensures Reversed(s) == s
  {
  }

  /** One round of the first program: a byte from either end, exchanged. */
  method ExchangeBytes(f: File, start: nat, end: nat)
    requires f.offset == start < end == |f.content| - 1 - start
    modifies f
    ensures f.content == SwappedBlocks(old(f.content), start, 1)
    ensures f.offset == start + 1
  {
    var c1, c2 := new byte[1], new byte[1];
    ghost var now := f.content;
    ReadNext(f, c1, 1);
    f.SeekSet(end);
    ReadNext(f, c2, 1);
    ReversedOne(c1[..1]);
    ReversedOne(c2[..1]);
    WriteBlocks(f, c1, c2, start, end, 1);
    TwoWrites(now, f.content, start, end, 1, c1[..1], c2[..1]);
  }

  /** The program that swaps one byte at each end per round. */
  method ReverseByBytes(f: File)
    modifies f
    ensures f.content == Reversed(old(f.content))
  {
    ghost var was := f.content;
    var end: int := f.SeekEnd();
    end := end - 1;
    f.SeekSet(0);
    var start: nat := 0;
    while start < end
      invariant f.offset == start && end == |was| - 1 - start
      invariant start <= end + 1 && Outer(was, f.content, start)
    {
      ghost var now := f.content;
      ExchangeBytes(f, start, end);
      SwapCarriesOn(was, now, start, 1);
      start := start + 1;
      end := end - 1;
    }
    AllTheWay(was, f.content, start);
  }

  /** One round of the inner loops carries the reversal on by a byte. */
  lemma BytesCarryOn(was: seq<byte>, now: seq<byte>, next: seq<byte>, k: nat)
    requires Outer(was, now, k) && 2 * (k + 1) <= |was|
    requires next == now[k := now[|was| - 1 - k]][|was| - 1 - k := now[k]]
    ensures Outer(was, next, k + 1)
  {
    var m := k + 1;
    forall i | 0 <= i < |was| ensures OuterAt(was, next, m, i) {
      assert OuterAt(was, now, k, i) && OuterAt(was, now, k, k) && OuterAt(was, now, k, |was| - 1 - k);
    }
  }

  /** The inner loops: the first n bytes of a buffer, reversed in place. */
  method ReverseBuffer(c: array<byte>, n: nat)
    requires n <= c.Length
    modifies c
    ensures c[..n] == Reversed(old(c[..n]))
  {
    ghost var was := c[..n];
    var i, j: int := 0, n - 1;
    while i < j
      invariant 0 <= i <= j + 1 && i + j == n - 1
      invariant Outer(was, c[..n], i)
    {
      ghost var now := c[..n];
      c[i], c[j] := c[j], c[i];
      assert c[..n] == now[i := now[j]][j := now[i]];
      BytesCarryOn(was, now, c[..n], i);
      i := i + 1;
      j := j - 1;
    }
    AllTheWay(was, c[..n], i);
  }

  /** Reads a block into a buffer and reverses it there. */
  method ReadReversed(f: File, c: array<byte>, n: nat)
    requires n <= c.Length && f.offset + n <= |f.content|
    modifies f`offset, c
    ensures f.offset == old(f.offset) + n
    ensures c[..n] == Reversed(f.content[old(f.offset)..old(f.offset) + n])
  {
    ReadNext(f, c, n);
    ReverseBuffer(c, n);
  }

  method ReadBlocks(f: File, c1: array<byte>, c2: array<byte>, start: nat, end: nat, bytes: nat)
    requires c1 != c2 && bytes <= c1.Length && bytes <= c2.Length
    requires f.offset == start && start + bytes <= end && end == |f.content| - start - bytes
    modifies f`offset, c1, c2
    ensures c1[..bytes] == Reversed(f.content[start..start + bytes])
    ensures c2[..bytes] == Reversed(f.content[end..end + bytes])
  {
    ReadReversed(f, c1, bytes);
    f.SeekSet(end);
    ReadReversed(f, c2, bytes);
  }

  /** One round of the second program: a block from either end, each reversed, exchanged. */
  method ExchangeBlocks(f: File, c1: array<byte>, c2: array<byte>, start: nat, end: nat, bytes: nat)
    requires c1 != c2 && bytes <= c1.Length && bytes <= c2.Length
    requires f.offset == start && start + bytes <= end && end == |f.content| - start - bytes
    modifies f, c1, c2
    ensures f.content == SwappedBlocks(old(f.content), start, bytes)
    ensures f.offset == start + bytes
  {
    ghost var now := f.content;
    ReadBlocks(f, c1, c2, start, end, bytes);
    WriteBlocks(f, c1, c2, start, end, bytes);
    TwoWrites(now, f.content, start, end, bytes, c1[..bytes], c2[..bytes]);
  }

  /** The program that swaps blocks of up to blockSize bytes, BUFF_SIZE in the source. */
  method ReverseByBlocks(f: File, blockSize: nat)
    requires blockSize >= 1
    modifies f
    ensures f.content == Reversed(old(f.content))
  {
    ghost var was := f.content;
    var c1, c2 := new byte[blockSize], new byte[blockSize];
    var end: nat := f.SeekEnd();
    var middle := end / 2;
    var bytes := if blockSize <= middle then blockSize else middle;
    end := end - bytes;
    f.SeekSet(0);
    var start: nat := 0;
    while bytes > 0
      invariant f.offset == start && start <= middle == |was| / 2 && end == |was| - start - bytes
      invariant bytes == Min(blockSize, middle - start) && Outer(was, f.content, start)
      decreases middle - start
    {
      ghost var now := f.content;
      ExchangeBlocks(f, c1, c2, start, end, bytes);
      SwapCarriesOn(was, now, start, bytes);
      start := start + bytes;
      bytes := if start + blockSize <= middle then blockSize else middle - start;
      end := end - bytes;
    }
    AllTheWay(was, f.content, start);
  }
}
