/** Open files: their bytes and the offset that read, write and lseek share. */
module Files {

  type byte = x: int | 0 <= x < 256

  function Zeros(n: nat): seq<byte> { seq(n, i => 0) }

  /** The bytes of a file after d was written at an offset; a gap reads as zeros. */
  function Overwritten(content: seq<byte>, offset: nat, d: seq<byte>): (r: seq<byte>)
    ensures offset + |d| <= |content| ==> |r| == |content|
    ensures offset == |content| ==> r == content + d
  {
    (if offset <= |content| then content[..offset] else content + Zeros(offset - |content|))
    + d
    + (if offset + |d| <= |content| then content[offset + |d|..] else [])
  }

  function Min(a: nat, b: nat): (m: nat)
    ensures m <= a && m <= b && (m == a || m == b)
  {
    if a < b then a else b
  }

  class File {
    var content: seq<byte>
    var offset: nat

    constructor (content: seq<byte>)
      ensures this.content == content && offset == 0
    {
      this.content, offset := content, 0;
    }

    /** Bytes from the offset on. */
    function Remaining(): nat
      reads this
    {
      if offset <= |content| then |content| - offset else 0
    }

    method SeekSet(target: nat)
      modifies this`offset
      ensures offset == target
    {
      offset := target;
    }

    method SeekEnd() returns (end: nat)
      modifies this`offset
      ensures offset == end == |content|
    {
      offset := |content|;
      end := offset;
    }

    /** read() of a regular file: all that is asked for, or all that is left. */
    method Read(buffer: array<byte>, n: nat) returns (k: nat)
      requires n <= buffer.Length
      modifies this`offset, buffer
      ensures k == Min(n, old(Remaining()))
      ensures offset == old(offset) + k
      ensures k > 0 ==> buffer[..k] == content[old(offset)..old(offset) + k]
      ensures buffer[k..] == old(buffer[k..])
    {
      k := Min(n, Remaining());
      var from := offset;
      forall i | 0 <= i < k { buffer[i] := content[from + i]; }
      offset := from + k;
    }

    /** read() that may return fewer bytes than asked for, but none only at the end. */
    method ReadSome(buffer: array<byte>, n: nat) returns (k: nat)
      requires 0 < n <= buffer.Length
      modifies this`offset, buffer
      ensures k <= Min(n, old(Remaining())) && (k == 0 <==> old(Remaining()) == 0)
      ensures offset == old(offset) + k
      ensures k > 0 ==> buffer[..k] == content[old(offset)..old(offset) + k]
    {
      k := 0;
      if Remaining() > 0 {
        var most := Min(n, Remaining());
        var some: nat :| 0 < some <= most;
        k := Read(buffer, some);
      }
    }

    method Write(buffer: array<byte>, n: nat)
      requires n <= buffer.Length
      modifies this
      ensures content == Overwritten(old(content), old(offset), buffer[..n])
      ensures offset == old(offset) + n
    {
      content := Overwritten(content, offset, buffer[..n]);
      offset := offset + n;
    }
  }
}
