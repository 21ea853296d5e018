/**
 * The buffer the programs fill with `buf[(*icmd)++] = ...`: a fixed array,
 * the write index into it, and the count of response bytes the commands
 * written so far will make the engine send back. The source checks no bound;
 * here every write requires room for it.
 */
module CommandBuffers {
  import opened Bytes

  class CommandBuffer {
    const buf: array<byte>
    var icmd: nat
    var iread: nat

    ghost predicate Valid()
      reads this
    {
      icmd <= buf.Length
    }

    /** The bytes written so far. */
    ghost function Written(): seq<byte>
      reads this, buf
      requires Valid()
    {
      buf[..icmd]
    }

    /** The bytes past the write index, which later writes will overwrite. */
    ghost function Unwritten(): seq<byte>
      reads this, buf
      requires Valid()
    {
      buf[icmd..]
    }

    /** `calloc`: a zeroed buffer of the given size with both counters at zero. */
    constructor (size: nat)
      ensures Valid() && fresh(buf) && buf.Length == size
      ensures icmd == 0 && iread == 0 && Written() == []
      ensures forall j :: 0 <= j < size ==> buf[j] == 0
    {
      buf := new byte[size](_ => 0);
      icmd, iread := 0, 0;
    }

    /** `buf[(*icmd)++] = b`. */
    method Put(b: byte)
      requires Valid() && icmd < buf.Length
      modifies this, buf
      ensures Valid() && icmd == old(icmd) + 1 && iread == old(iread)
      ensures Written() == old(Written()) + [b]
      ensures Unwritten() == old(Unwritten())[1..]
    {
      buf[icmd] := b;
      icmd := icmd + 1;
    }

    /** `(*iread) += n`: the commands just written will return n more bytes. */
    method ExpectRead(n: nat)
      modifies this
      ensures icmd == old(icmd) && iread == old(iread) + n
    {
      iread := iread + n;
    }

    /** `memset(buf, 0, size); icmd = 0`: start a fresh stream in the same buffer. */
    method Clear()
      modifies this, buf
      ensures Valid() && icmd == 0 && iread == old(iread) && Written() == []
      ensures forall j :: 0 <= j < buf.Length ==> buf[j] == 0
    {
      var j := 0;
      while j < buf.Length
        invariant 0 <= j <= buf.Length
        invariant forall k :: 0 <= k < j ==> buf[k] == 0
        modifies buf
      {
        buf[j] := 0;
        j := j + 1;
      }
      icmd := 0;
    }
  }
}
