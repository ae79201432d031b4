/** The sliding receive and send buffer: storage with a read and a write index,
    refining a plain queue of bytes. */
module ByteBuffer {
  import opened Common
  import opened Endian

  /** Room kept free in front of the data after a reset or a compaction. */
  const CheapPrepend: nat := 32

  /** Most bytes one socket read takes beyond the free tail. */
  const ExtraRead: nat := 65536

  class Buffer {
    var data: array<byte>
    var readIndex: nat
    var writeIndex: nat

    ghost predicate Valid()
      reads this
    {
      readIndex <= writeIndex <= data.Length && CheapPrepend <= data.Length
    }

    /** The readable bytes. */
    ghost function Contents(): (s: bytes)
      requires Valid()
      reads this, data
    {
      data[readIndex..writeIndex]
    }

    constructor ()
      ensures Valid() && fresh(data)
      ensures Contents() == []
    {
      data := new byte[CheapPrepend](_ => 0);
      readIndex := CheapPrepend;
      writeIndex := CheapPrepend;
    }

    function ReadableBytes(): (n: nat)
      requires Valid()
      reads this, data
      ensures n == |Contents()|
    {
      writeIndex - readIndex
    }

    method RetrieveAll()
      requires Valid()
      modifies this
      ensures Valid() && data == old(data)
      ensures Contents() == []
    {
      writeIndex := CheapPrepend;
      readIndex := CheapPrepend;
    }

    /** Drops len bytes from the front. */
    method Retrieve(len: nat)
      requires Valid() && len <= |Contents()|
      modifies this
      ensures Valid() && data == old(data)
      ensures Contents() == old(Contents())[len..]
    {
      if len < writeIndex - readIndex {
        readIndex := readIndex + len;
      } else {
        RetrieveAll();
      }
    }

    /** Takes at most len bytes from the front. */
    method ReadAsString(len: nat) returns (r: bytes)
      requires Valid()
      modifies this
      ensures Valid() && data == old(data)
      ensures |r| == if len > |old(Contents())| then |old(Contents())| else len
      ensures r + Contents() == old(Contents())
    {
      var n := if len > writeIndex - readIndex then writeIndex - readIndex else len;
      r := data[readIndex..readIndex + n];
      Retrieve(n);
    }

    /** Takes an n-byte integer in network order. */
    method ReadUint(n: nat) returns (v: nat)
      requires Valid() && n <= |Contents()|
      modifies this
      ensures Valid() && data == old(data)
      ensures v == FromBig(old(Contents())[..n])
      ensures Contents() == old(Contents())[n..]
    {
      v := FromBig(data[readIndex..readIndex + n]);
      assert data[readIndex..readIndex + n] == Contents()[..n];
      Retrieve(n);
    }

    /** Copies the readable bytes front to back to a lower address, over themselves where the two ranges meet. */
    method MoveDown(target: nat)
      requires Valid() && target <= readIndex
      modifies data
      ensures data[target..target + |old(Contents())|] == old(Contents())
    {
      ghost var was := Contents();
      var n := writeIndex - readIndex;
      var k := 0;
      while k < n
        invariant 0 <= k <= n
        invariant forall j :: 0 <= j < k ==> data[target + j] == was[j]
        invariant forall j :: readIndex + k <= j < writeIndex ==> data[j] == was[j - readIndex]
      {
        data[target + k] := data[readIndex + k];
        k := k + 1;
      }
    }

    /** Grows the storage to size bytes; what it held stays where it was. */
    method Resize(size: nat)
      requires Valid() && size >= data.Length
      modifies this`data
      ensures fresh(data) && data.Length == size
      ensures forall j :: 0 <= j < old(data.Length) ==> data[j] == old(data[j])
    {
      var was := data;
      var grown := new byte[size](_ => 0);
      var k := 0;
      while k < was.Length
        invariant 0 <= k <= was.Length
        invariant forall j :: 0 <= j < k ==> grown[j] == was[j]
      {
        grown[k] := was[k];
        k := k + 1;
      }
      data := grown;
    }

    /** Makes room for len bytes behind the data, moving the data down or growing. */
    method EnsureWriteable(len: nat)
      requires Valid()
      modifies this, data
      ensures Valid() && (data == old(data) || fresh(data))
      ensures Contents() == old(Contents())
      ensures writeIndex + len <= data.Length
      ensures data == old(data) ==> readIndex <= old(readIndex)
    {
      if len > data.Length - writeIndex {
        if data.Length - writeIndex + readIndex < len + CheapPrepend {
          Resize(writeIndex + len);
        } else {
          MoveDown(CheapPrepend);
          writeIndex := CheapPrepend + (writeIndex - readIndex);
          readIndex := CheapPrepend;
        }
      }
    }

    /** Makes room for len bytes in front of the data. */
    method EnsurePrepend(len: nat)
      requires Valid()
      modifies this
      ensures Valid() && (data == old(data) || fresh(data))
      ensures Contents() == old(Contents())
      ensures len <= readIndex
    {
      if readIndex < len {
        var keep := if len > CheapPrepend then len else CheapPrepend;
        var readable := data[readIndex..writeIndex];
        data := new byte[keep + |readable|](_ => 0);
        readIndex := keep;
        writeIndex := keep + |readable|;
        WriteAt(keep, readable);
      }
    }

    /** Stores src from position at on and touches nothing else. */
    method WriteAt(at: nat, src: bytes)
      requires at + |src| <= data.Length
      modifies data
      ensures forall j :: 0 <= j < at || at + |src| <= j < data.Length ==> data[j] == old(data[j])
      ensures data[at..at + |src|] == src
    {
      var k := 0;
      while k < |src|
        invariant 0 <= k <= |src|
        invariant forall j :: 0 <= j < k ==> data[at + j] == src[j]
        invariant forall j :: 0 <= j < at || at + |src| <= j < data.Length ==> data[j] == old(data[j])
      {
        data[at + k] := src[k];
        k := k + 1;
      }
    }

    method Append(src: bytes)
      requires Valid()
      modifies this, data
      ensures Valid() && (data == old(data) || fresh(data))
      ensures Contents() == old(Contents()) + src
    {
      EnsureWriteable(|src|);
      Fill(src);
    }

    /** Puts src in front of the data. */
    method Prepend(src: bytes)
      requires Valid()
      modifies this, data
      ensures Valid() && (data == old(data) || fresh(data))
      ensures Contents() == src + old(Contents())
    {
      EnsurePrepend(|src|);
      FillFront(src);
    }

    method FillFront(src: bytes)
      requires Valid() && |src| <= readIndex
      modifies this`readIndex, data
      ensures Valid() && readIndex == old(readIndex) - |src|
      ensures Contents() == src + old(Contents())
    {
      WriteAt(readIndex - |src|, src);
      assert data[readIndex..writeIndex] == old(Contents());
      readIndex := readIndex - |src|;
      assert Contents() == data[readIndex..readIndex + |src|] + data[readIndex + |src|..writeIndex];
    }

    /** One scattered socket read that brought src: the free tail fills first, the rest is appended. */
    method ReadFd(src: bytes)
      requires Valid() && |src| <= data.Length - writeIndex + ExtraRead
      modifies this, data
      ensures Valid() && (data == old(data) || fresh(data))
      ensures Contents() == old(Contents()) + src
    {
      var writeable := data.Length - writeIndex;
      if |src| < writeable {
        Fill(src);
      } else {
        Fill(src[..writeable]);
        Append(src[writeable..]);
        assert src == src[..writeable] + src[writeable..];
      }
    }

    /** The kernel's share of a read: src lands in the free tail and is counted in. */
    method Fill(src: bytes)
      requires Valid() && writeIndex + |src| <= data.Length
      modifies this`writeIndex, data
      ensures Valid() && writeIndex == old(writeIndex) + |src|
      ensures Contents() == old(Contents()) + src
    {
      WriteAt(writeIndex, src);
      assert data[readIndex..writeIndex] == old(Contents());
      writeIndex := writeIndex + |src|;
      assert Contents() == data[readIndex..writeIndex - |src|] + data[writeIndex - |src|..writeIndex];
    }
  }
}
