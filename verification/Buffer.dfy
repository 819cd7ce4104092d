/** The byte buffer of a connection (muduox/net/tcp/Buffer.h, Buffer.cpp): a prepend zone,
    the readable bytes and a writable zone inside one array. */
module BufferModel {
  import opened Prelude

  const INITIAL_SIZE: nat := 1024
  const PREPEND_SIZE: nat := 8
  const EXTRA_SIZE: nat := 65536

  /** What readv gave: the bytes it delivered, or an errno. */
  datatype ReadResult = Received(data: seq<Byte>) | Failed(errno: int)

  /** std::copy of bytes that lie outside dst. */
  method CopyIn(data: seq<Byte>, dst: array<Byte>, at: nat)
    requires at + |data| <= dst.Length
    modifies dst
    ensures forall j | 0 <= j < dst.Length ::
      dst[j] == if at <= j < at + |data| then data[j - at] else old(dst[j])
  {
    var i := 0;
    while i < |data|
      invariant 0 <= i <= |data|
      invariant forall j | 0 <= j < dst.Length ::
        dst[j] == if at <= j < at + i then data[j - at] else old(dst[j])
    {
      dst[at + i] := data[i];
      i := i + 1;
    }
  }

  /** std::copy of n bytes towards the front of the same array. The two ranges may overlap:
      going forward, every byte is read before it is overwritten. */
  method MoveToFront(a: array<Byte>, from: nat, to: nat, n: nat)
    requires to <= from && from + n <= a.Length
    modifies a
    ensures a[to..to + n] == old(a[from..from + n])
    ensures forall j | 0 <= j < a.Length && !(to <= j < to + n) :: a[j] == old(a[j])
  {
    var i := 0;
    while i < n
      invariant 0 <= i <= n
      invariant forall j | to <= j < to + i :: a[j] == old(a[..])[j + (from - to)]
      invariant forall j | 0 <= j < a.Length && !(to <= j < to + i) :: a[j] == old(a[j])
    {
      a[to + i] := a[from + i];
      i := i + 1;
    }
  }

  class Buffer {
    var store: array<Byte>
    var readIndex: nat
    var writeIndex: nat
    // The largest readableBytes() + len that ensureWritable was ever asked for.
    ghost var peak: nat

    ghost predicate Valid()
      reads this, store
    {
      && PREPEND_SIZE <= readIndex <= writeIndex <= store.Length
      && (readIndex == writeIndex ==> readIndex == PREPEND_SIZE)
      && store.Length <= Max(PREPEND_SIZE + INITIAL_SIZE, 2 * peak + 6)
    }

    ghost function Contents(): seq<Byte>
      requires Valid()
      reads this, store
    {
      store[readIndex..writeIndex]
    }

    constructor ()
      ensures Valid() && fresh(store)
      ensures Contents() == [] && store.Length == PREPEND_SIZE + INITIAL_SIZE && peak == 0
    {
      store := new Byte[PREPEND_SIZE + INITIAL_SIZE];
      readIndex, writeIndex, peak := PREPEND_SIZE, PREPEND_SIZE, 0;
    }

    function ReadableBytes(): (n: nat)
      requires Valid()
      reads this, store
      ensures n == |Contents()|
    {
      writeIndex - readIndex
    }

    function WritableBytes(): (n: nat)
      requires Valid()
      reads this, store
      ensures PREPEND_SIZE + |Contents()| + n <= store.Length
    {
      store.Length - writeIndex
    }

    /** The bytes from peek() up to beginWrite(), as the caller of send sees them. */
    method Peek() returns (bytes: seq<Byte>)
      requires Valid()
      ensures bytes == Contents()
    {
      bytes := store[readIndex..writeIndex];
    }

    method Retrieve(len: nat)
      requires Valid()
      modifies this
      ensures Valid() && store == old(store) && peak == old(peak)
      ensures Contents() == old(Contents())[Min(len, |old(Contents())|)..]
      ensures len >= |old(Contents())| ==> readIndex == writeIndex == PREPEND_SIZE
      ensures len < |old(Contents())| ==> readIndex == old(readIndex) + len && writeIndex == old(writeIndex)
    {
      if len >= ReadableBytes() {
        RetrieveAll();
      } else {
        readIndex := readIndex + len;
      }
    }

    method RetrieveAll()
      requires Valid()
      modifies this
      ensures Valid() && store == old(store) && peak == old(peak)
      ensures Contents() == [] && readIndex == writeIndex == PREPEND_SIZE
    {
      readIndex, writeIndex := PREPEND_SIZE, PREPEND_SIZE;
    }

    method RetrieveAsString(len: nat) returns (result: seq<Byte>)
      requires Valid()
      modifies this
      ensures Valid() && store == old(store) && peak == old(peak)
      ensures |result| == Min(len, |old(Contents())|)
      ensures result + Contents() == old(Contents())
    {
      ghost var before := Contents();
      var n := Min(len, ReadableBytes());
      result := store[readIndex..readIndex + n];
      assert result == before[..n];
      Retrieve(n);
      assert before[..n] + before[n..] == before;
    }

    method RetrieveAllAsString() returns (result: seq<Byte>)
      requires Valid()
      modifies this
      ensures Valid() && store == old(store) && peak == old(peak)
      ensures result == old(Contents()) && Contents() == []
    {
      var n := ReadableBytes();
      result := RetrieveAsString(n);
    }

    method Append(data: seq<Byte>)
      requires Valid()
      modifies this, store
      ensures Valid() && (store == old(store) || fresh(store))
      ensures Contents() == old(Contents()) + data
      ensures old(writeIndex) + |data| <= old(store.Length) ==> store == old(store) && readIndex == old(readIndex)
      ensures store != old(store) <==> old(store.Length) < PREPEND_SIZE + |old(Contents())| + |data|
      ensures store != old(store) ==> readIndex == old(readIndex) && store.Length == old(writeIndex) + |data|
      ensures peak == Max(old(peak), |old(Contents())| + |data|)
    {
      EnsureWritable(|data|);
      CopyIn(data, store, writeIndex);
      writeIndex := writeIndex + |data|;
    }

    method EnsureWritable(len: nat)
      requires Valid()
      modifies this, store
      ensures Valid() && (store == old(store) || fresh(store))
      ensures Contents() == old(Contents())
      ensures writeIndex + len <= store.Length
      ensures old(writeIndex + len <= store.Length) ==>
        store == old(store) && readIndex == old(readIndex) && writeIndex == old(writeIndex)
      // The array is replaced exactly when no arrangement of the old one has room.
      ensures store != old(store) <==> old(store.Length) < PREPEND_SIZE + |old(Contents())| + len
      ensures store != old(store) ==> readIndex == old(readIndex) && store.Length == old(writeIndex) + len
      ensures peak == Max(old(peak), |old(Contents())| + len)
    {
      peak := Max(peak, ReadableBytes() + len);
      if WritableBytes() < len {
        MakeSpace(len);
      }
    }

    method MakeSpace(len: nat)
      requires Valid() && WritableBytes() < len && ReadableBytes() + len <= peak
      modifies this, store
      ensures Valid() && (store == old(store) || fresh(store)) && peak == old(peak)
      ensures Contents() == old(Contents())
      ensures writeIndex + len <= store.Length
      ensures store != old(store) <==> old(store.Length) < PREPEND_SIZE + |old(Contents())| + len
      ensures store == old(store) ==> readIndex == PREPEND_SIZE
      ensures store != old(store) ==> readIndex == old(readIndex) && store.Length == old(writeIndex) + len
    {
      if readIndex + WritableBytes() >= len + PREPEND_SIZE {
        var readable := ReadableBytes();
        MoveToFront(store, readIndex, PREPEND_SIZE, readable);
        readIndex := PREPEND_SIZE;
        writeIndex := PREPEND_SIZE + readable;
      } else {
        // vector::resize keeps the old bytes.
        var grown := new Byte[writeIndex + len];
        CopyIn(store[..writeIndex], grown, 0);
        store := grown;
      }
    }

    /** The Linux form: readv fills the writable zone first and spills into a stack buffer. */
    method ReadFd(kernel: ReadResult) returns (n: int, savedErrno: int)
      requires Valid()
      requires kernel.Received? ==> |kernel.data| <= WritableBytes() + EXTRA_SIZE
      modifies this, store
      ensures Valid() && (store == old(store) || fresh(store))
      ensures kernel.Received? ==> n == |kernel.data| && Contents() == old(Contents()) + kernel.data
      ensures kernel.Failed? ==> n == -1 && savedErrno == kernel.errno && Contents() == old(Contents())
      ensures kernel.Failed? || n <= old(WritableBytes()) ==> store == old(store) && peak == old(peak)
      ensures kernel.Received? && n > old(WritableBytes()) ==> peak == Max(old(peak), |Contents()|)
    {
      var writable := WritableBytes();
      savedErrno := 0;
      match kernel
      case Failed(errno) =>
        n := -1;
        savedErrno := errno;
      case Received(data) =>
        n := |data|;
        var direct, extra := data[..Min(n, writable)], data[Min(n, writable)..];
        CopyIn(direct, store, writeIndex);
        writeIndex := writeIndex + |direct|;
        assert Contents() == old(Contents()) + direct;
        if n <= writable {
          assert direct == data;
        } else {
          Append(extra);
          assert old(Contents()) + direct + extra == old(Contents()) + (direct + extra) && direct + extra == data;
        }
    }
  }
  /** The capacity bound of Valid is exact: this run grows the array to 2 * peak + 6. */
  method CapacityBoundIsReached(fill: seq<Byte>) returns (b: Buffer)
    requires |fill| == INITIAL_SIZE
    ensures b.Valid() && b.store.Length == 2 * b.peak + 6 > PREPEND_SIZE + INITIAL_SIZE
  {
    b := new Buffer();
    b.Append(fill);
    b.Retrieve(INITIAL_SIZE - 1);
    b.Append(fill);
  }
}
