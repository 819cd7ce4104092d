/** The bounded log buffer (muduox/base/logging/FixedBuffer.h). */
module FixedBufferModel {
  import opened Prelude

  /** The bytes in the buffer and, as history, the non-empty lines they came from. */
  datatype Buf = Buf(bytes: seq<Byte>, lines: seq<seq<Byte>>)

  const EMPTY := Buf([], [])

  /** What is kept of a line appended where avail bytes are free. */
  function Fitting(avail: int, line: seq<Byte>): seq<Byte> {
    if avail <= 0 then [] else line[..Min(avail, |line|)]
  }

  function Appended(size: nat, b: Buf, line: seq<Byte>): Buf {
    Buf(b.bytes + Fitting(size - |b.bytes|, line), if line == [] then b.lines else b.lines + [line])
  }

  class FixedBuffer {
    const data: array<Byte>
    var cur: nat
    ghost var lines: seq<seq<Byte>>

    ghost predicate Valid()
      reads this
    {
      cur <= data.Length
    }

    ghost function View(): Buf
      requires Valid()
      reads this, data
    {
      Buf(data[..cur], lines)
    }

    constructor (size: nat)
      ensures Valid() && View() == EMPTY && fresh(data) && data.Length == size
    {
      data := new Byte[size];
      cur, lines := 0, [];
    }

    function Length(): (n: nat)
      requires Valid()
      reads this, data
      ensures n == |View().bytes|
    {
      cur
    }

    function Avail(): (n: int)
      requires Valid()
      reads this, data
      ensures n == data.Length - |View().bytes|
    {
      data.Length - cur
    }

    method Contents() returns (bytes: seq<Byte>)
      requires Valid()
      ensures bytes == View().bytes
    {
      bytes := data[..cur];
    }

    method Append(line: seq<Byte>)
      requires Valid()
      modifies this, data
      ensures Valid() && View() == Appended(data.Length, old(View()), line)
      // As much of the line as there is room for, after what was there.
      ensures View().bytes[..|old(View()).bytes|] == old(View()).bytes
      ensures var room := data.Length - |old(View()).bytes|;
        View().bytes[|old(View()).bytes|..] == line[..if |line| <= room then |line| else room]
    {
      var a := Avail();
      lines := if line == [] then lines else lines + [line];
      if a <= 0 {
        return;
      }
      var n := Min(a, |line|);
      ghost var before := data[..cur];
      var i := 0;
      while i < n
        invariant 0 <= i <= n
        invariant data[..cur] == before
        invariant data[cur..cur + i] == line[..i]
        modifies data
      {
        data[cur + i] := line[i];
        i := i + 1;
      }
      assert data[..cur + n] == before + line[..n];
      cur := cur + n;
    }

    method Reset()
      modifies this
      ensures Valid() && View() == EMPTY
    {
      cur, lines := 0, [];
    }

    /** memset over the whole buffer; the write position stays. */
    method Bzero()
      requires Valid()
      modifies data
      ensures Valid() && View() == Buf(seq(cur, i => 0), lines)
    {
      var i := 0;
      while i < data.Length
        invariant 0 <= i <= data.Length
        invariant forall j | 0 <= j < i :: data[j] == 0
      {
        data[i] := 0;
        i := i + 1;
      }
    }
  }
}
