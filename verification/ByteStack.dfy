/** The free-index stack as it lies in shared memory: fixed-size elements copied into a byte
    buffer, and C ints as their bytes. */
module ByteStacks {
  import opened Counting

  type Byte = x: int | 0 <= x < 256

  /** Size of the C struct before the flexible array: three 8-byte words padded to 16. */
  const HEADER := 32

  function BytesNeeded(capacity: nat, elemSize: nat): nat {
    HEADER + capacity * elemSize
  }

  // ---- C ints as bytes ----

  /** Little-endian two's complement on four bytes. */
  function IntBytes(x: int): (b: seq<Byte>)
    ensures |b| == 4
  {
    var u := x % 0x1_0000_0000;
    [u % 256, u / 256 % 256, u / 65536 % 256, u / 16777216 % 256]
  }

  function BytesInt(b: seq<Byte>): int
    requires |b| == 4
  {
    var b0: int, b1: int, b2: int, b3: int := b[0], b[1], b[2], b[3];
    var u := b0 + 256 * b1 + 65536 * b2 + 16777216 * b3;
    if u >= 0x8000_0000 then u - 0x1_0000_0000 else u
  }

  predicate FitsInt(x: int) {
    -0x8000_0000 <= x < 0x8000_0000
  }

  lemma FourDigits(u: nat)
    requires u < 0x1_0000_0000
    ensures u == u % 256 + 256 * (u / 256 % 256) + 65536 * (u / 65536 % 256) + 16777216 * (u / 16777216 % 256)
  {
    var u1, u2, u3 := u / 256, u / 65536, u / 16777216;
    assert u == 256 * u1 + u % 256;
    assert u1 == 256 * u2 + u1 % 256;
    assert u2 == 256 * u3 + u2 % 256;
    assert u3 % 256 == u3;
  }

  lemma IntRoundTrip(x: int)
    requires FitsInt(x)
    ensures BytesInt(IntBytes(x)) == x
  {
    var u := x % 0x1_0000_0000;
    assert u == if x >= 0 then x else x + 0x1_0000_0000;
    FourDigits(u);
  }

  // ---- The stack ----

  /** The bytes of element `i`. */
  function Chunk(data: seq<Byte>, elemSize: nat, i: nat): seq<Byte>
    requires (i + 1) * elemSize <= |data|
  {
    Scaled(0, i, elemSize);
    data[i * elemSize..(i + 1) * elemSize]
  }

  function Chunks(data: seq<Byte>, elemSize: nat, n: nat): seq<seq<Byte>>
    requires n * elemSize <= |data|
  {
    if n == 0 then []
    else
      Scaled(n - 1, n, elemSize);
      Chunks(data, elemSize, n - 1) + [Chunk(data, elemSize, n - 1)]
  }

  /** The elements depend only on the bytes below `n * elemSize`, each chunk being one element. */
  lemma {:induction false} ChunksSpec(data: seq<Byte>, data': seq<Byte>, elemSize: nat, n: nat)
    requires n * elemSize <= |data| <= |data'| && data[..n * elemSize] == data'[..n * elemSize]
    ensures |Chunks(data, elemSize, n)| == n
    ensures Chunks(data, elemSize, n) == Chunks(data', elemSize, n)
  {
    if n > 0 {
      Scaled(n - 1, n, elemSize);
      Scaled(0, n - 1, elemSize);
      var m := (n - 1) * elemSize;
      assert data[..m] == data[..n * elemSize][..m] == data'[..n * elemSize][..m] == data'[..m];
      ChunksSpec(data, data', elemSize, n - 1);
      assert Chunk(data, elemSize, n - 1) == data[..n * elemSize][m..];
      assert Chunk(data', elemSize, n - 1) == data'[..n * elemSize][m..];
    }
  }

  /** There is room for one more element below the capacity. */
  lemma Room(size: nat, capacity: nat, elemSize: nat, length: nat)
    requires size < capacity && capacity * elemSize <= length
    ensures 0 <= size * elemSize <= (size + 1) * elemSize == size * elemSize + elemSize <= length
  {
    Scaled(size + 1, capacity, elemSize);
    Scaled(0, size, elemSize);
  }

  /** Writing the next chunk appends one element and keeps the others. */
  lemma ChunkWritten(before: seq<Byte>, after: seq<Byte>, elemSize: nat, elem: seq<Byte>, n: nat)
    requires |elem| == elemSize
    requires 0 <= n * elemSize <= (n + 1) * elemSize == n * elemSize + elemSize <= |before|
    requires after == Overwritten(before, n * elemSize, elem)
    ensures |before| == |after|
    ensures Chunks(after, elemSize, n + 1) == Chunks(before, elemSize, n) + [elem]
  {
    ChunksSpec(before, after, elemSize, n);
    assert Chunk(after, elemSize, n) == elem;
  }

  function Overwritten(data: seq<Byte>, dst: int, elem: seq<Byte>): seq<Byte>
    requires 0 <= dst <= dst + |elem| <= |data|
  {
    data[..dst] + elem + data[dst + |elem|..]
  }

  /** memcpy into the buffer. */
  method CopyIn(data: array<Byte>, dst: nat, elem: seq<Byte>)
    requires dst + |elem| <= data.Length
    modifies data
    ensures data[..] == Overwritten(old(data[..]), dst, elem)
  {
    for k := 0 to |elem|
      invariant data[..] == Overwritten(old(data[..]), dst, elem[..k])
    {
      data[dst + k] := elem[k];
      assert elem[..k + 1] == elem[..k] + [elem[k]];
    }
    assert elem[..|elem|] == elem;
  }

  class ByteStack {
    var capacity: nat
    var size: nat
    var elemSize: nat
    const data: array<Byte>

    /** Raw memory of `bytes` bytes, header included. */
    constructor (bytes: nat)
      requires bytes >= HEADER
      ensures fresh(data) && data.Length == bytes - HEADER
    {
      data := new Byte[bytes - HEADER](_ => 0);
      capacity, size, elemSize := 0, 0, 0;
    }

    ghost predicate Valid()
      reads this
    {
      && size <= capacity
      && capacity * elemSize <= data.Length
      && size * elemSize <= data.Length
    }

    /** The abstract value: the elements from bottom to top. */
    ghost function Elements(): seq<seq<Byte>>
      requires Valid()
      reads this, data
    {
      Chunks(data[..], elemSize, size)
    }

    method Init(capacity: nat, elemSize: nat) returns (ok: bool)
      requires BytesNeeded(capacity, elemSize) <= HEADER + data.Length
      modifies this
      ensures ok == (capacity != 0 && elemSize != 0)
      ensures ok ==> Valid() && this.capacity == capacity && this.elemSize == elemSize && Elements() == []
      ensures !ok ==> unchanged(this)
    {
      if capacity == 0 || elemSize == 0 { return false; }
      this.capacity, this.size, this.elemSize := capacity, 0, elemSize;
      return true;
    }

    method IsEmpty() returns (r: bool)
      requires Valid()
      ensures r == (Elements() == [])
    {
      ChunksSpec(data[..], data[..], elemSize, size);
      r := size == 0;
    }

    method IsFull() returns (r: bool)
      requires Valid()
      ensures r == (|Elements()| == capacity)
    {
      ChunksSpec(data[..], data[..], elemSize, size);
      r := size >= capacity;
    }

    method Push(elem: seq<Byte>) returns (ok: bool)
      requires Valid() && |elem| == elemSize
      modifies this`size, data
      ensures Valid() && ok == (|old(Elements())| < capacity)
      ensures Elements() == if ok then old(Elements()) + [elem] else old(Elements())
      ensures ok ==> 0 <= old(size * elemSize) <= data.Length - |elem|
      ensures ok ==> data[..] == Overwritten(old(data[..]), old(size * elemSize), elem)
    {
      ChunksSpec(data[..], data[..], elemSize, size);
      if size >= capacity { return false; }
      Room(size, capacity, elemSize, data.Length);
      hide Overwritten, Chunks;
      CopyIn(data, size * elemSize, elem);
      ChunkWritten(old(data[..]), data[..], elemSize, elem, size);
      size := size + 1;
      ok := true;
    }

    method Pop() returns (ok: bool, out: seq<Byte>)
      requires Valid()
      modifies this`size
      ensures Valid() && ok == (old(Elements()) != [])
      ensures ok ==> old(Elements()) == Elements() + [out] && |out| == elemSize
      ensures !ok ==> Elements() == old(Elements())
    {
      ChunksSpec(data[..], data[..], elemSize, size);
      if size == 0 { return false, []; }
      Scaled(size - 1, size, elemSize);
      Scaled(0, size - 1, elemSize);
      size := size - 1;
      out := data[size * elemSize..(size + 1) * elemSize];
      assert out == Chunk(data[..], elemSize, size);
      ok := true;
    }

    method Top() returns (ok: bool, out: seq<Byte>)
      requires Valid()
      ensures ok == (Elements() != [])
      ensures ok ==> out == Elements()[|Elements()| - 1] && |out| == elemSize
    {
      ChunksSpec(data[..], data[..], elemSize, size);
      if size == 0 { return false, []; }
      Scaled(size - 1, size, elemSize);
      Scaled(0, size - 1, elemSize);
      out := data[(size - 1) * elemSize..size * elemSize];
      assert out == Chunk(data[..], elemSize, size - 1);
      ok := true;
    }
  }

  /** Push then pop gives the same bytes back and leaves the other elements as they were. */
  method PushThenPop(stack: ByteStack, elem: seq<Byte>) returns (out: seq<Byte>)
    requires stack.Valid() && |elem| == stack.elemSize && |stack.Elements()| < stack.capacity
    modifies stack`size, stack.data
    ensures out == elem && stack.Valid() && stack.Elements() == old(stack.Elements())
  {
    var pushed := stack.Push(elem);
    ghost var middle := stack.Elements();
    var popped;
    popped, out := stack.Pop();
    assert middle == old(stack.Elements()) + [elem];
    assert middle[..|middle| - 1] == old(stack.Elements()) == stack.Elements();
  }

  /** The elements of the freshly seeded stack, bottom first. */
  function Countdown(capacity: nat, n: nat): seq<seq<Byte>>
    requires n <= capacity
  {
    seq(n, i requires 0 <= i < n => IntBytes(capacity - 1 - i))
  }

  /** Seeding pushes capacity-1 down to 0, so that pops yield 0, 1, 2, ... in order. */
  method SeedIndices(stack: ByteStack)
    requires stack.Valid() && stack.elemSize == 4 && stack.Elements() == []
    modifies stack`size, stack.data
    ensures stack.Valid() && stack.Elements() == Countdown(stack.capacity, stack.capacity)
  {
    var index := stack.capacity - 1;
    var full := stack.IsFull();
    ghost var n := 0;
    while !full
      invariant stack.Valid() && n <= stack.capacity && index == stack.capacity - 1 - n
      invariant stack.Elements() == Countdown(stack.capacity, n)
      invariant full == (n == stack.capacity)
      decreases stack.capacity - n
    {
      var ok := stack.Push(IntBytes(index));
      index := index - 1;
      n := n + 1;
      assert stack.Elements() == Countdown(stack.capacity, n);
      full := stack.IsFull();
    }
  }
}
