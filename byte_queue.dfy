/**
 * The transport buffer between the decode-feed step and the real-time pull
 * callback (a BufferRTOS<uint8_t> behind a QueueStream in the firmware).
 * It is modelled as a bounded FIFO of bytes: a writer that takes only what
 * fits, a reader that takes at most what is buffered, and a reset that
 * drops everything.
 */
module ByteQueues {
  type byte = bv8

  /** The size the firmware resizes the buffer to at start-up: 128 KiB. */
  const BufferSize: nat := 128 * 1024

  function Min(a: nat, b: nat): nat { if a <= b then a else b }

  /** Free room in a buffer of `capacity` bytes holding `data`. */
  function Room(data: seq<byte>, capacity: nat): nat {
    if |data| <= capacity then capacity - |data| else 0
  }

  /** The buffer contents after writing `bytes`: as much of them as fits, in order. */
  function Enqueued(data: seq<byte>, bytes: seq<byte>, capacity: nat): (r: seq<byte>)
    ensures |data| <= capacity ==> |r| <= capacity
    ensures data <= r && r[|data|..] <= bytes
    ensures |data| < capacity && bytes != [] ==> |r| > |data|
  {
    data + bytes[..Min(|bytes|, Room(data, capacity))]
  }

  /** What a read of at most `max` bytes hands out: the oldest bytes first. */
  function Pulled(data: seq<byte>, max: nat): (out: seq<byte>)
    ensures out <= data
    ensures |out| == max || out == data
  {
    data[..Min(max, |data|)]
  }

  class ByteQueue {
    const capacity: nat
    var data: seq<byte>
    /** Every byte written since the last reset, and every byte read since then. */
    ghost var written: seq<byte>
    ghost var delivered: seq<byte>

    /**
     * The single-producer single-consumer contract: what has been read is
     * exactly a prefix of what has been written, and the rest is still
     * buffered, so no byte is lost or handed out twice between resets.
     */
    ghost predicate Valid()
      reads this
    {
      |data| <= capacity && written == delivered + data
    }

    constructor (capacity: nat)
      ensures Valid() && this.capacity == capacity
      ensures data == [] && written == [] && delivered == []
    {
      this.capacity := capacity;
      data := [];
      written, delivered := [], [];
    }

    /** Copies as many bytes as fit, never blocking and never growing. */
    method Write(bytes: seq<byte>) returns (n: nat)
      requires Valid()
      modifies this
      ensures Valid()
      ensures n == Min(|bytes|, capacity - |old(data)|)
      ensures data == Enqueued(old(data), bytes, capacity)
      ensures written == old(written) + bytes[..n] && delivered == old(delivered)
    {
      n := Min(|bytes|, capacity - |data|);
      data := data + bytes[..n];
      written := written + bytes[..n];
    }

    /** Hands out up to `max` of the oldest bytes; none when the buffer is empty. */
    method ReadArray(max: nat) returns (out: seq<byte>)
      requires Valid()
      modifies this
      ensures Valid()
      ensures out == Pulled(old(data), max)
      ensures old(data) == out + data
      ensures delivered == old(delivered) + out && written == old(written)
    {
      out := data[..Min(max, |data|)];
      data := data[|out|..];
      delivered := delivered + out;
    }

    /** Discards everything buffered and starts a fresh history. */
    method Reset()
      requires Valid()
      modifies this
      ensures Valid()
      ensures data == [] && written == [] && delivered == []
    {
      data := [];
      written, delivered := [], [];
    }
  }
}
