/**
 * One direction of a UART channel (its `rx` or its `tx` stream): a bounded
 * FIFO of bytes. `write` accepts as many bytes as there is room for, `read`
 * removes and copies as many as the caller's buffer holds, and `size` tells
 * how many are buffered. Neither a full nor an empty buffer is an error.
 */
module Uart {
  import opened Common
  import opened BoardView

  function Min(a: nat, b: nat): (m: nat) {
    if a <= b then a else b
  }

  /** The abstract state of a stream: the buffered bytes, oldest first, and the capacity. */
  datatype Fifo = Fifo(contents: seq<Byte>, capacity: nat) {

    predicate Bounded() {
      |contents| <= capacity
    }

    /**
     * write(src): appends the longest prefix of `src` that fits and returns
     * its length; everything is accepted exactly when it all fits.
     */
    function Write(src: seq<Byte>): (r: (Fifo, nat))
      requires Bounded()
      ensures r.0.Bounded() && r.0.capacity == capacity
      ensures r.1 <= |src| && r.0.contents == contents + src[..r.1]
      ensures r.1 == |src| <==> |contents| + |src| <= capacity
      ensures r.1 < |src| ==> |r.0.contents| == capacity
    {
      var n := Min(capacity - |contents|, |src|);
      (Fifo(contents + src[..n], capacity), n)
    }

    /**
     * read(buffer of length max): removes the oldest bytes, as many as
     * `max` allows, and returns them; it stops short only when the stream
     * runs empty.
     */
    function Read(max: nat): (r: (Fifo, seq<Byte>))
      ensures r.1 + r.0.contents == contents
      ensures |r.1| <= max
      ensures |r.1| == max || r.0.contents == []
      ensures r.0.capacity == capacity
    {
      var n := Min(|contents|, max);
      (Fifo(contents[n..], capacity), contents[..n])
    }
  }

  /** A host- or sketch-side operation on a stream. */
  datatype Op = WriteOp(src: seq<Byte>) | ReadOp(max: nat)

  /**
   * Applies the operations in order and returns the final stream, every
   * byte accepted by a write, and every byte returned by a read, each in
   * the order of the operations.
   */
  function Run(f: Fifo, ops: seq<Op>): (r: (Fifo, seq<Byte>, seq<Byte>))
    requires f.Bounded()
    ensures r.0.Bounded() && r.0.capacity == f.capacity
    decreases |ops|
  {
    if ops == [] then (f, [], [])
    else match ops[0]
      case WriteOp(src) =>
        var (g, n) := f.Write(src);
        var (h, accepted, out) := Run(g, ops[1..]);
        (h, src[..n] + accepted, out)
      case ReadOp(max) =>
        var (g, bytes) := f.Read(max);
        var (h, accepted, out) := Run(g, ops[1..]);
        (h, accepted, bytes + out)
  }

  /**
   * The stream is a strict FIFO under any interleaving of writes and reads:
   * what was buffered followed by everything accepted equals everything read
   * followed by what is still buffered. So reads return the accepted bytes in
   * order, never lose one and never return one twice.
   */
  lemma {:induction false} RunIsFifo(f: Fifo, ops: seq<Op>)
    requires f.Bounded()
    ensures var r := Run(f, ops); f.contents + r.1 == r.2 + r.0.contents
    decreases |ops|
  {
    if ops != [] {
      match ops[0]
      case WriteOp(src) =>
        var (g, n) := f.Write(src);
        var (h, accepted, out) := Run(g, ops[1..]);
        RunIsFifo(g, ops[1..]);
        // g.contents == f.contents + src[..n], and concatenation is associative
        assert f.contents + (src[..n] + accepted) == g.contents + accepted;
      case ReadOp(max) =>
        var (g, bytes) := f.Read(max);
        var (h, accepted, out) := Run(g, ops[1..]);
        RunIsFifo(g, ops[1..]);
        // f.contents == bytes + g.contents
        assert f.contents + accepted == bytes + (g.contents + accepted);
    }
  }

  /**
   * Writing bytes that fit into an empty stream accepts all of them; reading
   * with a buffer of the stream's size then returns them in order and leaves
   * the stream empty.
   */
  lemma WriteThenDrain(capacity: nat, src: seq<Byte>)
    requires |src| <= capacity
    ensures var (f, n) := Fifo([], capacity).Write(src);
      && n == |src|
      && |f.contents| == |src|
      && f.Read(|f.contents|) == (Fifo([], capacity), src)
  {
    var f := Fifo([], capacity).Write(src).0;
    assert f.contents == [] + src[..|src|] == src;
    assert f.contents[|src|..] == [] && f.contents[..|src|] == src;
  }

  /**
   * A stream of the shared board state. The bytes are a sequence that the
   * operations replace; the capacity is fixed when the board is configured.
   */
  class ByteStream {
    var contents: seq<Byte>
    const capacity: nat

    predicate Valid()
      reads this
    {
      |contents| <= capacity
    }

    /** The abstract value of the stream. */
    function State(): (f: Fifo)
      reads this
    {
      Fifo(contents, capacity)
    }

    /** A new stream is empty. */
    constructor (capacity: nat)
      ensures Valid() && State() == Fifo([], capacity)
    {
      this.capacity := capacity;
      contents := [];
    }

    /** size(): the number of bytes buffered, never more than the capacity. */
    function Size(): (n: nat)
      reads this
      requires Valid()
      ensures n <= capacity
      ensures n == 0 <==> contents == []
    {
      |contents|
    }

    /** write(src): returns the number of bytes accepted. */
    method Write(src: seq<Byte>) returns (count: nat)
      requires Valid()
      modifies this
      ensures Valid()
      ensures (State(), count) == old(State()).Write(src)
    {
      count := Min(capacity - |contents|, |src|);
      contents := contents + src[..count];
    }

    /** read(dst): copies the oldest bytes into the front of `dst` and returns how many. */
    method Read(dst: array<Byte>) returns (count: nat)
      requires Valid()
      modifies this, dst
      ensures Valid()
      ensures count <= dst.Length
      ensures (State(), dst[..count]) == old(State()).Read(dst.Length)
      ensures dst[count..] == old(dst[count..])
    {
      count := Min(|contents|, dst.Length);
      var i := 0;
      while i < count
        modifies dst
        invariant 0 <= i <= count
        invariant dst[..i] == contents[..i]
        invariant dst[i..] == old(dst[i..])
      {
        dst[i] := contents[i];
        i := i + 1;
      }
      contents := contents[count..];
    }
  }

  /**
   * A UART channel of the shared board state: its two streams, each sized
   * from the channel's configuration.
   */
  class UartChannel {
    /** Host to sketch. */
    const rx: ByteStream
    /** Sketch to host. */
    const tx: ByteStream

    constructor (config: UartChannelConfig)
      ensures fresh(rx) && fresh(tx) && rx != tx
      ensures rx.Valid() && rx.State() == Fifo([], config.rxBufferLength)
      ensures tx.Valid() && tx.State() == Fifo([], config.txBufferLength)
    {
      rx := new ByteStream(config.rxBufferLength);
      tx := new ByteStream(config.txBufferLength);
    }
  }
}
