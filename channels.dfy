/**
 * The two collaborators of the stream registries, sequentialised:
 * a Go `chan []byte` becomes a Channel holding its buffered chunks in FIFO
 * order, and an io.Writer (a hijacked connection) becomes a Writer that logs
 * what it accepted and fails the write attempts listed in `faults`.
 */
module Channels {
  import opened Wrappers

  type Chunk = seq<bv8>

  /** A buffered Go channel of byte slices; the producer and the registry share it by reference. */
  class Channel {
    var buffered: seq<Chunk>

    constructor (initial: seq<Chunk>)
      ensures buffered == initial
    {
      buffered := initial;
    }

    /** `ch <- b` by the producer (capacity and blocking of the producer are not modelled). */
    method Send(b: Chunk)
      modifies this
      ensures buffered == old(buffered) + [b]
    {
      buffered := buffered + [b];
    }

    /** `select { case b := <-ch: ... default: ... }`: takes the oldest chunk if one is ready. */
    method TryReceive() returns (r: Option<Chunk>)
      modifies this
      ensures old(buffered) == [] ==> r == None && buffered == []
      ensures old(buffered) != [] ==> r == Some(old(buffered)[0]) && buffered == old(buffered)[1..]
    {
      if buffered == [] {
        r := None;
      } else {
        r := Some(buffered[0]);
        buffered := buffered[1..];
      }
    }

    /** `len(ch)`: the number of chunks buffered right now. */
    function Len(): nat
      reads this
    {
      |buffered|
    }
  }

  /**
   * A sink. Write attempt number k (counting from 0 over the writer's life)
   * fails exactly when k is in `faults`; a failed write accepts nothing.
   */
  class Writer {
    var log: seq<Chunk>
    var attempts: nat
    var closed: bool
    const faults: set<nat>

    constructor (faults: set<nat>)
      ensures log == [] && attempts == 0 && !closed && this.faults == faults
    {
      log := [];
      attempts := 0;
      closed := false;
      this.faults := faults;
    }

    /** `writer.Write(b)`; ok is false when Write returns an error. */
    method Write(b: Chunk) returns (ok: bool)
      modifies this
      ensures ok <==> old(attempts) !in faults
      ensures log == if ok then old(log) + [b] else old(log)
      ensures attempts == old(attempts) + 1 && closed == old(closed)
    {
      ok := attempts !in faults;
      if ok {
        log := log + [b];
      }
      attempts := attempts + 1;
    }

    /** `conn.Close()`. */
    method Close()
      modifies this
      ensures closed && log == old(log) && attempts == old(attempts)
    {
      closed := true;
    }
  }

  /** How a forwarding loop ended. Blocked: the channel is empty and `done` is still open, so Go would wait there. */
  datatype LoopEnd = WriteFailed | Drained | Blocked

  /** The effect of one forwarding call: chunks accepted by the writer, chunks left in the channel, the writer's attempt counter afterwards, and how the loop ended. */
  datatype Forwarding = Forwarding(written: seq<Chunk>, rest: seq<Chunk>, attempts: nat, end: LoopEnd)

  /**
   * The chunks of q the writer accepts when every chunk is written once, in
   * order, starting at attempt number `start`, and failures are ignored.
   */
  function Delivered(q: seq<Chunk>, faults: set<nat>, start: nat): (r: seq<Chunk>)
    ensures |r| <= |q|
    decreases |q|
  {
    if q == [] then []
    else (if start in faults then [] else [q[0]]) + Delivered(q[1..], faults, start + 1)
  }

  /** When none of the attempts fails, every chunk is delivered. */
  lemma {:induction false} DeliveredWithoutFaults(q: seq<Chunk>, faults: set<nat>, start: nat)
    ensures (forall k :: start <= k < start + |q| ==> k !in faults) ==> Delivered(q, faults, start) == q
    decreases |q|
  {
    if q != [] {
      DeliveredWithoutFaults(q[1..], faults, start + 1);
    }
  }

  /**
   * Writing the first buffered chunk moves it (when its attempt succeeds) from
   * what the rest of the buffer will deliver to what the writer already holds.
   */
  lemma DeliveredStep(log: seq<Chunk>, q: seq<Chunk>, faults: set<nat>, start: nat)
    requires q != []
    ensures (log + (if start in faults then [] else [q[0]])) + Delivered(q[1..], faults, start + 1)
      == log + Delivered(q, faults, start)
  {
    var x, d := if start in faults then [] else [q[0]], Delivered(q[1..], faults, start + 1);
    assert Delivered(q, faults, start) == x + d;
    assert (log + x) + d == log + (x + d);
  }

  /** The number of successful writes before the first failing one among n attempts from `start` (n when none fails). */
  function FirstFailure(faults: set<nat>, start: nat, n: nat): (k: nat)
    ensures k <= n
    ensures forall j :: start <= j < start + k ==> j !in faults
    ensures k < n ==> start + k in faults
    decreases n
  {
    if n == 0 || start in faults then 0 else 1 + FirstFailure(faults, start + 1, n - 1)
  }
}
