/**
 * The bounded stream registry of server/streamer/streamer.go: stream IDs are
 * uint32 values taken from a cyclic cursor below maxStreams, each live ID maps
 * to a stdout/stderr channel pair and a one-shot `done` signal, forwarding
 * copies one channel to a writer, and Stop fires `done` before a grace-time
 * timer (here the explicit Expire step) removes the entry.
 */
module Streamer {
  import opened Wrappers
  import opened Channels

  const MaxUint32: nat := 0xFFFF_FFFF

  /** `type StreamID uint32` (also the type of maxStreams). */
  type StreamID = x: int | 0 <= x <= MaxUint32

  /** The `stream` struct: ch[0] is stdout, ch[1] is stderr; done is true once `done` is closed. */
  datatype Entry = Entry(stdout: Channel, stderr: Channel, done: bool) {
    function Ch(chanIndex: nat): Channel
      requires chanIndex < 2
    {
      if chanIndex == 0 then stdout else stderr
    }
  }

  /** Life cycle of one ID: LIVE -> STOPPED -> REMOVED (REMOVED also covers never allocated). */
  datatype Phase = Live | Stopped | Removed

  datatype StopResult =
    | StopOk
    | PanicInvalidID      // panic(fmt.Sprintf("Invalid stream ID %d", ...))
    | PanicCloseOfClosed  // close of an already closed `done` channel

  // ---------------------------------------------------------------------------
  // Allocation: the cyclic cursor

  /** The ID d steps after cursor in cyclic order over [0, max). */
  function Slot(cursor: nat, d: nat, max: nat): (s: nat)
    requires cursor < max && d <= max
    ensures s < max
  {
    if cursor + d < max then cursor + d else cursor + d - max
  }

  /** The new cursor of getAndIncrementStreamID: uint32 increment, then reset to 0 on reaching max. */
  function Advance(cursor: StreamID, max: StreamID): StreamID
  {
    var n := (cursor + 1) % 0x1_0000_0000;
    if n == max then 0 else n
  }

  /** Advancing the cursor is one cyclic step: the uint32 wrap never triggers below max. */
  lemma AdvanceIsNextSlot(cursor: nat, d: nat, max: StreamID)
    requires cursor < max && d < max
    ensures Advance(Slot(cursor, d, max), max) == Slot(cursor, d + 1, max)
  {
  }

  /** The offset, at least i, of the first ID not in live when probing from cursor; None when all remaining offsets are live. */
  function FreeOffset(live: set<StreamID>, cursor: nat, max: StreamID, i: nat): (r: Option<nat>)
    requires cursor < max && i <= max
    ensures r.Some? ==> i <= r.value < max && Slot(cursor, r.value, max) !in live
    ensures r.Some? ==> forall e :: i <= e < r.value ==> Slot(cursor, e, max) in live
    ensures r.None? ==> forall e :: i <= e < max ==> Slot(cursor, e, max) in live
    decreases max - i
  {
    if i == max then None
    else if Slot(cursor, i, max) !in live then Some(i)
    else FreeOffset(live, cursor, max, i + 1)
  }

  /** The ID Stream allocates: the first ID at or after the cursor, cyclically, that is not live. */
  function NextFree(live: set<StreamID>, cursor: StreamID, max: StreamID): (r: Option<StreamID>)
    requires max > 0 ==> cursor < max
    ensures r.Some? ==> r.value < max && r.value !in live
    ensures max == 0 ==> r.None?
  {
    if max == 0 then None
    else
      match FreeOffset(live, cursor, max, 0)
      case None => None
      case Some(d) => Some(Slot(cursor, d, max))
  }

  /** The offset at which probing from cursor reaches id. */
  function OffsetOf(cursor: nat, id: nat, max: nat): (d: nat)
    requires cursor < max && id < max
    ensures d < max && Slot(cursor, d, max) == id
  {
    if cursor <= id then id - cursor else id + max - cursor
  }

  /** The allocated ID is free and below max, and every ID passed over before it is live. */
  lemma NextFreeIsFirstFree(live: set<StreamID>, cursor: StreamID, max: StreamID)
    requires max > 0 ==> cursor < max
    requires NextFree(live, cursor, max).Some?
    ensures var id := NextFree(live, cursor, max).value;
      id < max && id !in live &&
      forall e :: 0 <= e < OffsetOf(cursor, id, max) ==> Slot(cursor, e, max) in live
  {
    var d := FreeOffset(live, cursor, max, 0).value;
    var id := Slot(cursor, d, max);
    assert OffsetOf(cursor, id, max) == d;
  }

  /** Allocation fails exactly when every ID in [0, max) is live. */
  lemma NextFreeNoneIffFull(live: set<StreamID>, cursor: StreamID, max: StreamID)
    requires max > 0 ==> cursor < max
    ensures NextFree(live, cursor, max).None? <==> forall id: nat :: id < max ==> id in live
  {
    if max > 0 {
      if NextFree(live, cursor, max).None? {
        forall id: nat | id < max
          ensures id in live
        {
          var d := OffsetOf(cursor, id, max);
          assert Slot(cursor, d, max) in live;
        }
      }
    }
  }

  /** The IDs 0 .. n-1. */
  function Below(n: nat): (ids: set<StreamID>)
    requires n <= MaxUint32 + 1
    ensures forall id: StreamID :: id in ids <==> id < n
    ensures |ids| == n
  {
    if n == 0 then {}
    else
      var smaller := Below(n - 1);
      assert n - 1 !in smaller;
      smaller + {n - 1}
  }

  /** With all live IDs below max, the registry is full exactly when it holds max entries. */
  lemma FullIffCount(live: set<StreamID>, max: StreamID)
    requires forall id :: id in live ==> id < max
    ensures (forall id: nat :: id < max ==> id in live) <==> |live| == max
  {
    var all := Below(max);
    assert live <= all;
    if forall id: nat :: id < max ==> id in live {
      assert live == all;
    } else {
      var missing: StreamID :| missing < max && missing !in live;
      var rest := all - {missing};
      assert |rest| == max - 1;
      assert live <= rest;
      assert rest == live + (rest - live);
      assert |rest| == |live| + |rest - live|;
    }
  }

  // ---------------------------------------------------------------------------
  // Forwarding

  /**
   * streamUntilStopped over the chunks q buffered in the selected channel,
   * with the writer at attempt number `start`. When `done` is already closed
   * the model takes the `done` branch of the select (Go may pick either).
   */
  function UntilStopped(q: seq<Chunk>, faults: set<nat>, start: nat, done: bool): (f: Forwarding)
    ensures |f.written| <= |q|
    // once stopped: one bounded, non-blocking sweep of what is buffered, write errors ignored
    ensures done ==> f.end == Drained && f.rest == [] && f.attempts == start + |q|
    ensures done ==> f.written == Delivered(q, faults, start)
    // while live: FIFO prefix of the buffer, ended by the first failed write or by running dry
    ensures !done ==> f.end != Drained && f.written == q[..|f.written|]
    ensures !done ==> forall j :: start <= j < start + |f.written| ==> j !in faults
    ensures !done ==> (f.end == WriteFailed <==> exists j :: start <= j < start + |q| && j in faults)
    ensures !done && f.end == WriteFailed ==>
      |f.written| < |q| && start + |f.written| in faults &&
      f.rest == q[|f.written| + 1..] && f.attempts == start + |f.written| + 1
    ensures !done && f.end == Blocked ==> f.written == q && f.rest == [] && f.attempts == start + |q|
  {
    if done then Forwarding(Delivered(q, faults, start), [], start + |q|, Drained)
    else
      var k := FirstFailure(faults, start, |q|);
      if k < |q| then Forwarding(q[..k], q[k + 1..], start + k + 1, WriteFailed)
      else Forwarding(q, [], start + |q|, Blocked)
  }

  /** Once stopped, a writer that never fails receives exactly the buffered chunks, in order. */
  lemma DrainDeliversBuffered(q: seq<Chunk>, start: nat)
    ensures UntilStopped(q, {}, start, true).written == q
  {
    DeliveredWithoutFaults(q, {}, start);
  }

  /** `drain`: writes the chunks buffered when called (len(ch) of them), ignoring write errors. */
  method Drain(ch: Channel, writer: Writer)
    modifies ch, writer
    ensures ch.buffered == []
    ensures writer.log == old(writer.log) + Delivered(old(ch.buffered), writer.faults, old(writer.attempts))
    ensures writer.attempts == old(writer.attempts) + |old(ch.buffered)| && writer.closed == old(writer.closed)
  {
    ghost var q, log0, a0 := ch.buffered, writer.log, writer.attempts;
    var drainCount := ch.Len();
    for i := 0 to drainCount
      invariant |ch.buffered| == drainCount - i
      invariant writer.attempts + |ch.buffered| == a0 + |q|
      invariant writer.log + Delivered(ch.buffered, writer.faults, writer.attempts) == log0 + Delivered(q, writer.faults, a0)
      invariant writer.closed == old(writer.closed)
    {
      DeliveredStep(writer.log, ch.buffered, writer.faults, writer.attempts);
      var b := ch.TryReceive();
      if b.Some? {
        var _ := writer.Write(b.value);
      }
    }
  }

  /** `streamUntilStopped`: forwards the channel to the writer until a write fails or `done` is seen. */
  method StreamUntilStopped(ch: Channel, done: bool, writer: Writer) returns (end: LoopEnd)
    modifies ch, writer
    ensures var f := UntilStopped(old(ch.buffered), writer.faults, old(writer.attempts), done);
      end == f.end && ch.buffered == f.rest &&
      writer.log == old(writer.log) + f.written && writer.attempts == f.attempts
    ensures writer.closed == old(writer.closed)
  {
    ghost var q, log0, a0 := ch.buffered, writer.log, writer.attempts;
    ghost var n := 0;
    while true
      invariant 0 <= n <= |q| && (done ==> n == 0)
      invariant ch.buffered == q[n..]
      invariant writer.log == log0 + q[..n] && writer.attempts == a0 + n
      invariant forall j :: a0 <= j < a0 + n ==> j !in writer.faults
      invariant writer.closed == old(writer.closed)
      decreases |ch.buffered|
    {
      if done {
        Drain(ch, writer);
        return Drained;
      }
      if ch.buffered == [] {
        assert FirstFailure(writer.faults, a0, |q|) == n;
        return Blocked;
      }
      var b := ch.TryReceive();
      var ok := writer.Write(b.value);
      if !ok {
        assert FirstFailure(writer.faults, a0, |q|) == n;
        return WriteFailed;
      }
      assert q[..n + 1] == q[..n] + [q[n]];
      n := n + 1;
    }
  }

  // ---------------------------------------------------------------------------
  // The registry

  /** The `streamer` struct (the mutex is not modelled: every method runs alone). */
  class Registry {
    var nextStreamID: StreamID
    const graceTime: int
    const maxStreams: StreamID
    var streams: map<StreamID, Entry>

    /** The cursor and every live ID lie in [0, maxStreams). */
    ghost predicate Valid()
      reads this
    {
      && (if maxStreams == 0 then nextStreamID == 0 else nextStreamID < maxStreams)
      && forall id :: id in streams ==> id < maxStreams
    }

    /** Where an ID is in its life cycle. */
    function PhaseOf(id: StreamID): Phase
      reads this
    {
      if id !in streams then Removed else if streams[id].done then Stopped else Live
    }

    /** `NewLimited(graceTime, maxStreams)`. */
    constructor NewLimited(graceTime: int, maxStreams: StreamID)
      ensures Valid()
      ensures this.graceTime == graceTime && this.maxStreams == maxStreams
      ensures nextStreamID == 0 && streams == map[]
    {
      this.graceTime := graceTime;
      this.maxStreams := maxStreams;
      nextStreamID := 0;
      streams := map[];
    }

    /** `New(graceTime)`: NewLimited with math.MaxUint32 streams. */
    constructor New(graceTime: int)
      ensures Valid()
      ensures this.graceTime == graceTime && maxStreams == MaxUint32
      ensures nextStreamID == 0 && streams == map[]
    {
      this.graceTime := graceTime;
      maxStreams := MaxUint32;
      nextStreamID := 0;
      streams := map[];
    }

    /** `getStream`: nil (None) for an unknown ID. */
    function GetStream(streamID: StreamID): (r: Option<Entry>)
      reads this
      ensures r.Some? <==> PhaseOf(streamID) != Removed
      ensures r.Some? ==> r.value == streams[streamID]
    {
      if streamID in streams then Some(streams[streamID]) else None
    }

    /** `getAndIncrementStreamID`: returns the cursor and moves it one step, cyclically. */
    method GetAndIncrementStreamID() returns (sid: StreamID)
      requires Valid() && maxStreams > 0
      modifies this`nextStreamID
      ensures Valid()
      ensures sid == old(nextStreamID) && nextStreamID == Advance(sid, maxStreams)
    {
      sid := nextStreamID;
      nextStreamID := (nextStreamID + 1) % 0x1_0000_0000;
      if nextStreamID == maxStreams {
        nextStreamID := 0;
      }
    }

    /**
     * `Stream(stdout, stderr)`: registers the pair under the first free ID at
     * or after the cursor. None stands for the panic "Number of streams cannot
     * exceed the maximum allowed", which leaves the state as it was.
     */
    method Stream(stdout: Channel, stderr: Channel) returns (r: Option<StreamID>)
      requires Valid()
      modifies this`nextStreamID, this`streams
      ensures Valid()
      ensures r == NextFree(old(streams).Keys, old(nextStreamID), maxStreams)
      ensures r.None? <==> forall id: nat :: id < maxStreams ==> id in old(streams)
      ensures r.None? ==> streams == old(streams) && nextStreamID == old(nextStreamID)
      ensures r.Some? ==> old(PhaseOf(r.value)) == Removed && PhaseOf(r.value) == Live
      ensures r.Some? ==> streams == old(streams)[r.value := Entry(stdout, stderr, false)]
      ensures r.Some? ==> nextStreamID == Advance(r.value, maxStreams)
    {
      ghost var live, c0 := streams.Keys, nextStreamID;
      NextFreeNoneIffFull(live, c0, maxStreams);
      var found := false;
      var i: nat := 0;
      while !found && i < maxStreams
        invariant Valid() && streams == old(streams)
        invariant i <= maxStreams
        invariant !found && maxStreams > 0 ==>
          nextStreamID == Slot(c0, i, maxStreams) &&
          FreeOffset(live, c0, maxStreams, 0) == FreeOffset(live, c0, maxStreams, i)
        invariant found ==>
          0 < i && nextStreamID == Slot(c0, i - 1, maxStreams) && nextStreamID !in streams &&
          FreeOffset(live, c0, maxStreams, 0) == Some(i - 1)
      {
        if nextStreamID in streams {
          AdvanceIsNextSlot(c0, i, maxStreams);
          var _ := GetAndIncrementStreamID();
        } else {
          found := true;
        }
        i := i + 1;
      }

      if !found {
        return None;
      }

      var sid := GetAndIncrementStreamID();
      streams := streams[sid := Entry(stdout, stderr, false)];
      r := Some(sid);
    }

    /** The channel a forwarding call on (streamID, chanIndex) may consume from. */
    function Selected(streamID: StreamID, chanIndex: nat): set<Channel>
      requires chanIndex < 2
      reads this
    {
      if streamID in streams then {streams[streamID].Ch(chanIndex)} else {}
    }

    /**
     * `doStream`: with a nil writer or an unknown ID nothing happens (None);
     * otherwise the selected channel alone is forwarded, as UntilStopped says.
     */
    method DoStream(streamID: StreamID, writer: Writer?, chanIndex: nat) returns (end: Option<LoopEnd>)
      requires chanIndex < 2
      modifies writer, Selected(streamID, chanIndex)
      ensures end.None? <==> writer == null || PhaseOf(streamID) == Removed
      ensures end.None? ==> (writer != null ==> unchanged(writer)) && unchanged(Selected(streamID, chanIndex))
      ensures end.Some? ==>
        var ch := streams[streamID].Ch(chanIndex);
        var f := UntilStopped(old(ch.buffered), writer.faults, old(writer.attempts), streams[streamID].done);
        end == Some(f.end) && ch.buffered == f.rest &&
        writer.log == old(writer.log) + f.written && writer.attempts == f.attempts &&
        writer.closed == old(writer.closed)
    {
      if writer == null {
        return None;
      }
      var strm := GetStream(streamID);
      if strm.None? {
        return None;
      }
      var e := StreamUntilStopped(strm.value.Ch(chanIndex), strm.value.done, writer);
      end := Some(e);
    }

    /** `StreamStdout`: doStream on channel 0. */
    method StreamStdout(streamID: StreamID, writer: Writer?) returns (end: Option<LoopEnd>)
      modifies writer, Selected(streamID, 0)
      ensures end.None? <==> writer == null || PhaseOf(streamID) == Removed
      ensures end.None? ==> (writer != null ==> unchanged(writer)) && unchanged(Selected(streamID, 0))
      ensures end.Some? ==>
        var ch := streams[streamID].stdout;
        var f := UntilStopped(old(ch.buffered), writer.faults, old(writer.attempts), streams[streamID].done);
        end == Some(f.end) && ch.buffered == f.rest &&
        writer.log == old(writer.log) + f.written && writer.attempts == f.attempts &&
        writer.closed == old(writer.closed)
    {
      end := DoStream(streamID, writer, 0);
    }

    /** `StreamStderr`: doStream on channel 1. */
    method StreamStderr(streamID: StreamID, writer: Writer?) returns (end: Option<LoopEnd>)
      modifies writer, Selected(streamID, 1)
      ensures end.None? <==> writer == null || PhaseOf(streamID) == Removed
      ensures end.None? ==> (writer != null ==> unchanged(writer)) && unchanged(Selected(streamID, 1))
      ensures end.Some? ==>
        var ch := streams[streamID].stderr;
        var f := UntilStopped(old(ch.buffered), writer.faults, old(writer.attempts), streams[streamID].done);
        end == Some(f.end) && ch.buffered == f.rest &&
        writer.log == old(writer.log) + f.written && writer.attempts == f.attempts &&
        writer.closed == old(writer.closed)
    {
      end := DoStream(streamID, writer, 1);
    }

    /**
     * `Stop`: closes `done` of a live stream and (through the grace-time timer,
     * see Expire) schedules its removal; an unknown ID or a second Stop panics.
     */
    method Stop(streamID: StreamID) returns (r: StopResult)
      requires Valid()
      modifies this`streams
      ensures Valid() && streams.Keys == old(streams).Keys
      ensures old(PhaseOf(streamID)) == Removed ==> r == PanicInvalidID && streams == old(streams)
      ensures old(PhaseOf(streamID)) == Stopped ==> r == PanicCloseOfClosed && streams == old(streams)
      ensures old(PhaseOf(streamID)) == Live ==>
        r == StopOk && PhaseOf(streamID) == Stopped &&
        streams == old(streams)[streamID := old(streams)[streamID].(done := true)]
    {
      var strm := GetStream(streamID);
      if strm.None? {
        return PanicInvalidID;
      }
      if strm.value.done {
        return PanicCloseOfClosed;
      }
      streams := streams[streamID := strm.value.(done := true)];
      r := StopOk;
    }

    /** The grace-time timer started by a successful Stop fires: the entry is deleted. */
    method Expire(streamID: StreamID)
      requires Valid() && PhaseOf(streamID) == Stopped
      modifies this`streams
      ensures Valid() && PhaseOf(streamID) == Removed
      ensures streams == old(streams) - {streamID}
    {
      streams := streams - {streamID};
    }
  }
}
