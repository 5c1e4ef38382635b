/**
 * The older registry of server/streamer.go: string IDs rendered from an
 * unbounded uint64 counter, no capacity bound, write errors ignored, draining
 * until no chunk is ready, and a nil entry dereferenced for unknown IDs.
 */
module StreamServer {
  import opened Wrappers
  import opened Channels
  import opened Decimal
  import opened HttpEvents
  import Streamer

  const MaxUint64: nat := 0xFFFF_FFFF_FFFF_FFFF

  type Uint64 = x: int | 0 <= x <= MaxUint64

  /** `stdoutOrErr`: Stdout is true, Stderr is false. */
  type StdoutOrErr = bool

  const Stdout: StdoutOrErr := true
  const Stderr: StdoutOrErr := false

  /** The `s` struct: the two channels and whether `done` is closed. */
  datatype S = S(stdout: Channel, stderr: Channel, done: bool)

  datatype StopResult =
    | StopOk
    | PanicNilEntry       // close(stream.done) on a nil *s
    | PanicCloseOfClosed  // close of an already closed `done` channel

  datatype HandleOutcome =
    | HijackFailed        // 500 written, nothing streamed
    | HandlePanicNilEntry // stream.done on a nil *s: the handler crashes (the deferred Close still runs)
    | Served(end: LoopEnd)

  /** `pick`: the stdout channel for Stdout, the stderr channel for Stderr. */
  function Pick(t: StdoutOrErr, s: S): (ch: Channel)
    ensures t == Stdout ==> ch == s.stdout
    ensures t == Stderr ==> ch == s.stderr
  {
    if t == Stdout then s.stdout else s.stderr
  }

  /**
   * streamAndDrain over the chunks q buffered in the channel: every chunk is
   * written exactly once, in order, whatever the writes return; the call only
   * returns (Drained) once `done` is closed, otherwise it waits (Blocked).
   */
  function AndDrain(q: seq<Chunk>, faults: set<nat>, start: nat, done: bool): (f: Forwarding)
    ensures f.rest == [] && f.attempts == start + |q|
    ensures f.end != WriteFailed && (f.end == Drained <==> done)
    ensures |f.written| <= |q|
    ensures (forall k :: start <= k < start + |q| ==> k !in faults) ==> f.written == q
  {
    DeliveredWithoutFaults(q, faults, start);
    Forwarding(Delivered(q, faults, start), [], start + |q|, if done then Drained else Blocked)
  }

  /** Once stopped, both registries forward exactly the same chunks. */
  lemma SameOnceStopped(q: seq<Chunk>, faults: set<nat>, start: nat)
    ensures AndDrain(q, faults, start, true) == Streamer.UntilStopped(q, faults, start, true)
  {
  }

  /**
   * While live, the two registries differ only when a write fails: the newer
   * one stops at the failure and leaves the rest buffered, the older one goes on.
   */
  lemma LiveDivergence(q: seq<Chunk>, faults: set<nat>, start: nat)
    ensures var older, newer := AndDrain(q, faults, start, false), Streamer.UntilStopped(q, faults, start, false);
      (newer.end == Blocked ==> older == newer) &&
      (newer.end == WriteFailed ==> older.end == Blocked && |newer.rest| + |newer.written| < |q| && older.rest == [])
  {
    var newer := Streamer.UntilStopped(q, faults, start, false);
    if newer.end == Blocked {
      DeliveredWithoutFaults(q, faults, start);
    }
  }

  /**
   * The inner loop of streamAndDrain once `done` is closed: take chunks
   * without blocking and write them until none is ready.
   */
  method WriteUntilEmpty(conn: Writer, ch: Channel)
    modifies conn, ch
    ensures ch.buffered == []
    ensures conn.log == old(conn.log) + Delivered(old(ch.buffered), conn.faults, old(conn.attempts))
    ensures conn.attempts == old(conn.attempts) + |old(ch.buffered)| && conn.closed == old(conn.closed)
  {
    ghost var q, log0, a0 := ch.buffered, conn.log, conn.attempts;
    while true
      invariant conn.attempts + |ch.buffered| == a0 + |q|
      invariant conn.log + Delivered(ch.buffered, conn.faults, conn.attempts) == log0 + Delivered(q, conn.faults, a0)
      invariant conn.closed == old(conn.closed)
      decreases |ch.buffered|
    {
      if ch.buffered != [] {
        DeliveredStep(conn.log, ch.buffered, conn.faults, conn.attempts);
      }
      var output := ch.TryReceive();
      if output.None? {
        return;
      }
      var _ := conn.Write(output.value);
    }
  }

  /** `streamAndDrain(conn, ch, done)`. */
  method StreamAndDrain(conn: Writer, ch: Channel, done: bool) returns (end: LoopEnd)
    modifies conn, ch
    ensures var f := AndDrain(old(ch.buffered), conn.faults, old(conn.attempts), done);
      end == f.end && ch.buffered == f.rest &&
      conn.log == old(conn.log) + f.written && conn.attempts == f.attempts
    ensures conn.closed == old(conn.closed)
  {
    ghost var q, log0, a0 := ch.buffered, conn.log, conn.attempts;
    while true
      invariant conn.attempts + |ch.buffered| == a0 + |q|
      invariant conn.log + Delivered(ch.buffered, conn.faults, conn.attempts) == log0 + Delivered(q, conn.faults, a0)
      invariant conn.closed == old(conn.closed)
      decreases |ch.buffered|
    {
      if done {
        WriteUntilEmpty(conn, ch);
        return Drained;
      }
      if ch.buffered != [] {
        DeliveredStep(conn.log, ch.buffered, conn.faults, conn.attempts);
      }
      var output := ch.TryReceive();
      if output.None? {
        return Blocked;
      }
      var _ := conn.Write(output.value);
    }
  }

  /** The `StreamServer` struct (its RWMutex is not modelled). */
  class Server {
    var nextID: Uint64
    var streams: map<string, S>
    const connectWait: int

    /** `NewStreamServer(connectWait)`. */
    constructor (connectWait: int)
      ensures nextID == 0 && streams == map[] && this.connectWait == connectWait
    {
      nextID := 0;
      streams := map[];
      this.connectWait := connectWait;
    }

    function PhaseOf(id: string): Streamer.Phase
      reads this
    {
      if id !in streams then Streamer.Removed
      else if streams[id].done then Streamer.Stopped
      else Streamer.Live
    }

    /**
     * `Stream(stdout, stderr)`: the decimal rendering of the counter becomes
     * the ID; the counter moves on by one (uint64 wrap-around written out).
     * There is no capacity bound and no check for an existing entry.
     */
    method Stream(stdout: Channel, stderr: Channel) returns (streamID: string)
      modifies this`nextID, this`streams
      ensures streamID == Render(old(nextID))
      ensures nextID == (old(nextID) + 1) % (MaxUint64 + 1)
      ensures streams == old(streams)[streamID := S(stdout, stderr, false)]
      ensures PhaseOf(streamID) == Streamer.Live
    {
      streamID := Render(nextID);
      nextID := (nextID + 1) % (MaxUint64 + 1);
      streams := streams[streamID := S(stdout, stderr, false)];
    }

    /** The channel HandleStream may consume from. */
    function Picked(streamid: string, outOrErr: StdoutOrErr): set<Channel>
      reads this
    {
      if streamid in streams then {Pick(outOrErr, streams[streamid])} else {}
    }

    /**
     * `HandleStream` with the request's ":streamid" value and the outcome of
     * the hijack as inputs; `conn` is the connection a successful hijack yields.
     * The deferred Close runs when the handler returns or panics; when the
     * forwarding ends Blocked the handler is still waiting inside
     * streamAndDrain, so the connection is not closed yet.
     */
    method HandleStream(conn: Writer, streamid: string, outOrErr: StdoutOrErr, hijackOk: bool)
      returns (events: seq<Event>, outcome: HandleOutcome)
      modifies conn, Picked(streamid, outOrErr)
      ensures 2 <= |events| && events[..2] == [WriteHeader(StatusOK), Hijack]
      ensures !hijackOk ==>
        outcome == HijackFailed && events == [WriteHeader(StatusOK), Hijack, WriteHeader(StatusInternalServerError)] &&
        unchanged(conn) && unchanged(Picked(streamid, outOrErr))
      ensures hijackOk && outcome != Served(Blocked) ==> events == [WriteHeader(StatusOK), Hijack, Close] && conn.closed
      ensures hijackOk && outcome == Served(Blocked) ==> events == [WriteHeader(StatusOK), Hijack] && conn.closed == old(conn.closed)
      ensures hijackOk && streamid !in streams ==>
        outcome == HandlePanicNilEntry && conn.log == old(conn.log) && conn.attempts == old(conn.attempts)
      ensures hijackOk && streamid in streams ==>
        var ch := Pick(outOrErr, streams[streamid]);
        var f := AndDrain(old(ch.buffered), conn.faults, old(conn.attempts), streams[streamid].done);
        outcome == Served(f.end) && ch.buffered == f.rest &&
        conn.log == old(conn.log) + f.written && conn.attempts == f.attempts
    {
      events := [WriteHeader(StatusOK), Hijack];
      if !hijackOk {
        events := events + [WriteHeader(StatusInternalServerError)];
        return events, HijackFailed;
      }
      if streamid !in streams {
        conn.Close();
        return events + [Close], HandlePanicNilEntry;
      }
      var stream := streams[streamid];
      var end := StreamAndDrain(conn, Pick(outOrErr, stream), stream.done);
      outcome := Served(end);
      if end != Blocked {
        conn.Close();
        events := events + [Close];
      }
    }

    /**
     * `Stop(id)`: closes `done`; the removal after connectWait is the
     * separate Expire step. Unknown IDs and a second Stop panic.
     */
    method Stop(id: string) returns (r: StopResult)
      modifies this`streams
      ensures streams.Keys == old(streams).Keys
      ensures old(PhaseOf(id)) == Streamer.Removed ==> r == PanicNilEntry && streams == old(streams)
      ensures old(PhaseOf(id)) == Streamer.Stopped ==> r == PanicCloseOfClosed && streams == old(streams)
      ensures old(PhaseOf(id)) == Streamer.Live ==>
        r == StopOk && PhaseOf(id) == Streamer.Stopped &&
        streams == old(streams)[id := old(streams)[id].(done := true)]
    {
      if id !in streams {
        return PanicNilEntry;
      }
      var stream := streams[id];
      if stream.done {
        return PanicCloseOfClosed;
      }
      streams := streams[id := stream.(done := true)];
      r := StopOk;
    }

    /** The connectWait timer started by a successful Stop fires: the entry is deleted. */
    method Expire(id: string)
      requires PhaseOf(id) == Streamer.Stopped
      modifies this`streams
      ensures PhaseOf(id) == Streamer.Removed && streams == old(streams) - {id}
    {
      streams := streams - {id};
    }
  }

  /** IDs issued at different counter values differ: the rendering is injective. */
  lemma IssuedIDsDistinct(a: Uint64, b: Uint64)
    requires a != b
    ensures Render(a) != Render(b)
  {
    if Render(a) == Render(b) {
      RenderInjective(a, b);
    }
  }

  /** Two successive Stream calls return different IDs and both entries are live. */
  method SuccessiveStreams()
  {
    var server := new Server(500);
    var c := new Channel([]);
    var first := server.Stream(c, c);
    var second := server.Stream(c, c);
    IssuedIDsDistinct(0, 1);
    assert first != second;
    assert server.PhaseOf(first) == Streamer.Live && server.PhaseOf(second) == Streamer.Live;
  }
}
