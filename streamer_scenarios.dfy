/**
 * Client runs of the bounded registry, checked against the method contracts
 * alone (as a caller sees them). They follow the intent of
 * server/streamer/streamer_test.go and the documented usage scenarios.
 */
module StreamerScenarios {
  import opened Wrappers
  import opened Channels
  import opened Streamer

  /** Chunks "a", "b", "c" as bytes. */
  const A: Chunk := [97]
  const B: Chunk := [98]
  const C: Chunk := [99]

  /**
   * Attach before Stop: "a" then "b" are forwarded and the loop waits.
   * Attach after Stop with "c" buffered: exactly "c", then the loop returns.
   */
  method ForwardThenDrain()
  {
    var reg := new Registry.New(10);
    var stdout := new Channel([]);
    var stderr := new Channel([]);
    var id := reg.Stream(stdout, stderr);
    assert id == Some(0);

    stdout.Send(A);
    stdout.Send(B);
    var first := new Writer({});
    var e1 := reg.StreamStdout(0, first);
    assert e1 == Some(Blocked) && first.log == [A, B];

    var s := reg.Stop(0);
    assert s == StopOk;
    stdout.Send(C);
    var second := new Writer({});
    var e2 := reg.StreamStdout(0, second);
    assert e2 == Some(Drained) && second.log == [C];
  }

  /** A second Stop panics; after the grace time forwarding is a no-op and Stop panics on the unknown ID. */
  method StopTwiceThenExpire()
  {
    var reg := new Registry.New(10);
    var stdout := new Channel([A]);
    var stderr := new Channel([]);
    var id := reg.Stream(stdout, stderr);
    assert id == Some(0);
    var s1 := reg.Stop(0);
    assert s1 == StopOk;
    var s2 := reg.Stop(0);
    assert s2 == PanicCloseOfClosed;

    reg.Expire(0);
    var late := new Writer({});
    var e := reg.StreamStdout(0, late);
    assert e == None && late.log == [] && stdout.buffered == [A];
    var s3 := reg.Stop(0);
    assert s3 == PanicInvalidID;
  }

  /** A failed write ends forwarding; a later attach to the still-live stream gets the rest. */
  method WriteErrorThenReattach()
  {
    var reg := new Registry.New(10);
    var stdout := new Channel([]);
    var stderr := new Channel([]);
    var id := reg.Stream(stdout, stderr);
    assert id == Some(0);

    stderr.Send(A);
    stderr.Send(B);
    var failing := new Writer({0});
    var e1 := reg.StreamStderr(0, failing);
    assert e1 == Some(WriteFailed) && failing.log == [];
    assert stderr.buffered == [B];

    var healthy := new Writer({});
    var e2 := reg.StreamStderr(0, healthy);
    assert e2 == Some(Blocked) && healthy.log == [B];
    assert stdout.buffered == [];
  }

  /** A nil writer and an unknown ID are both silent no-ops. */
  method NilWriterAndUnknownID()
  {
    var reg := new Registry.New(10);
    var stdout := new Channel([A]);
    var stderr := new Channel([]);
    var id := reg.Stream(stdout, stderr);
    assert id == Some(0);
    var e1 := reg.StreamStdout(0, null);
    assert e1 == None && stdout.buffered == [A];
    var w := new Writer({});
    var e2 := reg.StreamStdout(7, w);
    assert e2 == None && w.log == [];
  }

  /** With room for two streams the third Stream panics; after one stream expires its ID is reused. */
  method CapacityExhaustion()
  {
    var reg := new Registry.NewLimited(10, 2);
    var c0 := new Channel([]);
    var c1 := new Channel([]);
    var id0 := reg.Stream(c0, c1);
    var id1 := reg.Stream(c0, c1);
    assert id0 == Some(0) && id1 == Some(1);
    var id2 := reg.Stream(c0, c1);
    assert id2 == None;

    var s := reg.Stop(0);
    assert s == StopOk;
    var id3 := reg.Stream(c0, c1);
    assert id3 == None;
    reg.Expire(0);
    var id4 := reg.Stream(c0, c1);
    assert id4 == Some(0);
  }

  /** NewLimited(g, 0) admits no stream at all. */
  method NoCapacity()
  {
    var reg := new Registry.NewLimited(10, 0);
    var c := new Channel([]);
    var id := reg.Stream(c, c);
    assert id == None;
  }
}
