/**
 * The connection adapter of server/stream_handling.go: parse ":streamid"
 * with strconv.Atoi, truncate it to a uint32 StreamID, answer 400 / 200 / 500,
 * and hand a hijacked connection to the bounded registry, closing it afterwards.
 */
module StreamHandling {
  import opened Wrappers
  import opened Decimal
  import opened HttpEvents
  import opened Channels
  import Streamer

  /** The range of Go's `int` on a 64-bit platform. */
  const MinInt: int := -0x8000_0000_0000_0000
  const MaxInt: int := 0x7FFF_FFFF_FFFF_FFFF

  predicate HasSign(s: string) {
    |s| > 0 && (s[0] == '+' || s[0] == '-')
  }

  /** The text after an optional leading sign. */
  function Magnitude(s: string): string {
    if HasSign(s) then s[1..] else s
  }

  /** The syntax Atoi accepts: an optional sign followed by one or more ASCII digits. */
  predicate IsDecimalInt(s: string) {
    |Magnitude(s)| > 0 && AllDigits(Magnitude(s))
  }

  /** The integer a decimal string denotes: its digits' value, negated after a '-'. */
  function SignedValue(s: string): int
    requires IsDecimalInt(s)
  {
    var magnitude: int := Value(Magnitude(s));
    if s[0] == '-' then -magnitude else magnitude
  }

  /**
   * strconv.Atoi: an optional '+' or '-', then one or more ASCII digits,
   * denoting a value within the range of `int`; anything else is an error (None).
   */
  function Atoi(s: string): (r: Option<int>)
    ensures r.Some? ==> MinInt <= r.value <= MaxInt
    ensures r.Some? ==> IsDecimalInt(s) && r.value == SignedValue(s)
    ensures r.Some? && r.value < 0 ==> s[0] == '-'
  {
    if !IsDecimalInt(s) then None
    else
      var v := SignedValue(s);
      if MinInt <= v <= MaxInt then Some(v) else None
  }

  /** Every well-formed decimal integer within the range of `int` is accepted, with its value. */
  lemma AtoiAccepts(s: string)
    requires IsDecimalInt(s) && MinInt <= SignedValue(s) <= MaxInt
    ensures Atoi(s) == Some(SignedValue(s))
  {
  }

  /** Leading zeros are accepted and do not change the result, with or without a sign. */
  lemma AtoiLeadingZero(sign: string, digits: string)
    requires sign == "" || sign == "+" || sign == "-"
    requires |digits| > 0 && AllDigits(digits)
    ensures Atoi(sign + "0" + digits) == Atoi(sign + digits)
  {
    var padded, plain := sign + "0" + digits, sign + digits;
    assert Magnitude(padded) == "0" + digits;
    assert Magnitude(plain) == digits;
    ValueLeadingZero(digits);
    if sign == "" {
      assert padded[0] == '0' && plain[0] == digits[0];
    } else {
      assert padded[0] == plain[0] == sign[0];
    }
  }

  /** For instance "007" and "+007" are 7, and "-0" is 0. */
  lemma AtoiNonCanonical()
    ensures Atoi("007") == Some(7) && Atoi("+007") == Some(7) && Atoi("-0") == Some(0)
  {
    assert Value("0") == 0 by {
      assert "0"[..0] == [];
    }
    assert Value("00") == 0 by {
      assert "00"[..1] == "0";
    }
    assert Value("007") == 7 by {
      assert "007"[..2] == "00";
    }
    assert Magnitude("007") == "007";
    assert Magnitude("+007") == "007";
    assert Magnitude("-0") == "0";
  }

  /** Every `int` printed in decimal, with or without an explicit '+', parses back to itself. */
  lemma AtoiOfRender(n: int)
    requires MinInt <= n <= MaxInt
    ensures n >= 0 ==> Atoi(Render(n)) == Some(n) && Atoi("+" + Render(n)) == Some(n)
    ensures n < 0 ==> Atoi("-" + Render(-n)) == Some(n)
  {
    if n >= 0 {
      ValueOfRender(n);
      assert Magnitude(Render(n)) == Render(n);
      assert Magnitude("+" + Render(n)) == Render(n);
    } else {
      ValueOfRender(-n);
      assert Magnitude("-" + Render(-n)) == Render(-n);
    }
  }

  /** Atoi rejects the empty string, a lone sign, any non-digit after the sign, and values outside `int`. */
  lemma AtoiRejects(s: string)
    ensures s == "" || s == "+" || s == "-" ==> Atoi(s) == None
    ensures (exists i :: 0 <= i < |Magnitude(s)| && !IsDigit(Magnitude(s)[i])) ==> Atoi(s) == None
    ensures s == Render(MaxInt + 1) ==> Atoi(s) == None
  {
    if s == Render(MaxInt + 1) {
      ValueOfRender(MaxInt + 1);
      assert Magnitude(s) == s;
    }
  }

  /** `streamer.StreamID(streamID)`: Go's int-to-uint32 conversion keeps the value modulo 2^32. */
  function ToStreamID(n: int): (id: Streamer.StreamID)
    ensures (n - id) % 0x1_0000_0000 == 0
  {
    n % 0x1_0000_0000
  }

  /** What streamInfo decided: the handler events so far, the ID, and whether a connection was returned. */
  datatype Info = Info(events: seq<Event>, id: Streamer.StreamID, hasConn: bool)

  /** `streamInfo`, with the ":streamid" form value and the outcome of the hijack as inputs. */
  function StreamInfo(param: string, hijackOk: bool): (r: Info)
    // a connection is handed out exactly when the ID parses and the hijack succeeds
    ensures r.hasConn <==> Atoi(param).Some? && hijackOk
    ensures r.hasConn ==> r.id == ToStreamID(Atoi(param).value)
    ensures !r.hasConn ==> r.id == 0
    // malformed ID: 400 and nothing else, no hijack
    ensures Atoi(param).None? ==> r.events == [WriteHeader(StatusBadRequest)]
    // well-formed ID: 200 before the hijack; 500 after it when the hijack fails
    ensures Atoi(param).Some? ==> 2 <= |r.events| && r.events[..2] == [WriteHeader(StatusOK), Hijack]
    ensures Atoi(param).Some? ==> (WriteHeader(StatusInternalServerError) in r.events <==> !hijackOk)
    ensures Hijack !in r.events ==> !r.hasConn
  {
    match Atoi(param)
    case None => Info([WriteHeader(StatusBadRequest)], 0, false)
    case Some(n) =>
      if hijackOk then Info([WriteHeader(StatusOK), Hijack], ToStreamID(n), true)
      else Info([WriteHeader(StatusOK), Hijack, WriteHeader(StatusInternalServerError)], 0, false)
  }

  /** "-1" is accepted and names the stream 4294967295, which no bounded registry ever allocates. */
  lemma MinusOneIsNeverLive(reg: Streamer.Registry)
    requires reg.Valid()
    ensures StreamInfo("-1", true).hasConn && StreamInfo("-1", true).id == Streamer.MaxUint32
    ensures reg.PhaseOf(StreamInfo("-1", true).id) == Streamer.Removed
  {
    assert Magnitude("-1") == "1";
    assert Value("1") == 1 by {
      assert "1"[..0] == [];
    }
  }

  /** The channel the handler may make the registry consume from. */
  function Touched(reg: Streamer.Registry, param: string, hijackOk: bool, chanIndex: nat): set<Channel>
    requires chanIndex < 2
    reads reg
  {
    var info := StreamInfo(param, hijackOk);
    if info.hasConn then reg.Selected(info.id, chanIndex) else {}
  }

  /**
   * `handleStdout`: streamInfo, then StreamStdout on the connection, then the
   * deferred Close once StreamStdout returns. `forwarded` is how the registry's
   * forwarding ended (None when it was not called or found no stream). When it
   * ended Blocked the Go handler is still waiting inside StreamStdout: the
   * connection stays open and Close has not happened.
   */
  method HandleStdout(reg: Streamer.Registry, param: string, hijackOk: bool, conn: Writer)
    returns (events: seq<Event>, forwarded: Option<LoopEnd>)
    modifies conn, Touched(reg, param, hijackOk, 0)
    ensures var info := StreamInfo(param, hijackOk);
      events == info.events +
        (if info.hasConn then [StreamStdoutCall(info.id)] + (if forwarded == Some(Blocked) then [] else [Close]) else [])
    ensures !StreamInfo(param, hijackOk).hasConn ==> forwarded == None && unchanged(conn)
    ensures StreamInfo(param, hijackOk).hasConn && forwarded != Some(Blocked) ==> conn.closed
    ensures forwarded == Some(Blocked) ==> conn.closed == old(conn.closed)
    ensures var info := StreamInfo(param, hijackOk);
      info.hasConn && reg.PhaseOf(info.id) == Streamer.Removed ==> forwarded == None && conn.log == old(conn.log)
    ensures var info := StreamInfo(param, hijackOk);
      info.hasConn && reg.PhaseOf(info.id) != Streamer.Removed ==>
        var ch := reg.streams[info.id].stdout;
        var f := Streamer.UntilStopped(old(ch.buffered), conn.faults, old(conn.attempts), reg.streams[info.id].done);
        forwarded == Some(f.end) && ch.buffered == f.rest && conn.log == old(conn.log) + f.written
  {
    var info := StreamInfo(param, hijackOk);
    events := info.events;
    forwarded := None;
    if info.hasConn {
      events := events + [StreamStdoutCall(info.id)];
      forwarded := reg.StreamStdout(info.id, conn);
      if forwarded != Some(Blocked) {
        conn.Close();
        events := events + [Close];
      }
    }
  }

  /**
   * `handleStderr`: streamInfo, then StreamStderr on the connection, then the
   * deferred Close once StreamStderr returns. `forwarded` is how the registry's
   * forwarding ended (None when it was not called or found no stream). When it
   * ended Blocked the Go handler is still waiting inside StreamStderr: the
   * connection stays open and Close has not happened.
   */
  method HandleStderr(reg: Streamer.Registry, param: string, hijackOk: bool, conn: Writer)
    returns (events: seq<Event>, forwarded: Option<LoopEnd>)
    modifies conn, Touched(reg, param, hijackOk, 1)
    ensures var info := StreamInfo(param, hijackOk);
      events == info.events +
        (if info.hasConn then [StreamStderrCall(info.id)] + (if forwarded == Some(Blocked) then [] else [Close]) else [])
    ensures !StreamInfo(param, hijackOk).hasConn ==> forwarded == None && unchanged(conn)
    ensures StreamInfo(param, hijackOk).hasConn && forwarded != Some(Blocked) ==> conn.closed
    ensures forwarded == Some(Blocked) ==> conn.closed == old(conn.closed)
    ensures var info := StreamInfo(param, hijackOk);
      info.hasConn && reg.PhaseOf(info.id) == Streamer.Removed ==> forwarded == None && conn.log == old(conn.log)
    ensures var info := StreamInfo(param, hijackOk);
      info.hasConn && reg.PhaseOf(info.id) != Streamer.Removed ==>
        var ch := reg.streams[info.id].stderr;
        var f := Streamer.UntilStopped(old(ch.buffered), conn.faults, old(conn.attempts), reg.streams[info.id].done);
        forwarded == Some(f.end) && ch.buffered == f.rest && conn.log == old(conn.log) + f.written
  {
    var info := StreamInfo(param, hijackOk);
    events := info.events;
    forwarded := None;
    if info.hasConn {
      events := events + [StreamStderrCall(info.id)];
      forwarded := reg.StreamStderr(info.id, conn);
      if forwarded != Some(Blocked) {
        conn.Close();
        events := events + [Close];
      }
    }
  }
}
