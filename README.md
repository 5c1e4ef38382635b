# Garden stream forwarding, wire conversion and net-out rules in Dafny

Garden is a container API. This project models and proves its core parts:

- **Stream registry** (`server/streamer/streamer.go`, module `Streamer`). It binds the stdout and stderr channels of a running process to a `uint32` stream ID.
  - IDs come from a cyclic cursor bounded by `maxStreams`. Allocation skips IDs that are still live, and a full registry is an error.
  - A client attaches a writer to one of the two channels. Chunks are forwarded in order until a write fails or the stream is stopped.
  - Once stopped, forwarding drains what is buffered and returns.
  - After a grace time the stopped entry is removed, and its ID can be reused.
- **Older stream server** (`server/streamer.go`, module `StreamServer`). It uses decimal string IDs from a `uint64` counter, which wraps modulo 2^64. Its forwarding ignores write errors. Its HTTP handler writes 200, hijacks the connection, and then streams.
- **HTTP entry points** (`server/stream_handling.go`, module `StreamHandling`). They parse `:streamid` with `strconv.Atoi`, truncate it to a `uint32` stream ID, and choose the status codes. They hand the hijacked connection to the registry and close it afterwards.
- **Wire helpers** (`wire/helpers.go` and `wire/create.go`, modules `WireHelpers` and `WireCreate`). They turn a `ContainerSpec` into the pointer-laden `CreateRequest`. This covers:
  - environment variables split at the first `=`
  - bind mounts and properties
  - the grace time in whole seconds
  - optional strings
- **Net-out rule helpers** (`net_out_rule.go`, module `NetOutRuleHelpers`; `net_out_rules.go`, module `NetOutRules`):
  - address, port and ICMP selectors, where nil means "all"
  - the broadcast address of a network (`lastIP`)
  - the textual form of a port range
  - the -1 "every ICMP type/code" sentinels
  - the flattening of each rule kind into `NetOutRule`

Shared modules:
- `Wrappers` defines `Option`, which stands for a nil-able Go pointer.
- `Decimal` covers `fmt`'s `%d` and the digits `strconv.Atoi` accepts.
- `GoStrings` covers `strings.SplitN` with a one-character separator.
- `Channels` models a Go channel and an `io.Writer`:
  - A `Channel` object holds its buffered chunks in FIFO order.
  - A `Writer` object keeps the log of accepted writes and counts write attempts.
  - Its constant set `faults` names the attempts that fail. That set is how "the next write fails" is expressed.

Each forwarding loop is proved against a pure function of:
- the buffered chunks
- the failing attempts
- the attempt counter at the start
- whether the stream's `done` channel is closed

`Streamer.UntilStopped` is that function for the registry, and `StreamServer.AndDrain` is the one for the older server. Properties are proved about these functions:
- FIFO order
- no write after the first failure
- draining delivers the buffered chunks
- the two servers agree once a stream is stopped

Panics are result values:
- `StopResult`: stop of an unknown ID, and a second close of `done`
- `HandleOutcome`: the nil-entry dereference
- `None`: the registry at capacity

A forwarding loop that would block waiting for input returns `Blocked`. The grace-time removal is an explicit `Expire` step, which is allowed only while the entry is stopped, which is exactly when Go's timer goroutine is pending.

## Model

| member | source | states |
|---|---|---|
| `Decimal.Render` | server/streamer.go:51 | `%d` of a natural number is a non-empty string of ASCII digits, starting with `0` exactly for zero |
| `Decimal.ValueOfRender` | server/streamer.go:51 | reading the decimal rendering back gives the number |
| `Decimal.ValueLeadingZero` | server/stream_handling.go:28 | a leading zero does not change the value of a digit string |
| `Decimal.RenderInjective` | server/streamer.go:51 | two numbers with the same rendering are equal |
| `GoStrings.SplitN2` | wire/create.go:59 | without the separator the result is `[s]`; otherwise two segments, the first free of the separator, that joined by it give `s` back |
| `GoStrings.SplitJoin` | wire/create.go:59 | splitting `key + sep + value` for a separator-free key gives exactly `[key, value]` |
| `Streamer.AdvanceIsNextSlot` | server/streamer/streamer.go:80-87 | the cursor step (`uint32` increment, then reset to 0 on reaching `maxStreams`) moves from the d-th slot after the cursor to the (d+1)-th |
| `Streamer.FreeOffset` | server/streamer/streamer.go:59-66 | the probe returns the first offset from the cursor whose ID is not live, with every ID skipped live; None means every ID from the offset on is live |
| `Streamer.NextFree` | server/streamer/streamer.go:59-72 | the ID allocation chooses: when there is one, it is below `maxStreams` and not live; with `maxStreams` 0 there is none |
| `Streamer.NextFreeIsFirstFree` | server/streamer/streamer.go:59-72 | the allocated ID is below `maxStreams`, is not live, and every ID between the cursor and it in cyclic order is live |
| `Streamer.NextFreeNoneIffFull` | server/streamer/streamer.go:60-70 | allocation fails exactly when every ID below `maxStreams` is live (so always when `maxStreams` is 0) |
| `Streamer.FullIffCount` | server/streamer/streamer.go:60-70 | with all live IDs below `maxStreams`, the registry is full exactly when it holds `maxStreams` entries |
| `Streamer.UntilStopped` | server/streamer/streamer.go:109-132 | stopped: all buffered chunks are attempted once each and the accepted ones delivered in order, errors ignored. Live: a FIFO prefix is delivered with no failed attempt inside it. The loop ends with a write failure exactly when one of the buffered attempts fails, leaving exactly the later chunks buffered; otherwise everything is delivered and the loop waits |
| `Streamer.DrainDeliversBuffered` | server/streamer/streamer.go:123-132 | with no failing write, draining a stopped stream delivers exactly the chunks buffered when it started |
| `Streamer.Drain` | server/streamer/streamer.go:123-132 | takes exactly `len(ch)` chunks, attempts each once, appends the accepted ones to the writer in order and empties the buffer |
| `Streamer.StreamUntilStopped` | server/streamer/streamer.go:109-121 | the channel, writer log, attempt count and ending are those `UntilStopped` gives for the buffered chunks and the `done` state |
| `Streamer.Registry.NewLimited` | server/streamer/streamer.go:34-41 | empty map, cursor 0, the given grace time and limit |
| `Streamer.Registry.New` | server/streamer/streamer.go:29-32 | as `NewLimited` with the limit `math.MaxUint32` |
| `Streamer.Registry.GetStream` | server/streamer/streamer.go:149-153 | the entry for the ID, or nil exactly when the ID was never allocated or has been removed |
| `Streamer.Registry.GetAndIncrementStreamID` | server/streamer/streamer.go:80-87 | returns the old cursor and advances it with the `uint32` increment and the reset at `maxStreams` |
| `Streamer.Registry.Stream` | server/streamer/streamer.go:56-78 | returns the first free ID at or after the cursor; fails exactly when all IDs are live and then changes nothing; otherwise the ID was free, is now live with the given channels and an open `done`, every other entry is untouched and the cursor is just past the ID |
| `Streamer.Registry.DoStream` | server/streamer/streamer.go:97-107 | a nil writer or an unknown ID changes nothing; otherwise the selected channel (0 stdout, 1 stderr) is forwarded as `UntilStopped` says and the other channel is not touched |
| `Streamer.Registry.StreamStdout` | server/streamer/streamer.go:89-91 | `DoStream` on the stdout channel |
| `Streamer.Registry.StreamStderr` | server/streamer/streamer.go:93-95 | `DoStream` on the stderr channel |
| `Streamer.Registry.Stop` | server/streamer/streamer.go:134-140 | an unknown ID is the invalid-ID panic, a stopped one the close-of-closed-channel panic, both changing nothing; a live one becomes stopped, other entries unchanged |
| `Streamer.Registry.Expire` | server/streamer/streamer.go:141-146 | the grace-time removal deletes the stopped entry and nothing else, so the ID is unknown again |
| `StreamServer.Pick` | server/streamer.go:32-38 | `Stdout` selects the stdout channel and `Stderr` the stderr channel |
| `StreamServer.AndDrain` | server/streamer.go:100-116 | every buffered chunk is attempted and nothing stays buffered; failures never end the loop; it returns exactly when `done` is closed (otherwise it waits); without failures every chunk is delivered |
| `StreamServer.SameOnceStopped` | server/streamer.go:105-113 | for a stopped stream the older server forwards exactly as the registry's drain does |
| `StreamServer.LiveDivergence` | server/streamer.go:103-104 | on a live stream the two forwarders agree when no write fails; when one fails the registry stops with chunks undelivered while the older server empties the buffer |
| `StreamServer.WriteUntilEmpty` | server/streamer.go:106-113 | takes chunks until none is ready, attempting each once and appending the accepted ones in order |
| `StreamServer.StreamAndDrain` | server/streamer.go:100-116 | the channel, connection log, attempt count and ending are those `AndDrain` gives |
| `StreamServer.Server.constructor` | server/streamer.go:40-45 | empty map, counter 0, the given connect wait |
| `StreamServer.Server.Stream` | server/streamer.go:47-61 | the ID is the decimal rendering of the counter, which advances by one modulo 2^64; the ID maps to the given channels with an open `done`, other entries untouched |
| `StreamServer.Server.HandleStream` | server/streamer.go:63-80 | 200 is written before the hijack; a failed hijack adds 500 and streams nothing; otherwise an unknown ID is the nil-entry panic with nothing written, and a known one is forwarded as `AndDrain` says; the deferred close happens after the panic or once forwarding returns, and not while it still waits on a live stream |
| `StreamServer.Server.Stop` | server/streamer.go:82-88 | an unknown ID is the nil-entry panic, a second stop the close-of-closed-channel panic, both changing nothing; a live entry becomes stopped |
| `StreamServer.Server.Expire` | server/streamer.go:89-97 | the delayed deletion removes the stopped entry and nothing else |
| `StreamServer.IssuedIDsDistinct` | server/streamer.go:51-52 | different counter values give different stream IDs |
| `StreamHandling.Atoi` | server/stream_handling.go:28 | an accepted string is an optional sign and one or more digits, its value is those digits' value negated after a `-`, it lies in the 64-bit `int` range, and it is negative only with a leading `-` |
| `StreamHandling.AtoiAccepts` | server/stream_handling.go:28 | every optional sign followed by one or more digits whose signed value is in the 64-bit `int` range is accepted, with that value |
| `StreamHandling.AtoiLeadingZero` | server/stream_handling.go:28 | a leading zero after the optional sign changes neither acceptance nor the value |
| `StreamHandling.AtoiNonCanonical` | server/stream_handling.go:28 | `007` and `+007` parse to 7 and `-0` to 0 |
| `StreamHandling.AtoiOfRender` | server/stream_handling.go:28 | every 64-bit integer written in decimal, with an optional `+` when non-negative, parses back to itself |
| `StreamHandling.AtoiRejects` | server/stream_handling.go:28-32 | the empty string, a lone sign, a non-digit and 2^63 are rejected |
| `StreamHandling.ToStreamID` | server/stream_handling.go:33 | the conversion to `StreamID` keeps the value modulo 2^32 |
| `StreamHandling.StreamInfo` | server/stream_handling.go:27-44 | a connection is returned exactly when the parameter parses and the hijack succeeds, with the truncated ID; a parse failure writes only 400; otherwise 200 is written before the hijack, and 500 is written exactly when the hijack fails |
| `StreamHandling.MinusOneIsNeverLive` | server/stream_handling.go:28-33 | `-1` is accepted and becomes the ID 2^32-1, which no registry ever holds |
| `StreamHandling.HandleStdout` | server/stream_handling.go:11-17 | with a connection, stdout of that ID is streamed to it as `UntilStopped` says, and the connection is closed once that returns; while forwarding waits on a live stream it stays open and no close is logged; without a connection the streamer is not called and the connection is not touched |
| `StreamHandling.HandleStderr` | server/stream_handling.go:19-25 | the same for stderr, including staying open while forwarding waits |
| `WireHelpers.PString` | wire/helpers.go:4-6 | always a pointer, to the given string |
| `WireHelpers.OptString` | wire/helpers.go:8-13 | nil exactly for the empty string, otherwise a pointer to it |
| `WireHelpers.PBool` | wire/helpers.go:16-18 | always a pointer, to the given value |
| `WireCreate.ConvertEnvironmentVariables` | wire/create.go:55-70 | one variable per input string in order; its key holds no `=` and key, `=`, value give the input back |
| `WireCreate.PUint8` | wire/create.go:85-93 | always a pointer, to the given mode or origin |
| `WireCreate.ConvertBindMounts` | wire/create.go:72-83 | one wire bind mount per bind mount in order, every field present and equal to the source's |
| `WireCreate.ConvertProperties` | wire/create.go:95-104 | in some order, one property per map entry, each key once, each pair as in the map |
| `WireCreate.OptTimeSecs` | wire/create.go:106-111 | nil exactly for a zero duration, otherwise the whole number of seconds, truncated |
| `WireCreate.NewCreateRequest` | wire/create.go:21-32 | handle, rootfs and network are nil exactly when empty and otherwise copied; the grace time is as `OptTimeSecs`; `privileged` is always present; env, bind mounts and properties are converted as above |
| `NetOutRuleHelpers.AllNetworks` | net_out_rule.go:8-10 | nil, meaning every network |
| `NetOutRuleHelpers.ParseIPv4` | net_out_rule.go:14 | a dotted quad parses to the 16-byte IPv4-in-IPv6 form |
| `NetOutRuleHelpers.AllIPv4Networks` | net_out_rule.go:13-15 | the interval from 0.0.0.0 to 255.255.255.255, both in the 16-byte form |
| `NetOutRuleHelpers.IPRange` | net_out_rule.go:18-23 | an interval with the given start and end |
| `NetOutRuleHelpers.SingleIP` | net_out_rule.go:26-28 | an interval whose start and end are both the address |
| `NetOutRuleHelpers.Broadcast` | net_out_rule.go:82 | the byte keeps the network bits, has every host bit set, and includes every bit of the address byte |
| `NetOutRuleHelpers.LastAddress` | net_out_rule.go:76-85 | as long as the address; each byte under the mask is its broadcast byte, each byte past the mask is zero |
| `NetOutRuleHelpers.BroadcastCoversMember` | net_out_rule.go:82 | a byte agreeing with the address under the mask is a bit subset of, and at most, the broadcast byte |
| `NetOutRuleHelpers.LastAddressIsGreatest` | net_out_rule.go:75-85 | for a mask as long as the address, the last address is in the network and bounds every address of the network byte by byte |
| `NetOutRuleHelpers.LastIP` | net_out_rule.go:76-85 | filling the zeroed buffer under the mask gives `LastAddress` |
| `NetOutRuleHelpers.IPNetNetwork` | net_out_rule.go:31-33 | the interval from the network's address to its last address |
| `NetOutRuleHelpers.AllPorts` | net_out_rule.go:36-38 | nil, meaning every port |
| `NetOutRuleHelpers.PortRange` | net_out_rule.go:46-51 | an interval with the given start and end ports |
| `NetOutRuleHelpers.SinglePort` | net_out_rule.go:41-43 | an interval whose start and end are both the port |
| `NetOutRuleHelpers.AllICMPs` | net_out_rule.go:54-56 | nil, meaning every ICMP type |
| `NetOutRuleHelpers.AllICMPsOfType` | net_out_rule.go:59-64 | the given type with a nil code |
| `NetOutRuleHelpers.ICMPTypeAndCode` | net_out_rule.go:67-73 | exactly the given type and code |
| `NetOutRules.PortRange.String` | net_out_rules.go:18-23 | empty exactly for the zero range, otherwise it contains a `:` |
| `NetOutRules.PortRangeStringRoundTrip` | net_out_rules.go:18-23 | reading the text back (`""` as the zero range, otherwise decimal `start:end`) gives the range |
| `NetOutRules.PortRangeStringInjective` | net_out_rules.go:18-23 | different ranges have different texts |
| `NetOutRules.ICMPType` | net_out_rules.go:30-33 | a pointer to the given type |
| `NetOutRules.ICMPCode` | net_out_rules.go:35-38 | a pointer to the given code |
| `NetOutRules.IcmpType` | net_out_rules.go:43-48 | a stored type is returned as is; the result is -1 exactly for nil or a stored -1 |
| `NetOutRules.IcmpCode` | net_out_rules.go:50-55 | a stored code is returned as is; the result is -1 exactly for nil or a stored -1 |
| `NetOutRules.IcmpSentinels` | net_out_rules.go:25-55 | a stored type or code reads back unchanged and nil reads as -1, so an explicit -1 and nil read the same and no other value does |
| `NetOutRules.NetOutRule.Rule` | net_out_rules.go:57-59 | a flat rule converts to itself |
| `NetOutRules.AllRule.Rule` | net_out_rules.go:61-71 | protocol all, port 0, empty range, ICMP -1/-1, network and log copied |
| `NetOutRules.UDPRule.Rule` | net_out_rules.go:73-83 | protocol UDP, network and ports copied, ICMP -1/-1, never logged |
| `NetOutRules.ICMPRule.Rule` | net_out_rules.go:85-95 | protocol ICMP, port 0, empty range, type and code read through their -1 sentinels, never logged |
| `NetOutRules.TCPRule.Rule` | net_out_rules.go:97-107 | protocol TCP, network, ports and log copied, ICMP -1/-1 |
| `NetOutRules.RuleIdempotent` | net_out_rules.go:57-59 | converting a converted rule changes nothing, and every rule kind converts to a canonical rule |
| `NetOutRules.RuleRecoverable` | net_out_rules.go:61-107 | "all", UDP and TCP rules can be read back whole from their flat rule; an ICMP rule can exactly when neither its type nor its code is an explicit -1 |
| `NetOutRules.LastIP` | net_out_rules.go:8-16 | the same result as `NetOutRuleHelpers.LastAddress`: the same per-byte broadcast formula |

## Left out

- Mutexes and goroutines are not modelled: every method runs alone.
- The grace-time and connect-wait timers, `time.Sleep` and `time.After`, become the explicit `Expire` methods.
- Go's random choice in `select` is fixed. When a chunk and `done` are both ready, the registry takes `done` and drains. The two choices agree only when no write fails. If a write fails, Go may take the chunk branch, stop at the failure and leave the later chunks buffered. The model instead drains and delivers the later chunks that are accepted.
- Blocking is not modelled. A forwarding loop that would wait for more input on a live stream returns `Blocked`. The handlers then stop where Go would still be waiting, with the connection open and not closed. Chunks sent later and the eventual close are not modelled.
- Channels are unbounded queues: channel capacity is not modelled, and neither are nil channels or sends to a closed channel.
- Write errors are modelled only as a fixed set of failing attempts on a writer, not as their error values.
- `Channels.Writer.Write`: a failed write accepts nothing. Go's `io.Writer` may write a prefix of the chunk before it returns an error.
- `Channels.Writer.Write`: a write after `Close` is not made to fail. No modelled caller writes to a connection after closing it.
- HTTP plumbing is not modelled. The response writer becomes a log of status and hijack events, the hijack becomes a boolean input, and the request form becomes the `:streamid` string. server/streamer/http_handling.go is not part of this model.
- The second `WriteHeader(500)` after a hijack failure is recorded as an event. What `net/http` does with a superfluous second status is not modelled.
- `StreamServer.Server.HandleStream`: the nil-entry dereference is modelled as a `HandlePanicNilEntry` outcome, not as unwinding into the HTTP server; the connection is still closed, as the deferred `Close` runs.
- `StreamHandling.Atoi`: `strconv.Atoi` is modelled by its accepted grammar, its value and its 64-bit range. Error values, base prefixes and underscores, which `Atoi` rejects anyway, are not modelled. A 64-bit `int` is assumed.
- `WireCreate.ConvertEnvironmentVariables`: requires every string to contain `=`. The Go code panics on a string without one, by indexing past the end of `SplitN`'s result.
- `WireCreate.OptTimeSecs`: integer nanoseconds divided by 10^9, for non-negative durations whose seconds fit in `uint32`. The float64 of `Duration.Seconds` and the conversion of negative or too-large values are not modelled.
- `WireCreate.NewCreateRequest`: inherits those two preconditions.
- `WireCreate.ConvertProperties`: the order of Go's map iteration is left unspecified, not modelled.
- A nil slice and an empty slice are both the empty sequence.
- JSON tags and serialisation of the wire structures are not modelled, including the malformed tags on `CreateRequest`.
- `wire/get_property.go`, `client.go`, `volumes.go`, `images.go` and `server/fakes.go` are interface declarations, stubs or data holders and are not part of this model.
- The rule structures and `Protocol` of the net-out rules are not defined in these files. They are declared here from the fields the `Rule()` methods read and write, and the network field is taken to be a network interval.
- net_out_rules.go's `lastIP` allocates with `length(ip)`, which these files do not define. It is modelled as `len(ip)`, the same as net_out_rule.go.
- `NetOutRuleHelpers.LastIP` and `NetOutRules.LastIP`: require the mask to be no longer than the address. Go panics on a longer mask, by indexing past the end.
- The `uint8` ICMP fields and the `uint16` ports are bounded integer types. Go pointer identity, as opposed to pointed-to value, is not modelled.
