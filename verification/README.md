# PortOpener in Dafny

PortOpener exposes local services on public addresses. A CLI client keeps one multiplexed session to
the server; the server accepts public HTTP, TCP and UDP traffic and relays it to the client over framed
streams. This project models the relay's hard core and proves properties of it for all inputs, all runs
and all interleavings. `dafny verify dfyconfig.toml` checks everything.

| File | Part of the system |
|---|---|
| `Framing.dfy` | the length-prefixed codec as functions: one-shot frames, the streaming form, what each delivers |
| `FrameStream.dfy` | the same codec as the code's loops, over a byte source that may answer short, end early or late, or break |
| `FramePipe.dfy` | a frame writer and a frame reader at work at the same time on a bounded queue |
| `Exchange.dfy`, `ExchangeEnds.dfy` | one HTTP request and its response: two programs moving bytes over two bounded queues; what is delivered, and that every exchange ends |
| `Text.dfy`, `Names.dfy`, `Tunnels.dfy` | key normalisation, name order, and the in-memory registry of live tunnels |
| `TcpListeners.dfy`, `UdpTable.dfy` | the tables of the TCP and the UDP proxy, as classes and as functions on values |
| `UdpRuns.dfy`, `UdpHistory.dfy`, `UdpScenarios.dfy` | datagram handlers, response readers, listeners and the clock, interleaved; the states of a run; some particular runs |
| `UdpIdle.dfy`, `UdpSweeps.dfy`, `UdpFaults.dfy`, `UdpAnswers.dfy` | how long a UDP session can stay idle, and what a sweep must keep; the panic, and sessions dropped while their stream is open; through whose listener a response leaves |
| `Tokens.dfy`, `Reservations.dfy`, `Rollups.dfy`, `Migrations.dfy` | database tables with their constraints, and whole runs over them |
| `Storage.dfy` | the store's functions with every database call able to fail, proved against those tables |
| `Lifecycle.dfy`, `Projections.dfy` | every relay connection at once, with admin kills, token changes and UDP traffic in between; its token table and UDP proxy as runs of their own machines |
| `Registration.dfy`, `EntryLoss.dfy` | how a handler comes to serve, and how a tunnel loses its entries |
| `Routing.dfy` | which tunnel a public request reaches, and which names get certificates |
| `Itoa.dfy` | the server's own integer formatting |

How concurrency is modelled: each region the code holds a lock over, and each blocking call, is one step of
a state machine. A run is any sequence of enabled steps, so a statement about all runs is about every
interleaving. Classes carry the same regions as methods whose `ensures` equates the new state with the
function the machine uses; such methods have no row below unless their contract says more than that.

What is a parameter: the JSON envelopes of an exchange are byte strings, of which the plan says which
unmarshal (where it matters, none has a proper prefix that does, as json.Marshal makes them), and the local
service is any function from request to reply; the token hash is any function; a port being free, a store
call failing, a stream failing to open and a write failing are choices of the step; clock readings are
integers in nanoseconds that never decrease; `net.SplitHostPort` is any partial function, and an allowlist
admits a caller by any predicate.

## What the proofs found in the code

- `FrameReader` reports the end of the stream below it as a plain end even inside a frame
  (`internal/relay/frames.go:103-107`): `Framing.CutFrameEndsPlainly` shows it for every frame and every
  cut inside its payload. `Framing.EofIff` and `FrameStream.Drain` say exactly on which streams the caller
  sees a plain end; only the reader's own `done` tells a complete one: `Framing.TerminatedIff`.
- A `WriteFrame` payload above 16 MiB is written but can never be read back, and from 4 GiB on its length
  wraps: `Framing.FrameRoundTripIff` gives the exact limit, `Framing.WrittenReadsAs` what is read instead.
  A request body is read without a limit, so the client handles exactly the body sent if and only if it is
  below 4 GiB, else silently its first bytes (`ExchangeEnds.HandledIff`), and so for the reply
  (`ExchangeEnds.AnsweredIff`). Such a body can also leave both halves waiting for each other, under exactly
  the condition of `ExchangeEnds.BlocksIff`. Everything else that is too long ends in an error.
- The server sends no body frame for a WebSocket request, the client always reads one, so the two halves
  wait for each other: `Exchange.WebSocketStuck`.
- A handler's cleanup removes by key and is armed before authentication. A peer that is refused takes away
  the entry of a serving handler: `EntryLoss.OwnerOutlivesEntry`. A tunnel that reconnects loses its port
  and its listener when its old connection ends: `EntryLoss.ReconnectLosesPort`. The steps that lose
  something are exactly those of `EntryLoss.LostIff`, `EntryLoss.PortLostIff` and `EntryLoss.ListenerLostIff`.
- Storing a new UDP session panics exactly when the port has no listener then (`UdpFaults.CrashIff`), which
  always means that it was removed while the datagram was being handled (`UdpFaults.CrashFollowsRemoval`).
- A response leaves through the listener its port has at that moment. That is another owner's than the one
  its datagram arrived through exactly when that owner has opened the port since (`UdpAnswers.CrossesIff`),
  also for a stream that was open all the time (`UdpAnswers.CrossReachable`).
- A UDP session can be dropped by key while its stream is open and being read, by the reader of an older
  stream: `UdpFaults.LeavesOpenIff`, `UdpFaults.NewerSessionDropped`.
- The 150-second idle bound of UDP sessions holds on one port for any number of handlers when a datagram's
  handling swept, or found no other sweep pending, except for sessions that await their first stamp:
  `UdpIdle.IdleBound`. None of the conditions can be dropped: `UdpIdle.PendingSweepBreaks`,
  `UdpIdle.OtherPortBreaks` and `UdpIdle.LateStoreBreaks` break it from any state without them,
  `UdpIdle.OverlapBreaksBound` and `UdpIdle.LateStoreReached` from the start.
- The reservation is written before the tunnel row it refers to, so a tunnel's first registration never
  persists its reservation: `Reservations.FirstRegistrationIsLost`.
- A listed allowlist is the stored one exactly when no value has a comma and it is not one empty value:
  `Reservations.ListedIff`.
- `EnsureToken` checks and inserts in two calls. Two that overlap leave two active tokens
  (`Tokens.OverlapGivesTwo`); at most one is active throughout a run exactly when no insert goes through
  while one is (`Tokens.OneActiveIff`).
- `itoa` indexes below its buffer for values outside (-10^11, 10^12), except for the smallest integer,
  which it formats as a bare minus sign: `Itoa.Itoa`. A hello with such a TCP port ends in its handler's
  cleanup.

Where the repository's documentation and its code differ, the model follows the code.
`docs/relay-protocol.md:85-86` allows any number of body frames; the code sends exactly one, empty or not.
`docs/relay-protocol.md:40` gives a UDP tunnel one stream; the code opens one per remote address.

## Model

| member | source | states |
|---|---|---|
| Framing.HeaderRoundTrip | internal/relay/frames.go:13-15 | every uint32 length survives its header, and header byte i is its base-256 digit of weight 256^(3 - i): the most significant byte comes first |
| Framing.HeaderCanonical | internal/relay/frames.go:27-31 | the length read from any four header bytes is the number they denote in base 256, most significant first, and those bytes are its header |
| Framing.ShortFrame | internal/relay/frames.go:12-24 | a payload of fewer than 256 bytes goes onto the wire as 0, 0, 0, its length, and itself |
| Framing.FrameRoundTripIff | internal/relay/frames.go:12-43 | a written frame reads back as the same payload, leaving exactly what follows it, if and only if the payload is at most 16 MiB |
| Framing.DecodedIsEncoded | internal/relay/frames.go:26-43 | whenever ReadFrame succeeds, the bytes it consumed are the encoding of what it returned, and that is within the limit |
| Framing.DecodeFailsIff | internal/relay/frames.go:27-41 | which bytes ReadFrame refuses and with which error: too large exactly from 16 777 217 on, an unexpected end inside the header or the payload, a plain end before any byte or right after the header |
| Framing.FramesRoundTrip | internal/relay/frames.go:12-43 | any list of frames within the limit is read back as the same list, leaving exactly the unread suffix |
| Framing.FramesArePrefix | internal/relay/frames.go:12-43 | two frame lists that begin the same byte stream: the shorter is a prefix of the longer, and the rest of the stream is accounted for |
| Framing.EncodingInjective | internal/relay/frames.go:12-24 | frame lists with equal encodings are equal |
| Framing.EncodingPrefixFree | internal/relay/frames.go:12-24 | no frame's encoding is a proper prefix of another's |
| Framing.DeliverSplit | internal/relay/frames.go:98-107 | taking any number of bytes of the current frame only moves them out of what is still due: chunk sizes cannot matter |
| Framing.DeliverExtendsReadRun | internal/relay/frames.go:26-43 | on every byte stream, malformed or cut off, the streaming reader delivers what repeated ReadFrame returns plus the bytes present of one cut-off last frame; both agree on termination and on oversize frames |
| Framing.StreamRoundTrip | internal/relay/frames.go:74-130 | for every list of written chunks, empty ones included, then Close, the streaming reader is due exactly their concatenation and stops at the real terminator, with every later byte unread |
| Framing.TerminatedIff | internal/relay/frames.go:78-87 | a reader can reach `done` with a given unread suffix if and only if the stream is a sequence of non-empty frames within the limit, a terminator, and that suffix |
| Framing.CutFrameEndsPlainly | internal/relay/frames.go:98-107 | every frame within the limit, cut anywhere inside its payload, is delivered up to the cut and then ends like a finished stream |
| Framing.EofIff | internal/relay/frames.go:78-107 | the caller sees a plain end of file if and only if the stream is a closed one, or stops right after a non-empty frame, or at its very start, or after a header and fewer payload bytes than it announces |
| Framing.WrittenReadsAs | internal/relay/frames.go:12-43 | what any written frame reads back as: the payload up to its length modulo 2^32, if that is within the limit, with the rest of the payload left on the stream |
| Framing.ReadRunReencodes | internal/relay/frames.go:26-43 | the frames read up to a terminator re-encode to exactly the bytes consumed |
| FrameStream.ReadFull | internal/relay/frames.go:27-41 | under any short reads the buffer gets the next bytes in order; an error comes with exactly the bytes consumed, and an unexpected end only after at least one byte |
| FrameStream.ReadFrame | internal/relay/frames.go:26-43 | whatever the source's short reads, the result is the decoding of its bytes, with the header read as `Framing.HeaderCanonical` says, unless the transport itself broke; a returned frame leaves exactly the rest |
| FrameStream.FrameReader.Read | internal/relay/frames.go:74-108 | each call moves the bytes it returns out of what the reader was due, touches nothing else in the buffer, ends with the error that was due, and after `done` reads nothing |
| FrameStream.Drain | internal/relay/frames.go:74-108 | reading with any sequence of non-empty buffers delivers exactly what was due, whatever the short reads, with `done` only at the terminator, and reports a plain end of file exactly on the streams of `Framing.EofIff` |
| FrameStream.WriteFrame | internal/relay/frames.go:12-24 | success appends the frame's encoding, whose header is that of `Framing.HeaderRoundTrip`, failure a proper prefix of it |
| FrameStream.FrameWriter.Write | internal/relay/frames.go:118-126 | an empty slice writes nothing; otherwise one frame is appended and the full length reported, or a proper prefix and 0 |
| FrameStream.FrameWriter.Close | internal/relay/frames.go:128-130 | success appends the terminator frame, failure a proper prefix of it |
| FrameStream.CopyAcross | internal/relay/frames.go:64-130 | writer and reader end to end: any chunking, any buffer sizes and any short reads give back the concatenated bytes, and the bytes behind the terminator stay unread |
| FramePipe.DeliversPrefix | internal/relay/frames.go:74-130 | on any bytes, while writer and reader interleave over a bounded queue, what is delivered is a prefix of what the stream delivers, the queue never exceeds its capacity, and a run has at most twice as many moves as bytes |
| FramePipe.PipeDelivers | internal/relay/frames.go:74-130 | whatever the capacity and the interleaving, when nothing more can move the reader is done, exactly the written chunks have been delivered and every byte behind the terminator is unread |
| Exchange.FeedAccounts | internal/relay/frames.go:26-43 | a ReadFrame fed piecewise never loses or invents a byte: what it has taken, or completed, re-encodes to the bytes consumed, and it rejects only lengths above the limit |
| Exchange.FeedKeepsWire | internal/relay/frames.go:26-43 | on any bytes, a read moves bytes from the queue into the reader and the frames read, and loses none |
| Exchange.FeedKeepsFlow | internal/relay/frames.go:26-43 | a read on either side completes only the next frame that was sent, in order |
| Exchange.FlowNotDry | server/internal/relayserver/httpproxy.go:97-128 | while a frame is outstanding, some of its bytes are in the queue or still to be written |
| Exchange.StepInv | server/internal/relayserver/httpproxy.go:97-137 | every step of either half keeps the accounting of bytes written, queued and read |
| Exchange.NoDeadlock | cli/internal/relayclient/client.go:188-208 | with queues of any positive capacity, a state of a plain exchange within the limits in which nothing can move has delivered everything |
| Exchange.RunReadsFit | cli/internal/relayclient/client.go:188-208 | in any run of any exchange, what either half has accepted is within the limit and has envelopes that unmarshal |
| Exchange.ExchangeOutcome | server/internal/relayserver/httpproxy.go:97-137 | however the halves interleave, an exchange that can go no further has given the client exactly the request and body sent and the proxy exactly the head and body produced, if and only if all four frames are within bounds, the envelopes unmarshal and it is no WebSocket request; a half that ends closes the stream, and the other then sees its end |
| Exchange.WebSocketStuck | server/internal/relayserver/httpproxy.go:102-121 | a WebSocket exchange comes to rest in exactly one state: the proxy waiting for the response, the client for a body frame |
| ExchangeEnds.StepWired | server/internal/relayserver/httpproxy.go:97-137 | every step of every exchange, also one whose frames are too long, loses no byte on the way to a reading client and lowers the number of moves still to be made |
| ExchangeEnds.RunsTerminate | cli/internal/relayclient/client.go:188-208 | no interleaving of any exchange has more steps than an explicit bound |
| ExchangeEnds.HandledIff | cli/internal/relayclient/client.go:188-205 | in every state of every run of a plain exchange, whatever the lengths, a client that has handled a request has handled exactly the one sent with the body up to its length modulo 2^32: exactly what was sent if and only if the body is below 4 GiB |
| ExchangeEnds.AnsweredIff | server/internal/relayserver/httpproxy.go:110-137 | and a proxy that has an answer has exactly the head of the reply to that, with its body up to its length modulo 2^32: exactly the reply produced if and only if its body is below 4 GiB |
| ExchangeEnds.NeverWrong | server/internal/relayserver/httpproxy.go:97-137 | so if neither body wraps, whatever is too long, nothing else than what was sent is handled and nothing else than the reply to it is answered |
| ExchangeEnds.WrappedBodyVanishes | internal/relay/frames.go:13-21 | with a body whose length wraps to zero the service is asked as if there were none |
| ExchangeEnds.RunsWithoutBody | internal/relay/frames.go:13-21 | and every run is, move by move, that of the exchange with an empty body |
| ExchangeEnds.HaltedIff | server/internal/relayserver/httpproxy.go:97-137 | a plain exchange with frames of any length can go no further if and only if both halves have ended, or both are writing to full queues, or both are reading from empty ones |
| ExchangeEnds.BlocksIff | server/internal/relayserver/httpproxy.go:97-128 | a plain exchange has a run that stops with a half unfinished if and only if its request is within the limit, its body of 4 GiB or more wraps to a non-zero length that is too, and both the rest of the body and the reply are longer than their queues |
| ExchangeEnds.ExchangeEnds | server/internal/relayserver/httpproxy.go:97-137 | any other plain exchange that can go no further has ended on both sides: the proxy has answered its caller, with the reply or an error |
| Text.KeyIdempotent | server/internal/tunnels/registry.go:49 | a normalised key normalises to itself |
| Text.TrimSpaceParts | server/internal/storage/store.go:92 | trimming takes white space away at both ends of a text, all of it and nothing else |
| Text.SameKeyIff | server/internal/tunnels/registry.go:49 | two texts have the same key if and only if, without the white space around them, they are the same up to the case of letters; and a key is its text in lower case |
| Tunnels.Registry.RemoveHTTPByTunnelID | server/internal/tunnels/registry.go:77-91 | deletes exactly the tunnel's entries and returns each of them once |
| Tunnels.Registry.LookupHTTPByTunnelID | server/internal/tunnels/registry.go:101-113 | finds an entry of the tunnel if and only if there is one and the id is not empty |
| Tunnels.Registry.RemovePortByTunnelID | server/internal/tunnels/registry.go:154-168 | deletes exactly the tunnel's entries and returns each of them once |
| Tunnels.DeleteMatching | server/internal/tunnels/registry.go:83-90 | deleting while iterating, in any order, leaves exactly the entries that do not match and collects each other one once |
| Tunnels.Registry.Perform | server/internal/tunnels/registry.go:48-223 | any sequence of calls of the registry's changing methods leaves exactly the bindings of the machine whose runs are studied below |
| Tunnels.RunConsistent | server/internal/tunnels/registry.go:48-91 | in any run HTTP keys stay normalised, not empty and equal to their entry's own field, and ports are never 0 |
| Tunnels.HTTPStepIs | server/internal/tunnels/registry.go:48-91 | one operation binds a free key if and only if it registers a subdomain with that key, and unbinds a bound one if and only if it removes it by name or by its tunnel; a bound entry never changes otherwise |
| Tunnels.PortStepIs | server/internal/tunnels/registry.go:125-223 | the same for one port of one protocol, where a registration by the tunnel that has it replaces the session |
| Tunnels.HeldSinceIff | server/internal/tunnels/registry.go:48-91 | in any run, a key has an entry at the end if and only if it had it at the start or a registration made it while the key was free, and no operation since has unbound it |
| Tunnels.HTTPMovesThroughUnbound | server/internal/tunnels/registry.go:57-75 | in any run, an HTTP key bound to something else later was unbound at some point in between |
| Tunnels.PortMovesThroughUnbound | server/internal/tunnels/registry.go:134-152 | in any run, a port held by another tunnel later was unbound in between; in place only its session changes |
| Tunnels.KillIsExact | server/internal/admin/http.go:131-135 | the three removals of a kill unbind exactly the tunnel's keys and ports and change no other entry |
| TcpListeners.TCPProxy.EnsureListener | server/internal/relayserver/tcp.go:21-40 | opens a listener only for a positive port that has none and is available; panics if and only if it has to format a port from 10^12 on |
| UdpTable.UDPProxy.RemoveListener | server/internal/relayserver/udp.go:62-77 | the loop closes exactly the port's streams, and socket and sessions go together |
| UdpTable.UDPProxy.CleanupSessions | server/internal/relayserver/udp.go:196-210 | skips within 30 000 000 000 ns of the last sweep of any port; otherwise the loop leaves the swept table of `UdpTable.TakenOutIsClosed` |
| UdpTable.TakenOutIsClosed | server/internal/relayserver/udp.go:62-77 | a removed listener takes out exactly its port's sessions; a sweep takes out exactly those last seen more than 120 000 000 000 ns before the clock reading made for each; both close what they take out and leave the others as they are |
| UdpTable.SweepCloses | server/internal/relayserver/udp.go:196-210 | every stream a sweep closes was in its port's table and last seen more than 120 000 000 000 ns before the reading made for it |
| UdpRuns.StepInv | server/internal/relayserver/udp.go:92-194 | every step of every handler, reader and listener change keeps the stream accounting |
| UdpRuns.Conservation | server/internal/relayserver/udp.go:36-77 | in every state of every run sockets and session maps have equal ports, each session has a reader pending or not ended, and each stream opened is closed, in its opener's hand, or with a reader that will close it |
| UdpRuns.NothingLeaks | server/internal/relayserver/udp.go:127-194 | once handlers and readers have finished, exactly the streams opened are closed and no session is left |
| UdpRuns.Provenance | server/internal/relayserver/udp.go:92-181 | every response sent from a port to an address came over a stream opened for a datagram that arrived on that port from that address, and only such datagrams were written to it |
| UdpScenarios.FirstDatagramServed | server/internal/relayserver/udp.go:92-152 | from any state, the undisturbed handler of a first datagram ends with its session stored, its reader running and the datagram alone on the stream |
| UdpScenarios.ReaderEnds | server/internal/relayserver/udp.go:154-158 | in any state a running reader whose stream ends closes that stream, drops exactly its session's key and is gone |
| UdpScenarios.HandlerEnds | server/internal/relayserver/udp.go:92-152 | from any reachable state, steps of its own take a datagram handler to its end or to the panic: none is ever stuck |
| UdpFaults.CrashIff | server/internal/relayserver/udp.go:142-148 | a step panics if and only if it stores a session on a port that has no listener then |
| UdpFaults.CrashFollowsRemoval | server/internal/relayserver/udp.go:62-77 | in every run that panics the handler was in flight when its port's listener was removed, and the port has had no listener since |
| UdpFaults.CrashReachable | server/internal/relayserver/udp.go:135-148 | for every port and first datagram there is a run that panics |
| UdpFaults.LeavesOpenIff | server/internal/relayserver/udp.go:188-194 | a session leaves the table with its stream open if and only if its key is dropped after a failed write or by an ending reader while the stream is open |
| UdpFaults.DroppedStillServed | server/internal/relayserver/udp.go:154-158 | such a stream still has its reader, and a reader that drops it is that of another stream |
| UdpFaults.NewerSessionDropped | server/internal/relayserver/udp.go:154-158 | for every port and datagram there is a run in which the reader of an old stream takes a newer one, open and being read, out of the table |
| UdpAnswers.CrossesIff | server/internal/relayserver/udp.go:172-181 | in every run, a response leaves through the listener of another owner than its datagram arrived through if and only if the present listener was opened by that other owner after that arrival |
| UdpAnswers.CrossReachable | server/internal/relayserver/udp.go:154-194 | for every port, datagram and payload there is a run in which the reader of a stream dropped by key, never closed, answers through the listener of the port's next owner |
| UdpIdle.StepIdle | server/internal/relayserver/udp.go:196-210 | whatever is in flight on one port, every step keeps: while no sweep is pending each session was fresh at the last one or awaits its first stamp |
| UdpIdle.IdleBound | server/internal/relayserver/udp.go:31-34 | in every run of one port, with any number of handlers: when a datagram's handling ends in the sweep call, and it swept or no other sweep is pending, each session has been idle for less than 150 seconds or awaits its first stamp |
| UdpIdle.IdleBoundAlone | server/internal/relayserver/udp.go:92-125 | a datagram alone in flight when its handling ends leaves no session idle for 150 seconds or more |
| UdpIdle.PendingSweepBreaks | server/internal/relayserver/udp.go:196-203 | from any state with two handlers about to check the interval, on one port or two, and any session: the bound can be broken for it |
| UdpIdle.OtherPortBreaks | server/internal/relayserver/udp.go:197-203 | a sweep of another port, carried out in full and leaving none pending, breaks it too |
| UdpIdle.LateStoreBreaks | server/internal/relayserver/udp.go:137-149 | so does storing a session long after its stream was opened, from any state: the exception for unstamped sessions is needed |
| UdpIdle.OverlapBreaksBound | server/internal/relayserver/udp.go:196-203 | for every port and datagram a run of that port alone breaks the bound |
| UdpIdle.LateStoreReached | server/internal/relayserver/udp.go:137-149 | for every three datagrams of one port a run of that port alone, with two handlers in flight and no sweep pending, needs that exception |
| UdpSweeps.SweepKeepsIff | server/internal/relayserver/udp.go:196-210 | in every run a sweep keeps a session of its port if and only if some step found it, opened it, stamped it or read a response from it at most two minutes before the sweep's clock reading; a kept one stays the same and open, any other is closed |
| UdpSweeps.SweepSparesUsed | server/internal/relayserver/udp.go:200-209 | in every run, no stream that a sweep closes was so used at most two minutes before its reading |
| UdpSweeps.LastUse | server/internal/relayserver/udp.go:105-181 | in every run, the time a session was last seen is that of the last step that found, opened or stamped it or read a response from it |
| UdpSweeps.SweepDueIff | server/internal/relayserver/udp.go:197-200 | in every run, an interval check finds a sweep due if and only if every sweep announced before, on any port, was announced at least 30 seconds ago |
| Tokens.RunSound | server/internal/storage/store.go:63-135 | over any run, with EnsureToken's check and insert apart, any overlaps and any failures: no hash is stored twice, an active token once there stays, and revoked rows stay revoked |
| Tokens.SecondActiveIff | server/internal/storage/store.go:104-112 | a step gives a second active token if and only if it is the insert of an EnsureToken, goes through, and a token is active |
| Tokens.OneActiveIff | server/internal/storage/store.go:63-135 | over any run at most one token is active in every state if and only if no insert goes through while one is |
| Tokens.InsertWasChecked | server/internal/storage/store.go:67-77 | an insert in flight has had a check of its own that found no active token, and has been in flight since |
| Tokens.OverlapGivesTwo | server/internal/storage/store.go:63-78 | from the empty table, two overlapping EnsureToken calls leave two active tokens, for any two tokens that hash differently |
| Tokens.WholeCallsKeepOneActive | server/internal/storage/store.go:63-135 | from an empty table, calls of EnsureToken and RotateToken that do not overlap, failing anywhere, keep at most one token active in every state |
| Tokens.WholeCall | server/internal/storage/store.go:63-135 | a RotateToken, or EnsureToken's check followed by its insert, has the effect of the whole call that the store's method is proved to have, and a failing one no effect |
| Tokens.RevokedForever | server/internal/storage/store.go:91-135 | a token that was revoked is never valid again, in any run, with any hash function |
| Tokens.RotateIff | server/internal/storage/store.go:114-135 | rotation goes through if and only if its token is not blank and was never issued; then exactly the texts that hash like it are valid |
| Tokens.EnsureIff | server/internal/storage/store.go:63-78 | a whole EnsureToken succeeds without effect if a token is active; otherwise if and only if its own is not blank and was never issued, and then exactly the texts that hash like it are valid |
| Tokens.StepIs | server/internal/storage/store.go:63-135 | what one database call does: a passed check puts its call in flight, an insert ends it, and a token not blank and never issued is added by an insert, or left as the only valid one by a rotation, unless the call fails; nothing else changes the table |
| Storage.Store.EnsureToken | server/internal/storage/store.go:63-78 | success is the token machine's step; failure changes nothing; without database faults it succeeds exactly when that step exists |
| Storage.Store.RotateToken | server/internal/storage/store.go:114-135 | the transaction is all or nothing under a fault at any of its calls |
| Storage.Store.UpsertHTTPReservation | server/internal/storage/store.go:197-226 | the transaction with its insert loop commits the whole reservation or leaves every table as it was |
| Storage.Store.ListHTTPReservations | server/internal/storage/store.go:480-504 | unless a call fails, one result per reserved subdomain in ascending order, its allowlist being that of its tunnel joined with commas, in any order, and split again |
| Storage.Store.AddMetric | server/internal/storage/store.go:518-534 | adds the deltas to the bucket of the minute, or, refused or failed, changes nothing |
| Storage.Store.ApplyMigrations | server/internal/storage/store.go:584-635 | the loop leaves exactly the log of the migration machine, and succeeds exactly when it does |
| Reservations.PutAllowsIff | migrations/0001_initial.sql:50-57 | the insert loop goes through if and only if no value repeats or is there already; then it appends exactly the values and touches no other tunnel |
| Reservations.ReserveIff | server/internal/storage/store.go:197-226 | a reservation goes through if and only if the subdomain is not empty, the tunnel row exists and, unless the tunnel id is empty, the allowlist has no repeats; then the tunnel's rows are exactly the values passed and every other tunnel's are unchanged |
| Reservations.FirstRegistrationIsLost | server/internal/relayserver/server.go:145-163 | registering an unknown tunnel stores the tunnel row only; registering it again stores the reservation, unless its allowlist has a repeat |
| Reservations.RegisterReferential | migrations/0001_initial.sql:21-57 | registration, refused or not, keeps both foreign keys and the UNIQUE constraint |
| Reservations.SplitJoin | server/internal/storage/store.go:481-500 | splitting the comma-joined values gives them back when none contains a comma |
| Reservations.ListedIff | server/internal/storage/store.go:480-504 | for any order the database concatenates in, listing gives the stored values up to order if and only if none has a comma and they are not one empty value |
| Reservations.ReservationListedIff | server/internal/storage/store.go:480-504 | after a successful reservation every answer of the listing query has exactly one row for it, with its tunnel, and gives its allowlist back up to order if and only if no value has a comma and it is not one empty value |
| Rollups.MinuteBucketIff | server/internal/storage/store.go:525 | a time is in bucket m if and only if it is one of the seconds 60m to 60m + 59, or, before 1970, 60m - 59 to 60m |
| Rollups.BucketConservation | server/internal/storage/store.go:518-534 | after any calls every bucket is its old value plus exactly the stored deltas whose time is in its minute |
| Rollups.TotalConservation | server/internal/storage/store.go:525-532 | after any calls a tunnel's buckets sum to their old sum plus exactly its stored deltas |
| Rollups.TotalUpsert | migrations/0001_initial.sql:72-81 | an upsert adds its delta to its own tunnel's sum over all buckets and to no other |
| Rollups.Collector.Snapshot | server/internal/metrics/metrics.go:36-44 | the copying loop returns exactly the totals |
| Rollups.RequestsAgree | server/internal/relayserver/httpproxy.go:139-168 | in any interleaving a tunnel's in-memory request, incoming and outgoing byte counts are, as 64-bit integers, its stored ones plus those of its requests between the two updates and of those the store refused, less what TCP and UDP connections stored; its connection count is theirs |
| Rollups.QuietTotalsEqualIff | server/internal/metrics/metrics.go:23-34 | from an empty start, with nothing in between and nothing refused, the two request counts are equal if and only if the number of requests is a 64-bit integer, and so are the byte counts without the connections' |
| Names.NameLessIff | server/internal/storage/store.go:610 | the recursive comparison holds if and only if at the first place where the names differ the first has the smaller character, or ends there |
| Names.SortAscending | server/internal/storage/store.go:610 | the sorted names are strictly ascending in that order and are the same names |
| Migrations.RunAppliesPending | server/internal/storage/store.go:612-634 | a run records and executes the unrecorded files in order, each once, up to its first failure, and all of them when it succeeds; at most one file is executed, in part or in whole, without being recorded |
| Migrations.RunOkIff | server/internal/storage/store.go:612-634 | a run succeeds if and only if every file can be looked up and every unrecorded one read, executed and recorded |
| Migrations.RecordedIsPrefix | server/internal/storage/store.go:612-634 | from an empty table the recorded versions are always a prefix of the directory in order, wherever runs failed |
| Migrations.FilesIff | server/internal/storage/store.go:599-609 | the files taken from a directory are exactly the entries that are no directories and whose names end in ".sql" |
| Migrations.SeriesConverges | server/internal/storage/store.go:584-643 | any series of failed runs and then a successful one records exactly those files, in ascending order of their characters, and one more run changes nothing |
| Lifecycle.HoldsStep | server/internal/relayserver/server.go:79-95 | what an admitted handler holds it keeps holding, whoever moves, until it takes that removal step itself |
| Lifecycle.StepInv | server/internal/relayserver/server.go:65-228 | every step of every handler, kill, token call and datagram keeps all ownership invariants |
| Lifecycle.EverythingIsOwned | server/internal/relayserver/server.go:65-228 | in every state of every interleaving each registry entry and open listener was made by a handler that passed its token check, whose hello asked for exactly that key or port, and that has its own removal step still ahead |
| Lifecycle.Quiescence | server/internal/relayserver/server.go:79-95 | once every handler has finished its cleanup the three registry maps, the TCP listeners, and the UDP sockets and sessions are all empty |
| Lifecycle.RunStoreDecides | server/internal/relayserver/server.go:35-46 | with an active token in the store at the start, every connection of the run is checked against the store |
| Lifecycle.OwnersHadValidTokens | server/internal/relayserver/server.go:97-130 | in such runs, the owner of every HTTP, TCP and UDP entry and of every listener presented a token that was active in the store when it was checked |
| Projections.TokensRun | server/internal/storage/store.go:63-135 | in any run of the relay the token table goes through exactly the run of its own calls, so what is proved of those holds |
| Projections.UdpRun | server/internal/relayserver/udp.go:36-210 | in any run of the relay the UDP proxy goes through exactly the run of its traffic and of the handlers' opening and removing of listeners |
| Projections.RelayProvenance | server/internal/relayserver/udp.go:92-181 | in every run of the relay each UDP response came over a stream opened for a datagram of its port and address, which carried only such datagrams |
| Projections.RevokedNeverAdmitted | server/internal/relayserver/server.go:106-122 | in no run of the relay does a check against the store let in a token revoked in it before the run, however token calls overlap and fail |
| Registration.EntryMadeIff | server/internal/relayserver/server.go:137-144 | one step makes an HTTP entry for a free key if and only if it is the HTTP registration of a handler whose subdomain has that key, not empty; the entry is that handler's |
| Registration.PortMadeIff | server/internal/relayserver/server.go:166-202 | one step makes an entry for a free port if and only if it is the registration, for that protocol, of a handler whose hello names the protocol, that port, not 0, and a tunnel id; the entry is that handler's |
| Registration.ListenerMadeIff | server/internal/relayserver/server.go:191-227 | one step makes a TCP or UDP listener for a port without one if and only if it is the opening step of a handler that wants the port, it is positive, below 10^12 for TCP, and its address is available; it is that handler's, for UDP with no sessions |
| Registration.RefusedIff | server/internal/relayserver/server.go:137-203 | a registering handler goes to its cleanup if and only if its subdomain is blank or bound, its tunnel id missing, its port bound to another tunnel, or the TCP port it opens free and from 10^12 on; then nothing else changes |
| Registration.LookupIff | server/internal/relayserver/udp.go:92-99 | a datagram passes the registry lookup if and only if its port has an entry then, and is dropped otherwise |
| Registration.CanLeave | server/internal/relayserver/server.go:65-228 | wherever a handler is, steps of its own take it through its cleanup to its end |
| Registration.AdmittedIff | server/internal/relayserver/server.go:35-130 | a connection is taken if and only if a token is active or one is configured; its hello is admitted if and only if it is of the right kind and shows a token active in the store, which has to answer, or, if none was active when it connected, the configured token |
| Registration.RegistersAlone | server/internal/relayserver/server.go:137-228 | an admitted handler left to itself comes to serve if and only if its hello can be registered, with exactly its own entries and listeners, and otherwise to its cleanup |
| Registration.ServesFromStartIff | server/internal/relayserver/server.go:33-228 | from the start, for every hello: a peer left to itself comes to serve, with exactly its own HTTP, TCP or UDP entries and listeners, if and only if it shows a valid token and its hello can be registered; otherwise it goes to its cleanup |
| EntryLoss.LostIff | server/internal/relayserver/server.go:79-82 | one step loses an HTTP entry if and only if it kills its tunnel or is the cleanup of a handler, admitted or not, whose hello normalises to its key; otherwise the entry is unchanged |
| EntryLoss.PortLostIff | server/internal/relayserver/server.go:83-94 | one step loses a TCP or UDP entry if and only if it kills its tunnel or is the cleanup of a handler whose hello names its port; otherwise it is unchanged or passes to a handler of the same tunnel |
| EntryLoss.ListenerLostIff | server/internal/relayserver/server.go:83-94 | one step closes a listener if and only if it is the cleanup of a handler whose hello names its port; otherwise it stays with the handler that opened it |
| EntryLoss.KillIs | server/internal/admin/http.go:131-135 | a kill is possible at any time, unbinds exactly the tunnel's HTTP, TCP and UDP entries, and leaves its handlers, listeners and UDP sessions as they are |
| EntryLoss.EntryKept | server/internal/tunnels/registry.go:48-91 | over any run without a step that unbinds it an HTTP entry stays exactly as it is |
| EntryLoss.OwnerOutlivesEntry | server/internal/relayserver/server.go:79-104 | in any state with a serving owner, a connection that never passes the check removes the owner's entry in four steps, the owner being untouched |
| EntryLoss.ReconnectLosesPort | server/internal/tunnels/registry.go:134-137 | in any state with a serving TCP tunnel, the same tunnel connecting again takes its port over and serves, and the first connection's cleanup then removes that entry and closes the listener |
| EntryLoss.OutlivedFromStart | server/internal/relayserver/server.go:79-104 | from the start, for every such hello with a subdomain, a run in which its handler serves without its entry, taken away by a peer that was never admitted |
| EntryLoss.ReconnectedFromStart | server/internal/relayserver/server.go:83-94 | from the start, for every such hello for a TCP port alone, a run in which the tunnel's second connection serves without entry and listener |
| Routing.Resolve | server/internal/relayserver/httpproxy.go:33-71 | the request goes where the routing relation says for the registry before and after whatever the server does while the store is asked, or is not found when the store fails |
| Routing.TLSAsk | server/internal/admin/http.go:196-220 | the status is the gate's decision, or an internal error only when the store fails |
| Routing.RouteIff | server/internal/relayserver/httpproxy.go:33-71 | from the texts: a request goes to the entry of its host's first label if and only if that is registered and the Host field does not start with "admin." in any case; through a custom domain if and only if, besides, the host's row has a status spelling "enabled" in any case and its tunnel is live at the second lookup; the certificate gate approves such hosts |
| Routing.SubdomainReachedIff | server/internal/relayserver/httpproxy.go:38-52 | a Host field without a port reaches a registered subdomain if and only if its first label, in any case, normalises to the subdomain's key and the field does not start with "admin." |
| Routing.GateIff | server/internal/admin/http.go:196-220 | an upsert goes through if and only if its domain is not blank and its tunnel exists; after it, new or overwriting, the gate is open for every spelling of the domain if and only if the row names a tunnel and its status has the seven letters of "enabled", each in either case; for any other name it stays as it was |
| Routing.RoutedOwnerIsThere | server/internal/relayserver/httpproxy.go:50-82 | whatever steps of a run come between the two lookups, a routed entry belongs, in the state it was found in, to a handler that passed its token check and has not yet removed it; it is never unavailable, and callers are admitted by exactly the allowlist of its hello |
| Routing.DomainFoundIff | server/internal/storage/store.go:390-449 | a stored domain, new or overwritten, is found with its own row, pending if without a status, under exactly the spellings that are the same up to case and white space around them |
| Itoa.Itoa | server/internal/relayserver/tcp.go:109-129 | the buffer suffices if and only if the value is strictly between -10^11 and 10^12 or is the smallest integer; except for that one the text is the decimal form |
| Itoa.Fill | server/internal/relayserver/tcp.go:117-123 | the loop leaves exactly the digits at the end of the buffer, and underflows exactly when there are more digits than bytes |
| Itoa.LengthIff | server/internal/relayserver/tcp.go:117-123 | a number has at most k digits if and only if it is below 10^k |
| Itoa.ParseDigits | server/internal/relayserver/tcp.go:119-123 | every canonical digit string is the decimal form of the number it denotes |
| Itoa.DecimalParses | server/internal/relayserver/tcp.go:109-129 | the text is canonical, has a sign exactly when negative, and parses back to the value, so different values have different texts |

## Left out

- Text.ToLower: folds ASCII letters only; Go also folds other alphabets.
- UdpAnswers.CrossesIff: a stream's tunnel is known by the owner of the listener its datagram arrived through; the registry entry found for it may be a later connection's.
- UdpRuns.StepInv: any number of handlers may be in flight on a port, more than the code's one read loop per socket allows; the unlocked interval check and stamp of the sweep are one step, and so is the sweep's loop, so a `lastSeen` written without the lock during it counts as written before or after.
- ExchangeEnds.BlocksIff: writes to a half that has ended fail at a time of the library's choosing.
- Tunnels.Registry.Perform: the TCP and the UDP methods have the same code and share each member, chosen by a protocol argument.
- FrameStream.CopyAcross: the writing and the reading end run one after the other; `FramePipe.PipeDelivers` interleaves them on values.
- Rollups.TotalConservation: the stored counters are unbounded; the database turns a sum beyond 64 bits into a floating-point number.
- Itoa.Fill: the loop of `itoa` is a method of its own.
- Relay handlers, HTTP halves and datagram handlers are step functions on values, not methods, so that their steps can interleave; what they call is modelled as methods.
- Parsing an allowlist and matching an address against it (`server/internal/tunnels/allowlist.go`) are nearly all library calls.
- Time strings and the `created_at`, `last_seen` and certificate columns carry no behaviour here.
- Port reservations, logs, tunnel status marks and the list endpoints would only add easy members.
- WebSocket, yamux, sockets, JSON, base64, SHA-256 and the HTTP libraries are libraries, and `internal/httpbridge/codec.go` copies fields.
- The heartbeat timeout is looked at only after a message arrives, so it bounds nothing; a serving handler may stop at any time.
- TCP byte counters are read after only one copy direction has ended, so there is no total to prove.
- The web interface's authentication, the CLI's configuration, daemon and reconnection, and deployment are I/O.
