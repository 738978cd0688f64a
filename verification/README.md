# Waterfall: a verified model of its stream protocols

Waterfall carries byte streams between a host and an Android device: over a framed qemu pipe, over
message streams, and through forwarding daemons that keep session tables. This project models the
places where one kind of stream is turned into another while goroutines interleave, and proves what
every run of them keeps.

Concurrent code is modelled as a step machine: a state, an `Event` for every critical section,
channel operation and network action, `Enabled` and `Apply`, and `Run` over any sequence of events.
A theorem about `Run(events)` is therefore about every interleaving. What the callers and the surroundings
did is read off the sequence of events alone (the bytes written, the error a stream ended with, the
connections accepted), so that a theorem compares what comes out with what went in. Code that one goroutine runs at
a time under a lock is a class with methods (`QemuConn.Conn`, `StreamReaderMethods.Reader`,
`ControlSocket.Socket`, `PortForwarder.Forwarder`) or a method with the source's loop (`Tar.Walk`,
`Tar.Untar`, `Exec.Collect`, `ControlCodec.Receive`).

| file | content |
|---|---|
| `Bytes.dfy`, `Text.dfy` | byte strings and list facts; splitting strings, decimal numbers |
| `Framing.dfy` | the length-prefixed wire format and what a receiver makes of raw bytes |
| `QemuLink.dfy`, `QemuLinkProof.dfy`, `QemuLinkSchedule.dfy`, `QemuLinkWitness.dfy`, `QemuLinkDelivery.dfy` | two qemu connections joined by a transport that fragments and may be cut |
| `QemuConn.dfy` | the methods of one qemu connection |
| `StreamReader.dfy`, `MessageCodecs.dfy` | messages to bytes: producer goroutine, bounded channel, draining `Read` |
| `Forwarding.dfy`, `ForwardingProof.dfy`, `ForwardingSchedule.dfy`, `ForwardingProgress.dfy` | connection, forwarder, stream, forwarder, connection, end to end |
| `ReverseForward.dfy`, `ReverseForwardProof.dfy`, `ReverseForwardSchedule.dfy`, `ReverseForwardPorts.dfy`, `ReverseForwardExact.dfy` | the three-call reverse-forwarding protocol |
| `PortForwarder.dfy` | the daemon's session table |
| `FileSystem.dfy`, `Tar.dfy`, `TarProof.dfy`, `TarTheorems.dfy` | a file system as a map, Tar, Untar |
| `Exec.dfy` | merging stdout and stderr into one stream and taking them apart |
| `ControlSocket.dfy` | the control channel's records and its cascade of closes |
| `Addr.dfy` | the recursive address parser |

## Assumptions about the surroundings

- A transport is a byte FIFO in each direction that hands over fragments of any size and may end at
  any moment, losing a suffix of what is under way. A message stream is a FIFO of messages.
- The OS lets at most one open listener have an OS address (`ReverseForward.Free`). A requested address
  that names its port always stands for the same OS address; for one with port 0 the OS chooses the port
  (`ReverseForward.Endpoint`).
- `net.Listen` yields a listener that is not one of those already in the table.
- File names are those a directory listing yields; a file system has a root directory and every node
  lies in a directory.

## Where the code does less than one might expect

- An empty `Write`, or one of 2^32 bytes or more, is misread by the peer: `Framing.SendableExactly`
  gives the exact condition. A `Read` with an empty buffer in the middle of a frame loses the
  alignment: `QemuLinkProof.ReadStaysAlignedExactly`, with a false end of file in
  `QemuLinkWitness.EmptyReadFalseEof`.
- Two calls for an address with port 0 other than "localhost:0" get two listeners and one table key, so
  that the second insertion replaces a session whose listener stays open:
  `ReverseForwardPorts.PortZeroReplaces`; `ReverseForwardPorts.ReplacesExactly` says that this happens
  for no other addresses.
- A stale answer can be joined to the wrong connection when a session is stopped and started again on
  the same address: `ReverseForwardProof.StaleAnswerMispairs`; `ReverseForwardExact.PairingExactly`
  says exactly when it cannot.
- After the terminating error has been returned, a further `Reader.Read` blocks forever:
  `StreamReader.HangingRun` is such a run, and `StreamReader.ReadReturnsExactly` says that a call can
  return if and only if the error has not been returned before.
- An exit code of -1 (process killed by a signal) reaches the client as 4294967295:
  `Exec.ExecDelivers`.
- Untar merges into an existing directory; the result equals the source exactly when nothing else was
  there: `TarTheorems.UntarUndoesTar`.
- Closing a qemu2 connection tells the host twice, once for the connection handed out and once for
  the one it wraps, although the comment on Close speaks of one close event
  (`ControlSocket.Socket.HostCloses`).
- Reopening a live descriptor leaves a connection open and unregistered
  (`ControlSocket.Socket.ReopenOrphans`), which then survives the loss of the control connection.
  `ControlSocket.Socket.Open` and `ControlSocket.Socket.ControlVanishes` give the exact conditions.
- After an OPEN for descriptor 0 the handler's deferred close hits the replaced control connection: every
  registered connection is closed although the present control connection works
  (`ControlSocket.Socket.HandlerExits`).
- The device's "input/output error" is reported as end of file, possibly together with bytes
  (`QemuConn.Conn.Read`).

## Model

| member | source | states |
|---|---|---|
| `Framing.HeaderValue` | waterfall/golang/net/qemu/qemu.go:140-143 | reading back a written 32-bit little-endian length gives the length modulo 2^32, for every length |
| `Framing.DecodeEncode` | waterfall/golang/net/qemu/qemu.go:117-181 | for every sequence of nonempty writes under 2^32 bytes, whatever follows, the receiver's reading of the wire is the bytes written and then the reading of what follows |
| `Framing.SendableExactly` | waterfall/golang/net/qemu/qemu.go:146-181 | a payload is read back as itself in front of everything that can follow if and only if it is nonempty and shorter than 2^32 bytes |
| `Framing.EncodeEnds` | waterfall/golang/net/qemu/qemu.go:164-236 | whole frames followed by the close frame are recognised as a stream that ends |
| `Framing.DecodePrefix` | waterfall/golang/net/qemu/qemu.go:117-161 | a front of the raw bytes carries a front of the byte stream |
| `QemuLinkProof.AnyRunKeeps` | waterfall/golang/net/qemu/qemu.go:164-255 | in every schedule, whatever the callers do, the wire and the close flags, channels and locks of both endpoints stay consistent |
| `QemuLinkProof.RunKeeps` | waterfall/golang/net/qemu/qemu.go:99-376 | in every schedule with disciplined callers both receivers stay in step with the frames of their senders |
| `QemuLinkSchedule.ScheduleDecides` | waterfall/golang/net/qemu/qemu.go:164-255 | in every schedule the frames on a side's wire are the payloads of its Write calls before it closed or failed, in order, and then the close frame; its closed, broken and handshake flags and the stage of its Close are those its own steps set |
| `QemuLinkSchedule.LinkRefinesStreams` | waterfall/golang/net/qemu/qemu.go:99-236 | in every schedule, for every fragmentation, buffer size and cut, bytes read are a prefix of the payloads the peer's Writes were given before it closed its write side, and a zero-frame end of file is reported only after every one of those bytes and only when the peer has closed its write side |
| `QemuLinkSchedule.LinkConserves` | waterfall/golang/net/qemu/qemu.go:99-236 | in every schedule, until a Read has failed on a cut transport, bytes delivered and the reading of everything still ahead are exactly the payloads the peer's Writes were given; on a transport nobody has cut or closed all of that is in hand, under way or with the sender |
| `QemuLinkSchedule.EofExactly` | waterfall/golang/net/qemu/qemu.go:140-148 | in every schedule a header that has come in is the close frame exactly when everything the peer's Writes were given has been delivered |
| `QemuLinkSchedule.ReadFits` | waterfall/golang/net/qemu/qemu.go:117-161 | from its call to the next one, a Read puts at most its buffer size into the buffer, and when it returns without end of file and error the buffer is full or the frame is used up |
| `QemuLinkSchedule.LeftStays` | waterfall/golang/net/qemu/qemu.go:122-161 | the count of bytes due in the current frame changes only when a Read returns bytes |
| `QemuLinkDelivery.Delivers` | waterfall/golang/net/qemu/qemu.go:117-236 | for either side and every sequence of sendable payloads some schedule from the handshake on delivers exactly their bytes to the peer and then end of file |
| `QemuLinkDelivery.AnyFragment` | waterfall/golang/net/qemu/qemu.go:117-181 | in every reachable state fragments of any size can go out and come in next |
| `QemuLinkProof.HandshakeAligned` | waterfall/golang/net/qemu/qemu.go:279-376 | no handshake between the host builder and the guest builder is refused, and each side leaves it with the pipe at the first frame of its peer |
| `QemuLinkSchedule.HandshakeInTurn` | waterfall/golang/net/qemu/qemu.go:279-376 | in every schedule the host has sent its greeting before it reads any of the guest's, and the guest has read the host's before it sends its own |
| `QemuLinkSchedule.StrangerRefused` | waterfall/golang/net/qemu/qemu.go:292-304 | whatever the other end sent, the handshake goes on exactly for "rdy", and otherwise no call is served on that transport |
| `QemuLinkProof.WireIsWholeFrames` | waterfall/golang/net/qemu/qemu.go:164-236 | for any number of writers the wire is the greeting, whole frames and at most one unfinished frame, owned by the holder of writeLock unless the transport failed it |
| `QemuLinkProof.ZeroFrameLast` | waterfall/golang/net/qemu/qemu.go:214-236 | with no empty write the zero frame is the last frame and follows CloseWrite |
| `QemuLinkProof.ClosesOnce` | waterfall/golang/net/qemu/qemu.go:184-255 | in every interleaving neither close channel is closed twice, and this side closes the transport only with both halves marked closed, the write channel closed and no own frame unfinished |
| `QemuLinkDelivery.CloseEnds` | waterfall/golang/net/qemu/qemu.go:184-226 | from every reachable state in which Close has been called, some schedule lets it return, whatever Writes and Reads are under way, with both halves and the transport closed |
| `QemuLinkDelivery.ReaperWaits` | waterfall/golang/net/qemu/qemu.go:250-255 | closeConn closes the transport exactly when both halves have been closed and no closing write is under way |
| `QemuLinkProof.ReadStaysAlignedExactly` | waterfall/golang/net/qemu/qemu.go:117-143 | a Read leaves an aligned receiver aligned if and only if its buffer is nonempty or no byte of the frame is due |
| `QemuLinkWitness.EmptyReadFalseEof` | waterfall/golang/net/qemu/qemu.go:122-148 | a schedule from the handshake on in which an empty Read makes payload bytes pass for a close frame: end of file with four bytes undelivered and the peer's write side open |
| `QemuConn.Conn.ReadFull` | waterfall/golang/net/qemu/qemu.go:129-132 | for any fragmentation the buffer's front gets the transport's front, the rest of the buffer is untouched, and the outcomes of io.ReadFull are told apart for every way the transport can end |
| `QemuConn.Conn.ReadUnmapped` | waterfall/golang/net/qemu/qemu.go:117-161 | bytes returned and stream left are the stream before, as many as fit or as the frame has; an error comes with all that was left and leaves the count of the frame; on a stream with a close frame the only error is end of file, on any other the one the transport ends with; closed reads change nothing |
| `QemuConn.Conn.Read` | waterfall/golang/net/qemu/qemu.go:99-115 | the same with the device's "input/output error" always turned into end of file, and only then can end of file come with bytes; other failures stay errors |
| `QemuConn.Conn.ReadAll` | waterfall/golang/net/qemu/qemu.go:99-161 | reading until an error yields the whole stream for every buffer size, fragmentation and way the transport ends; the error is end of file when the stream has a close frame |
| `QemuConn.Conn.Write` | waterfall/golang/net/qemu/qemu.go:164-181 | one whole frame is appended, or on a failing transport exactly the front it takes together with an error that stays, or errClosed and nothing |
| `QemuConn.Conn.Put` | waterfall/golang/net/qemu/qemu.go:173-180 | the buffered writer passes on a frame or the front the transport takes, and stays failed once it has failed |
| `QemuConn.Conn.CloseRead` | waterfall/golang/net/qemu/qemu.go:201-211 | marks reads closed; a repeated call reports errClosed and changes nothing |
| `QemuConn.Conn.CloseWrite` | waterfall/golang/net/qemu/qemu.go:214-236 | sends the close frame once, reports the error of a transport that does not take it and is closed even then; a repeated call reports errClosed and sends nothing |
| `QemuConn.Conn.Close` | waterfall/golang/net/qemu/qemu.go:184-198 | closes both halves and the transport, sending the close frame only if still owed and no write has failed; a repeated call reports errClosed and changes no field |
| `QemuConn.Transfer` | waterfall/golang/net/qemu/qemu.go:117-236 | whatever chunks are written, the buffer size, the fragmentation and the moment the transport fails, the reader gets a front of the bytes; if the transport takes everything, exactly the bytes and then end of file |
| `StreamReader.StepKeeps` | waterfall/golang/stream/stream.go:74-145 | every step of the producer or of Read keeps the reader's invariant |
| `StreamReader.ScheduleDecides` | waterfall/golang/stream/stream.go:74-91 | in every run the bytes received and the error posted are those the stream yielded |
| `StreamReader.ReaderRefinesStream` | waterfall/golang/stream/stream.go:74-145 | in every run delivered bytes, buffer, leftovers, queue and the payload in hand are, in order, the bytes the stream yielded; in the drain loop nothing is left over and there is room; the channel holds at most 256 |
| `StreamReader.ReadDrains` | waterfall/golang/stream/stream.go:132-144 | in every run a Read that returns from the channel without error has filled its buffer or left the channel empty |
| `StreamReader.TakesAhead` | waterfall/golang/stream/stream.go:61-71 | a reader that never reads does not hold the producer up for any 256 payloads |
| `StreamReader.ErrorDelivery` | waterfall/golang/stream/stream.go:61-91 | the terminating error is there before it is asked for, is returned at most once, is the one the stream ended with, and comes without bytes and only when the caller has every byte the stream yielded |
| `StreamReader.ErrorExactly` | waterfall/golang/stream/stream.go:103-145 | in every run a Read called after the channel has closed returns the error exactly when no byte is left at the call; otherwise it returns a nonempty front of what is left and leaves the error for a later Read; with an empty buffer it returns the error exactly when there are no leftovers and no payload is queued |
| `StreamReader.ReadAfterErrorHangs` | waterfall/golang/stream/stream.go:112-120 | in every run a Read at the error channel can go on exactly while the error has not been returned; afterwards no step of either goroutine is possible |
| `StreamReader.ReadReturnsExactly` | waterfall/golang/stream/stream.go:103-145 | in every run and for every buffer size a call of Read can return if and only if the terminating error has not been returned before |
| `StreamReader.HangingRun` | waterfall/golang/stream/stream.go:112-120 | a run whose second Read waits at the error channel after the first one returned the error |
| `StreamReaderMethods.Reader.Produce` | waterfall/golang/stream/stream.go:74-91 | the channel takes a front of the payloads of the turn, all of them unless it is full or closed, and is closed with the error of the turn posted |
| `StreamReaderMethods.Reader.Receive` | waterfall/golang/stream/stream.go:112-124 | one payload is copied behind the bytes already in the buffer and the overflow is kept |
| `StreamReaderMethods.Reader.Drain` | waterfall/golang/stream/stream.go:132-144 | the drain loop adds further payloads behind those copied, leaves room in the buffer only with the channel empty, and returns the error only with nothing copied and nothing left |
| `StreamReaderMethods.Reader.Read` | waterfall/golang/stream/stream.go:103-145 | for every behaviour of the producer in between, Read continues the stream where the previous one stopped, returns the error only with nothing left and always when it finds the channel closed and has copied nothing, leaves room in the buffer only with the channel drained, and blocks exactly when nothing comes or the error was returned before |
| `MessageCodecs.ForwardCarriesAll` | waterfall/golang/forward/stream.go:38-64 | the forwarding codec carries every sequence of writes |
| `MessageCodecs.MuxCarriesExactly` | waterfall/golang/mux/message.go:18-45 | the mux codec carries a sequence of writes if and only if no data follows an empty write |
| `ForwardingProof.RunKeeps` | waterfall/golang/forward/forward.go:43-85 | every run of the two forwarders, four copies and two streams keeps the invariant of the whole |
| `ForwardingSchedule.ScheduleDecides` | waterfall/golang/forward/forward.go:43-85 | in every run a copy is in trouble exactly when one of its operations has failed, and what Forward has decided and what the applications wrote is what the events say |
| `ForwardingSchedule.EndToEndPrefix` | waterfall/golang/forward/forward.go:43-85 | in every reachable state, failures included, each direction's output is a prefix of what its application wrote |
| `ForwardingSchedule.EndToEndClean` | waterfall/golang/forward/forward.go:43-85 | in every run in which no operation of a copy failed, output plus bytes in flight is exactly what the application wrote in each direction, whatever the other is doing, and end of file arrives only after all bytes of a half-closed input |
| `ForwardingProgress.Completes` | waterfall/golang/forward/forward.go:43-85 | from every failure-free reachable state in which an application has half-closed, some failure-free continuation gives the far application exactly what was written and the end of file |
| `ForwardingProgress.CanSend` | waterfall/golang/forward/forward.go:43-85 | an application that has not half-closed can write more in every reachable state |
| `ForwardingProgress.AnyMayFail` | waterfall/golang/forward/forward.go:71-85 | every Read and Write of a copy may fail, and a stream may break until it has ended |
| `ForwardingSchedule.ForwardOutcome` | waterfall/golang/forward/forward.go:43-85 | Forward can return nil only if no operation of its copies has failed and an error only if one has; it can return as soon as both have reported success or one an error; it decides once; "done" and "error pending" exclude each other; no error send blocks; it closes connection and stream only after the decision, and until then a half is closed exactly by the copy that is over |
| `ForwardingProgress.ReturnedIsClosed` | waterfall/golang/forward/forward.go:43-46 | when Forward has returned, connection and stream are closed in both halves, the application is told, and a CLOSE is under way to the other station or there |
| `ForwardingProgress.ForwardReturns` | waterfall/golang/forward/forward.go:63-69 | once Forward has decided it can return what it has decided |
| `Text.SplitJoin` | waterfall/golang/server/server.go:571-575 | splitting at the first separator undoes joining if and only if the first part has no separator |
| `Text.PrintParse` | waterfall/golang/server/server.go:581-585 | printing and parsing a number are inverse on exactly the 64-bit range |
| `ReverseForward.OpenAddrRoundTrip` | waterfall/golang/server/server.go:571-585 | the address of an OPEN leads back to its address and number exactly when the address has no "/" and the number is a uint64, and is refused otherwise |
| `ReverseForwardProof.RegistryAlways` | waterfall/golang/server/server.go:662-761 | in every interleaving entries point to calls of their own address that have bound, no two open listeners share an OS address, and an open listener has the address its call is registered by unless the OS chose the port |
| `ReverseForwardProof.InsertNeverReplacesOpen` | waterfall/golang/server/server.go:662-696 | although check and insert are separate, no insertion on an address that names its port, or on "localhost:0", replaces a session whose listener is open |
| `ReverseForwardSchedule.ExistingIsKept` | waterfall/golang/server/server.go:662-674 | in every run a call that finds its address in the table, or gets no listener, is turned away for good: returned, no listener, no OS address, no entry |
| `ReverseForwardSchedule.NewIsRegistered` | waterfall/golang/server/server.go:662-696 | a call that does not find its address and is given a listener can become the session of its address |
| `ReverseForwardSchedule.OnlyTcpListens` | waterfall/golang/server/server.go:611-638 | in every run only tcp calls have a listener, because only tcp listeners report a port |
| `ReverseForwardSchedule.EntryStays` | waterfall/golang/server/server.go:709-734 | an entry goes by a stop for its key or a failed send of a call with that key and in no other way, so it outlives an accept loop that fails |
| `ReverseForwardSchedule.StopEnds` | waterfall/golang/server/server.go:737-761 | a stop removes the entry and closes that listener and changes nothing else |
| `ReverseForwardSchedule.CallEnds` | waterfall/golang/server/server.go:648-734 | from every reachable state each call can be brought to return, and then its listener is closed |
| `ReverseForwardSchedule.StreamEnds` | waterfall/golang/server/server.go:561-609 | from every reachable state each answering stream can be brought to its end, refused or finished |
| `ReverseForwardSchedule.CallStarts` | waterfall/golang/server/server.go:648-660 | a call of any kind can start in every reachable state, and its start leaves the table as it is |
| `ReverseForwardPorts.ReplacesExactly` | waterfall/golang/server/server.go:621-696 | some interleaving lets an insertion on an address replace a session whose listener is open if and only if the OS picks the port and the address is not "localhost:0" |
| `ReverseForwardPorts.PortZeroReplaces` | waterfall/golang/server/server.go:662-696 | for every such address a run of two calls after which the first listener is open, serving and in no entry |
| `ReverseForwardPorts.SuchAnAddress` | waterfall/golang/server/server.go:677-688 | "127.0.0.1:0" leaves the port to the OS and is not the address the code replaces |
| `ReverseForwardProof.RunKeeps` | waterfall/golang/server/server.go:561-761 | every orderly run is possible and keeps registry, session books, answers and lookups in order |
| `ReverseForwardSchedule.ScheduleDecides` | waterfall/golang/server/server.go:707-733 | in every run a session's connections are those its accept loop was given, in order, and each answer of the client is a stream for the next unanswered OPEN of its call |
| `ReverseForwardSchedule.AnswersPaired` | waterfall/golang/server/server.go:571-608 | in every orderly run the stream answering the k-th OPEN of a call is joined to the k-th connection its accept loop was given, no other stream answers that OPEN, and none is refused while the session is registered |
| `ReverseForwardSchedule.ConnMapExact` | waterfall/golang/server/server.go:605-607 | in every orderly run the connection map holds exactly the recorded connections whose forwarding has not finished, under their numbers |
| `ReverseForwardSchedule.NumbersFit` | waterfall/golang/server/server.go:707-719 | connection numbers stay 64-bit numbers in every run |
| `ReverseForwardProof.LookupsSucceed` | waterfall/golang/server/server.go:578-599 | while the session is registered the session lookup and the connection lookup of an answer succeed |
| `ReverseForwardProof.ServingIsRegistered` | waterfall/golang/server/server.go:694-734 | the address of a call that can accept, or holds a connection to record or announce, leads to its own session or nowhere |
| `ReverseForwardProof.StaleAnswerMispairs` | waterfall/golang/server/server.go:571-608 | a run with a stop and a restart on one address in which an old answer is joined to a new connection |
| `ReverseForwardExact.PairingExactly` | waterfall/golang/server/server.go:561-761 | at every insertion of every orderly run, pairing survives all orderly continuations if and only if no other session on the address can accept or has a connection to record or announce, an OPEN under way or an answer to be looked up |
| `PortForwarder.Forwarder.ForwardPort` | waterfall/golang/forward/ports/ports.go:109-169 | which of the five outcomes occurs and the whole table and listener set after each; a refused request changes nothing; a rebind closes the old listener |
| `PortForwarder.Forwarder.AcceptFails` | waterfall/golang/forward/ports/ports.go:148-166 | the listener closes, the entry stays, the table stays consistent |
| `PortForwarder.Forwarder.Stop` | waterfall/golang/forward/ports/ports.go:317-331 | entry and listener go together; a missing entry changes nothing; a listener already closed is reported |
| `PortForwarder.Forwarder.StopAll` | waterfall/golang/forward/ports/ports.go:334-347 | no entry and no open listener remains |
| `PortForwarder.Forwarder.List` | waterfall/golang/forward/ports/ports.go:350-356 | exactly the table's src/dst pairs, each once |
| `PortForwarder.OneOwner` | waterfall/golang/forward/ports/ports.go:109-169 | every open listener belongs to exactly one entry, keyed by that entry's own source |
| `PortForwarder.DropEntry` | waterfall/golang/forward/ports/ports.go:317-331 | removing an entry together with its listener keeps every open listener owned by exactly one entry |
| `FileSystem.JoinTrimmed` | waterfall/golang/stream/tar.go:131-131 | cutting the archive's root name off an entry name and joining it to the new root gives the path below that root |
| `FileSystem.ResolveClean` | waterfall/golang/stream/tar.go:131-131 | joining any name to a clean path gives a clean path |
| `FileSystem.ResolveDots` | waterfall/golang/stream/tar.go:131-131 | "." is the place where it is, ".." the directory above, and a name followed by ".." nothing |
| `FileSystem.MkdirAtPlace` | waterfall/golang/stream/tar.go:114-117 | with the parent there MkdirAll adds one directory, and fails exactly on a regular file |
| `FileSystem.CreateAtPlace` | waterfall/golang/stream/tar.go:102-113 | with the parent there a regular entry replaces whatever was at or below its path |
| `Tar.Walk` | waterfall/golang/stream/tar.go:162-248 | the walk appends exactly the tree's entries, parents before children, to the archive |
| `Tar.Untar` | waterfall/golang/stream/tar.go:33-133 | the loop over headers computes the unpacking function for every archive, error cases included |
| `TarProof.UnpackTree` | waterfall/golang/stream/tar.go:97-132 | unpacking a subtree's entries and then any others is overlaying the subtree and then unpacking the others; when a directory meets a regular file it stops there with everything before it in place |
| `TarProof.OverlayAt` | waterfall/golang/stream/tar.go:97-132 | path by path, the overlay holds the tree's node, else nothing at or below the tree's regular files, else the old node |
| `TarTheorems.UntarOverlays` | waterfall/golang/stream/tar.go:33-133 | for every file system, destination and tree, said without the code's own questions: refused without effect exactly when a regular file is above the destination, or it is one and the tree is not; successful if and only if no directory meets a regular file; and what every path holds after success and after a stop half-way |
| `TarTheorems.UntarUndoesTar` | waterfall/golang/stream/tar.go:33-133 | at a missing destination with no regular file above it, and as a file onto a file, Untar succeeds and the destination is the tree; into a directory the tree lands under its name and equals the source if and only if nothing else was there; all other paths are as before but for the directories on the way |
| `TarTheorems.TarThenUntar` | waterfall/golang/stream/tar.go:33-248 | the same through both loops: when it succeeds, and when the result is the source tree |
| `TarTheorems.UntarAny` | waterfall/golang/stream/tar.go:49-133 | for any archive that begins with a directory or a regular file: where its entries go in each destination case |
| `TarTheorems.SpecialsSkipped` | waterfall/golang/stream/tar.go:97-132 | entries of other kinds are passed over wherever they are |
| `TarTheorems.SpecialFirst` | waterfall/golang/stream/tar.go:38-51 | an empty archive is an error, and one that begins with an entry of another kind is unpacked into the destination |
| `TarTheorems.UntarKeepsFileSystem` | waterfall/golang/stream/tar.go:33-133 | whatever the archive and wherever it fails, every node is in a directory afterwards |
| `TarProof.ParentsFirst` | waterfall/golang/stream/tar.go:173-247 | in the archive of every tree each entry but the root's comes after a directory entry for its parent |
| `Exec.Collect` | waterfall/golang/client/client.go:275-305 | the receive loop splits any message sequence into stdout, stderr and the last message's code |
| `Exec.RunKeeps` | waterfall/golang/server/server.go:277-330 | in every run sent, being sent, queued and held chunks of each output are that output in order |
| `Exec.LoopExitDrained` | waterfall/golang/server/server.go:294-320 | when the merging loop ends both channels are closed and drained and what the process wrote to each output has been sent completely and in order |
| `Exec.ExecDelivers` | waterfall/golang/server/server.go:277-330 | for every interleaving the client's buffers equal what the process wrote to its two outputs, and its code is the exit code if and only if that is in 0 to 2^32-1 |
| `Exec.CanEnd` | waterfall/golang/server/server.go:277-330 | from every reachable state, once the process writes no more, copies and merging loop can run to their end and the final message can be sent |
| `Exec.CanWrite` | waterfall/golang/server/server.go:188-198 | in every reachable state in which an output is open the goroutines can make room for its next bytes |
| `ControlCodec.VarintRoundTrip` | waterfall/proto/control_socket.proto:57-70 | reading a base 128 varint back gives the number and what follows it |
| `ControlCodec.FixedSize` | waterfall/golang/net/qemu/control.go:278-286 | every SocketControl message is seven bytes long |
| `ControlCodec.MarshalBytes` | waterfall/proto/control_socket.proto:57-70 | the seven bytes of every message: key 0x08, the number of the sort, key 0x15, the descriptor lowest byte first |
| `ControlCodec.UnmarshalMarshal` | waterfall/golang/net/qemu/control.go:286-295 | unmarshalling undoes marshalling for all three sorts and all 32-bit descriptors |
| `ControlCodec.ShortRecordRefused` | waterfall/proto/control_socket.proto:68-69 | both fields are required: anything shorter than seven bytes is refused |
| `ControlCodec.ReceivedSent` | waterfall/golang/net/qemu/control.go:277-295 | fixed-size reads of any messages followed by anything recover exactly those messages and stand at what follows |
| `ControlCodec.Receive` | waterfall/golang/net/qemu/control.go:277-295 | the loop computes that reading for every byte stream, malformed and truncated ones included |
| `ControlSocket.Socket.Open` | waterfall/golang/net/qemu/control.go:227-267 | the new connection and its wrapper are added and registered, or for descriptor 0 the control connection is replaced; every registered connection is open under its own nonzero descriptor; every open connection stays registered if and only if the descriptor was not in use |
| `ControlSocket.Socket.Close` | waterfall/golang/net/qemu/control.go:78-92 | for every connection: a repeated close changes nothing; otherwise exactly the connection and the one it wraps close, the other registered ones stay open and no open one becomes unregistered; closing a control connection, the present or a replaced one, closes exactly it and the registered ones with all they wrap, and which CLOSE messages go out; the recursion ends because each level closes one more connection |
| `ControlSocket.Socket.Callback` | waterfall/golang/net/qemu/control.go:192-216 | the descriptor leaves the table; for a control connection all registered connections close, the table is empty, and the present control connection, if open, carries two CLOSE messages for each and one for 0 |
| `ControlSocket.Socket.CloseRegistered` | waterfall/golang/net/qemu/control.go:194-202 | exactly the registered connections and those they wrap are closed, with two CLOSE messages each in some order of the descriptors, or none when the control connection is closed |
| `ControlSocket.Socket.HostCloses` | waterfall/golang/net/qemu/control.go:304-309 | the named connection is closed and deregistered, the others stay open and registered, and the host is told twice |
| `ControlSocket.Socket.ControlVanishes` | waterfall/golang/net/qemu/control.go:185-216 | closing the present control connection closes every registered connection, leaves nothing registered and sends no message; no connection with a nonzero descriptor is left open if and only if every open one was registered |
| `ControlSocket.Socket.HandlerExits` | waterfall/golang/net/qemu/control.go:275-290 | the deferred close of the connection the handler started with closes it and all registered ones; if it has been replaced, the present control connection stays open and carries the CLOSE messages |
| `ControlSocket.Socket.ReopenOrphans` | waterfall/golang/net/qemu/control.go:263-264 | opening a live descriptor again and closing the old connection leaves the new one open and unregistered |
| `Addr.ParseKind` | waterfall/golang/utils/addr.go:81-134 | what follows a valid kind decides the result, for every rest |
| `Addr.PlainKinds` | waterfall/golang/utils/addr.go:107-133 | what unix, tcp, usb, qemu-guest, qemu2 and vsock-guest addresses mean, for every rest |
| `Addr.TwoParts` | waterfall/golang/utils/addr.go:99-132 | vsock-host and qemu addresses need a second part, and a vsock-host address means what it says if and only if its first part has no ":" |
| `Addr.DescriptorMeans` | waterfall/golang/utils/addr.go:111-117 | an fd address means the number that follows |
| `Addr.AtoiPrinted` | waterfall/golang/utils/addr.go:111-117 | printed numbers, with or without sign, are read back exactly within 64 bits |
| `Addr.OthersRefused` | waterfall/golang/utils/addr.go:81-89 | an address without ":" or of another kind is refused |
| `Addr.MuxNests` | waterfall/golang/utils/addr.go:91-97 | any depth of mux: nesting parses to that depth or fails where the inside fails |
| `Addr.QemuPrinted` | waterfall/golang/bootstrap/bootstrap.go:196-196 | the printed qemu address parses to directory and socket if and only if the directory has no ":" |
| `Addr.ReparseExactly` | waterfall/golang/server/server_bin.go:91-91 | the printed kind:addr string parses to the same address exactly for unix, tcp, usb, qemu-guest, qemu2, and vsock-guest with an empty socket name |

## Left out

- gRPC, protobuf runtime, TLS, contexts, deadlines and timeouts: foreign code; streams and transports are FIFOs.
- The retry loops around the handshakes, opening `/dev/qemu_pipe` and vsock, and the sleeps between attempts: one transport is modelled per link.
- QemuLinkSchedule.LinkRefinesStreams: speaks of the zero-frame end of file only; a transport that ends between frames is reported as end of file too (`QemuConn.Conn.Read`).
- The sessions of `server.go`, the goroutines of `forward.go` and the Exec server loop are step machines on values and not classes, because their steps interleave; update in place and aliasing are not captured there.
- ReverseForwardProof.RunKeeps: pairing is stated for sessions that accept fewer than 2^64 connections and addresses without "/"; the restart condition is exact (`PairingExactly`), the address condition is exact in `OpenAddrRoundTrip`.
- `buildListener`: its three attempts are one event that succeeds, with a nonzero tcp port, or fails.
- The closing of a session's connections by `StopReverseForward`, the ANNOUNCE message, and a client that ends its loop early: they end forwardings but pair nothing.
- The client's map of reverse sessions under rebind: its cleanup runs outside the mutex.
- ControlSocket.Socket.Open: does not model a failed `pipe.Accept`.
- ControlCodec.Receive: unknown protobuf fields are treated as malformed; in a seven-byte record they leave no room for both required fields.
- Repeated CLOSE messages of `ReadWriteCloser` are modelled in `Forwarding` (they follow one another and carry nothing); that only one is sent is not claimed because it is not so.
- Symbolic links, permissions, disk errors, the byte layout of archives and a source of "/" in Tar and Untar; `TarBytes`, `UntarBytes`.
- Failing sends and copy errors in Exec, stdin, and starting the process.
- Liveness under a fair scheduler: what is proved is that an end can always be reached (`Delivers`, `CloseEnds`, `ReadReturnsExactly`, `Completes`, `CallEnds`, `StreamEnds`, `CanEnd`), not that every schedule reaches it.
- `Install`, `AuthInterceptor`, snapshots, aoa, adb, bootstrap, forkfd, the mains and the Java code: launching, device plumbing or wrappers.
