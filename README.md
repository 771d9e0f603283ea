# dnsjnio core model

A Dafny model of the sequential logic of dnsjnio. dnsjnio is a nonblocking DNS client built on
java.nio: one select thread serves every query, and callers either wait on a `ResponseQueue` or
get a callback. The threads, selector and sockets around the logic are not modelled. The model
has four parts, one module each:

- `ResponseQueueModel` (response_queue.dfy): the `ResponseQueue` handoff FIFO, a class with the
  `list` of responses and the `waitingThreads` counter. The blocking `getItem` is split into its
  steps: `EnterWait` and `LeaveWait` round the `wait()`, and `GetItem` removes the head once the
  queue is not empty for the caller.
- `UdpConnectionModel` (udp_connection.dfy): `UDPConnection`. `DoRead` is the receive loop that
  cuts a buffer holding several coalesced DNS messages into packets. It is proved against the
  function `Split`, whose lemmas show that nothing is lost or reordered. `Attach`, `Write` and
  `Close` drive the OPENED / CLOSING / CLOSED state machine. An effect log records the order of
  the interest-set change, the state change, the channel close and `closeComplete`.
- `DnsControllerModel` (dns_controller.dfy): the `DnsController` select loop. `Invoke` queues a
  task. `DrainInvocations` runs the queued tasks oldest first. `DispatchSelected` calls read,
  write and connect handlers per selected key as its ready bits ask, and removes every key.
- `NonblockingResolverModel` (nonblocking_resolver.dfy): the `NonblockingResolver` facade. The
  decisions of its sending path are pure functions: EDNS validation and defaults, the UDP size,
  UDP or TCP, the choice among three routes, the random local port, the deadline, the rejection
  of AXFR and of a callback without a listener, and `isDataComplete`. Next to them are the
  resolver class with its setters, the 16-bit wrap-around correlation-id counter, and the mapping
  of a `Response` to the result of `send`.

Supporting modules: `Common` (Option/Result, bytes, Java `int`/`short` wrap-around and
truncating division), `Nio` (selection-key bits, channel and key values) and `DnsTypes` (the
message values the core passes around, and the dnsjava codec as a record of functions).

The dnsjava library is external. It appears as a `Codec` value passed to the operations that
use it:
- `parse` is `new Message(byte[])`;
- `numBytes` is `Message.numBytes()`;
- `toWire` is `Message.toWire(MAXLENGTH)`;
- `sign` is `TSIG.apply`.

Two assumptions are made about it. `WellFormed` says that a parsed message has a positive
length. `SignKeepsHeader` says that TSIG signing only appends a record, so the id, opcode,
question and OPT record are unchanged; only the lemmas about the signed query need it. The single-port transaction controller's `headerIdNotInUse` is a function parameter
`idNotInUse`. The random draw `random.nextInt(64511)` and the clock `currentTimeMillis()` are
parameters `portDraw` and `now`. The I/O outcomes are parameters too: the datagram read, and
what the nonblocking datagram write did (sent it all, sent nothing, or threw).

`Connection` (the superclass of `UDPConnection`) is not part of this model. Its hooks are
modelled by assumption:
- `readFromChannel` appends the received datagram to the receive buffer;
- `clearRecvBytes(n)` drops the first `n` buffered bytes;
- `sendToUser` hands a packet to the listener (recorded in `delivered`);
- `closeComplete` leaves the connection `CLOSED`;
- the constructor starts in `CONNECTING` with nothing buffered.

`Transaction`, `SinglePortTransactionController`, `Response` and `QueryData` are not part of
this model either. Only the values the core hands them are modelled.

## Model

| member | source | states |
|---|---|---|
| `ResponseQueueModel.ResponseQueue.constructor` | src/main/java/uk/nominet/dnsjnio/ResponseQueue.java:26-27 | a new queue holds no responses and no waiters |
| `ResponseQueueModel.ResponseQueue.Insert` | src/main/java/uk/nominet/dnsjnio/ResponseQueue.java:35-38 | the response is appended after all earlier ones, which keep their order; the waiter count is unchanged |
| `ResponseQueueModel.ResponseQueue.IsEmpty` | src/main/java/uk/nominet/dnsjnio/ResponseQueue.java:66-68 | empty exactly when the items do not outnumber the waiters; with no waiters, exactly when the list is empty; a non-empty verdict implies the list has an item |
| `ResponseQueueModel.ResponseQueue.EnterWait` | src/main/java/uk/nominet/dnsjnio/ResponseQueue.java:47-50 | entered only while the queue is empty for the caller; counts one more waiter, list untouched |
| `ResponseQueueModel.ResponseQueue.LeaveWait` | src/main/java/uk/nominet/dnsjnio/ResponseQueue.java:51-53 | counts one waiter fewer, list untouched; the counter stays non-negative |
| `ResponseQueueModel.ResponseQueue.WaitOnce` | src/main/java/uk/nominet/dnsjnio/ResponseQueue.java:47-54 | a wait round, even when interrupted, leaves the waiter count as it was, so `waitingThreads >= 0` is kept; a response inserted meanwhile is queued at the tail |
| `ResponseQueueModel.ResponseQueue.GetItem` | src/main/java/uk/nominet/dnsjnio/ResponseQueue.java:46-56 | once the wait loop has exited (not empty for the caller), the list is non-empty; the oldest response is returned and exactly the tail remains |
| `ResponseQueueModel.InsertThenGet` | src/main/java/uk/nominet/dnsjnio/ResponseQueue.java:35-56 | on an idle empty queue, insert then getItem returns the inserted response and leaves the queue empty |
| `ResponseQueueModel.FifoOrder` | src/main/java/uk/nominet/dnsjnio/ResponseQueue.java:35-56 | two responses inserted in turn come out in insertion order, after whatever was queued before |
| `UdpConnectionModel.PacketLength` | src/main/java/uk/nominet/dnsjnio/UDPConnection.java:131-135 | the packet cut is non-empty and the smaller of the parsed message length and the buffered byte count |
| `UdpConnectionModel.Split` | src/main/java/uk/nominet/dnsjnio/UDPConnection.java:125-143 | the receive loop of doRead as a function on the buffer, the specification DoRead is proved against; its properties are stated by SplitStep, SplitPreservesBytes, SplitProgress and SplitStopsOnParseError |
| `UdpConnectionModel.SplitStep` | src/main/java/uk/nominet/dnsjnio/UDPConnection.java:127-138 | one loop turn: a parseable non-empty buffer delivers the packet of PacketLength bytes and continues on the remaining bytes |
| `UdpConnectionModel.SplitProgress` | src/main/java/uk/nominet/dnsjnio/UDPConnection.java:129-141 | what stays buffered is never longer than the buffer, and every packet consumes at least one byte, so there are no more packets than bytes taken |
| `UdpConnectionModel.SplitPreservesBytes` | src/main/java/uk/nominet/dnsjnio/UDPConnection.java:125-143 | the delivered packets concatenated with the bytes left in the buffer are the original buffer, in order |
| `UdpConnectionModel.SplitStopsOnParseError` | src/main/java/uk/nominet/dnsjnio/UDPConnection.java:129-141 | every delivered packet is non-empty; the loop stops only on an empty buffer or on bytes that fail to parse, which stay buffered |
| `UdpConnectionModel.FirstPacket` | src/main/java/uk/nominet/dnsjnio/UDPConnection.java:127-136 | the first packet delivered is the buffer prefix of the parsed length when shorter than the buffer, else the whole buffer; a parse failure delivers nothing and leaves the buffer intact |
| `UdpConnectionModel.UDPConnection.constructor` | src/main/java/uk/nominet/dnsjnio/UDPConnection.java:39-41 | a new connection keeps its UDP size, has no key, nothing buffered or delivered |
| `UdpConnectionModel.UDPConnection.Attach` | src/main/java/uk/nominet/dnsjnio/UDPConnection.java:86-94 | the key is stored; only with a connected channel is interest set to READ\|WRITE and the state OPENED, in that order; otherwise the state is unchanged |
| `UdpConnectionModel.UDPConnection.DoConnect` | src/main/java/uk/nominet/dnsjnio/UDPConnection.java:102-105 | changes nothing |
| `UdpConnectionModel.UDPConnection.DoRead` | src/main/java/uk/nominet/dnsjnio/UDPConnection.java:111-144 | on a NullPointerException nothing changes; otherwise the packets `Split` cuts from the buffer plus the datagram are delivered in order and the unparsed rest stays buffered; state, key and effects untouched |
| `UdpConnectionModel.UDPConnection.Write` | src/main/java/uk/nominet/dnsjnio/UDPConnection.java:151-167 | on a closed channel nothing happens; otherwise a non-empty datagram is recorded as sent only when the write sent it, a zero-byte write sends nothing, and a write error completes the close (CLOSED); commonEndWrite always follows and sees exactly the bytes still unsent |
| `UdpConnectionModel.Unsent` | src/main/java/uk/nominet/dnsjnio/UDPConnection.java:155-165 | after a write the buffer still holds either nothing or all of the data; nothing exactly when it was empty or the datagram went out |
| `UdpConnectionModel.UDPConnection.Close` | src/main/java/uk/nominet/dnsjnio/UDPConnection.java:175-204 | returns true exactly when the state is neither CLOSED nor CLOSING and an open channel exists; otherwise nothing changes; from OPENED it clears interest, sets CLOSING, closes the channel and then completes the close, in that order; a true result always ends in CLOSED |
| `UdpConnectionModel.CloseTwice` | src/main/java/uk/nominet/dnsjnio/UDPConnection.java:176-203 | a second close returns false; the two calls together have exactly the effect of the first one (state, key and effect log), so close is idempotent |
| `DnsControllerModel.KeyCallsFollowReadyOps` | src/main/java/uk/nominet/dnsjnio/DnsController.java:113-122 | for one key, doRead runs iff the READ bit is ready, doWrite iff WRITE, doConnect iff CONNECT, all on the key's connection, in read-write-connect order |
| `DnsControllerModel.DispatchAllAppend` | src/main/java/uk/nominet/dnsjnio/DnsController.java:110-124 | dispatching two batches of keys in turn makes the same calls as dispatching them together |
| `DnsControllerModel.DispatchOnlySelected` | src/main/java/uk/nominet/dnsjnio/DnsController.java:110-124 | every handler call goes to the connection of a selected key |
| `DnsControllerModel.DnsController.constructor` | src/main/java/uk/nominet/dnsjnio/DnsController.java:57-80 | starts with no queued tasks, nothing selected and a live select thread: the new thread is running and is the select thread; no later method changes it |
| `DnsControllerModel.KeyCalls` | src/main/java/uk/nominet/dnsjnio/DnsController.java:113-122 | one key yields at most three handler calls (its order and bits are stated by KeyCallsFollowReadyOps) |
| `DnsControllerModel.DispatchAll` | src/main/java/uk/nominet/dnsjnio/DnsController.java:110-124 | the calls for a sequence of keys, key by key; at most three per key |
| `DnsControllerModel.DnsController.Invoke` | src/main/java/uk/nominet/dnsjnio/DnsController.java:128-133 | the task is queued after every earlier task, which stay in place, and the selector is woken |
| `DnsControllerModel.DnsController.DrainInvocations` | src/main/java/uk/nominet/dnsjnio/DnsController.java:85-94 | every queued task runs, in submission order, and the invocation queue ends empty |
| `DnsControllerModel.DnsController.Select` | src/main/java/uk/nominet/dnsjnio/DnsController.java:96-105 | the ready keys, one per channel as in the selected-key set, become the selected keys and a pending wakeup is consumed |
| `DnsControllerModel.DnsController.DispatchKey` | src/main/java/uk/nominet/dnsjnio/DnsController.java:111-122 | the calls made for one key are exactly those its ready bits ask for, in read-write-connect order |
| `DnsControllerModel.DnsController.DispatchSelected` | src/main/java/uk/nominet/dnsjnio/DnsController.java:108-124 | every selected key is dispatched in iteration order and removed; the selected-key set ends empty |
| `DnsControllerModel.DnsController.SelectLoopPass` | src/main/java/uk/nominet/dnsjnio/DnsController.java:84-124 | one pass runs all queued tasks in order, then dispatches every ready key, leaving both queues empty |
| `DnsControllerModel.DnsController.IsSelectThread` | src/main/java/uk/nominet/dnsjnio/DnsController.java:135-137 | true only for the select thread's own id; false when there is no select thread |
| `DnsControllerModel.DnsController.IsSelectThreadRunning` | src/main/java/uk/nominet/dnsjnio/DnsController.java:139-145 | false when no select thread exists; otherwise whether it is alive |
| `NonblockingResolverModel.EdnsRecord` | src/main/java/uk/nominet/dnsjnio/NonblockingResolver.java:303-312 | only levels 0 and -1 are accepted, anything else is an IllegalArgumentException; a payload size of 0 becomes 1280, so the record never advertises 0 |
| `NonblockingResolverModel.ApplyEdns` | src/main/java/uk/nominet/dnsjnio/NonblockingResolver.java:319-324 | the configured OPT record is added only when one is configured and the query has none; nothing else in the query changes |
| `NonblockingResolverModel.ApplyEdnsIdempotent` | src/main/java/uk/nominet/dnsjnio/NonblockingResolver.java:319-324 | applying EDNS twice equals applying it once |
| `NonblockingResolverModel.MaxUdpSize` | src/main/java/uk/nominet/dnsjnio/NonblockingResolver.java:363-370 | 512 when the query has no OPT record, otherwise the OPT payload size |
| `NonblockingResolverModel.IsAxfrQuery` | src/main/java/uk/nominet/dnsjnio/NonblockingResolver.java:501-507 | a QUERY whose question is of type AXFR; PlanSend rejects exactly these once a listener is present |
| `NonblockingResolverModel.Prepare` | src/main/java/uk/nominet/dnsjnio/NonblockingResolver.java:510-514 | the clone that is sent keeps the id, opcode and question of the caller's query and carries its own OPT record, else the configured one; unsigned, its other records are unchanged |
| `NonblockingResolverModel.EdnsUdpSize` | src/main/java/uk/nominet/dnsjnio/NonblockingResolver.java:510-517 | the query actually sent (EDNS applied, then signed) has the UDP size of its own OPT record, else of the configured one, else 512; so after setEDNS(0) or setEDNS(-1) a query without OPT is sent with 1280, signed or not |
| `NonblockingResolverModel.UseTcp` | src/main/java/uk/nominet/dnsjnio/NonblockingResolver.java:516-523 | TCP exactly when requested or the serialised query is longer than the UDP size; a UDP query fits its UDP size |
| `NonblockingResolverModel.RandomPortAddress` | src/main/java/uk/nominet/dnsjnio/NonblockingResolver.java:586-590 | keeps the host; the port lies in [1024, 65534] |
| `NonblockingResolverModel.RandomPortRange` | src/main/java/uk/nominet/dnsjnio/NonblockingResolver.java:586-590 | the ports that can be drawn are exactly [1024, 65534] |
| `NonblockingResolverModel.ChooseRoute` | src/main/java/uk/nominet/dnsjnio/NonblockingResolver.java:534-583 | single-TCP-port path iff single TCP port mode, TCP and a free header id; single-UDP-port path iff single UDP port mode, UDP and a free id; otherwise a dedicated transaction to the remote address from a random local port, given the UDP size only for UDP; the shared UDP path always carries the UDP size, the shared TCP path never |
| `NonblockingResolverModel.PlanSend` | src/main/java/uk/nominet/dnsjnio/NonblockingResolver.java:482-584 | a callback request without a listener is an IllegalArgumentException, checked first; else an AXFR query is an UnsupportedOperationException; else the EDNS-applied, signed clone is sent with the caller's id and completion, deadline now + timeout, by TCP exactly when asked or too long for its UDP size, along the route ChooseRoute picks |
| `NonblockingResolverModel.UdpQueriesFit` | src/main/java/uk/nominet/dnsjnio/NonblockingResolver.java:516-523 | a query planned for UDP was not asked to use TCP and its serialised form fits the UDP size |
| `NonblockingResolverModel.IsDataComplete` | src/main/java/uk/nominet/dnsjnio/NonblockingResolver.java:649-667 | false below the 12-byte header or on a parse error; otherwise true iff the parsed length equals the buffer length |
| `NonblockingResolverModel.CompleteDatagramDeliveredWhole` | src/main/java/uk/nominet/dnsjnio/NonblockingResolver.java:649-667 | a buffer that isDataComplete accepts is delivered by the UDP receive loop as one packet, leaving nothing buffered |
| `NonblockingResolverModel.TimeoutMillis` | src/main/java/uk/nominet/dnsjnio/NonblockingResolver.java:348-351 | secs * 1000 + millis, wrapped to a Java int; exact when it fits |
| `NonblockingResolverModel.TimeoutSeconds` | src/main/java/uk/nominet/dnsjnio/NonblockingResolver.java:354-356 | for a non-negative timeout, the whole seconds it contains (truncating division) |
| `NonblockingResolverModel.TimeoutRoundTrip` | src/main/java/uk/nominet/dnsjnio/NonblockingResolver.java:344-356 | a timeout set below 2^31 ms with millis under 1000 reads back through getTimeout as the seconds it was set with |
| `NonblockingResolverModel.NextId` | src/main/java/uk/nominet/dnsjnio/NonblockingResolver.java:454-457 | the next `short` id differs from the current by 1 modulo 2^16, wrapping 32767 to -32768 |
| `NonblockingResolverModel.IdAfter` | src/main/java/uk/nominet/dnsjnio/NonblockingResolver.java:76 | the counter stays a 16-bit `short` after any number of allocations |
| `NonblockingResolverModel.IdAfterWraps` | src/main/java/uk/nominet/dnsjnio/NonblockingResolver.java:454-457 | after n allocations from x the counter is x + n wrapped to a `short` |
| `NonblockingResolverModel.IdsDistinct` | src/main/java/uk/nominet/dnsjnio/NonblockingResolver.java:68-76 | any 65536 successive allocations hand out pairwise different ids |
| `NonblockingResolverModel.IdCounter.constructor` | src/main/java/uk/nominet/dnsjnio/NonblockingResolver.java:76 | the counter starts at 0 |
| `NonblockingResolverModel.IdCounter.Next` | src/main/java/uk/nominet/dnsjnio/NonblockingResolver.java:454-457 | returns the current counter and advances it by one with 16-bit wrap-around |
| `NonblockingResolverModel.SendResult` | src/main/java/uk/nominet/dnsjnio/NonblockingResolver.java:390-404 | the reply message exactly when the response is an answer for this id; a mismatched id or a non-IO exception is an IllegalStateException; a SocketTimeoutException or other IOException is passed on |
| `NonblockingResolverModel.NonblockingResolver.constructor` | src/main/java/uk/nominet/dnsjnio/NonblockingResolver.java:101-117 | remote address is the server on port 53, local address the wildcard on port 0, timeout 10000 ms, UDP, no EDNS, no TSIG, no single-port modes; the controller gets the same addresses; every setter keeps both ports in 0..65535 |
| `NonblockingResolverModel.NonblockingResolver.SetRemoteAddress` | src/main/java/uk/nominet/dnsjnio/NonblockingResolver.java:150-153 | replaces the remote address, and the controller's, changing no other setting |
| `NonblockingResolverModel.NonblockingResolver.SetRemoteHost` | src/main/java/uk/nominet/dnsjnio/NonblockingResolver.java:161-164 | a new remote host on the current port, also given to the controller |
| `NonblockingResolverModel.NonblockingResolver.SetRemotePort` | src/main/java/uk/nominet/dnsjnio/NonblockingResolver.java:171-174 | a port outside 0..65535 throws IllegalArgumentException and changes nothing; otherwise a new remote port on the current host, also given to the controller |
| `NonblockingResolverModel.NonblockingResolver.SetLocalAddress` | src/main/java/uk/nominet/dnsjnio/NonblockingResolver.java:182-185 | replaces the local address, and the controller's |
| `NonblockingResolverModel.NonblockingResolver.SetLocalHost` | src/main/java/uk/nominet/dnsjnio/NonblockingResolver.java:193-196 | the local host with port 0, also given to the controller |
| `NonblockingResolverModel.NonblockingResolver.SetLocalTcpPort` | src/main/java/uk/nominet/dnsjnio/NonblockingResolver.java:297-300 | a port outside 0..65535 throws IllegalArgumentException and changes nothing; otherwise a new local port on the current local host, also given to the controller |
| `NonblockingResolverModel.NonblockingResolver.SetTcp` | src/main/java/uk/nominet/dnsjnio/NonblockingResolver.java:218-220 | sets the TCP preference only |
| `NonblockingResolverModel.NonblockingResolver.SetIgnoreTruncation` | src/main/java/uk/nominet/dnsjnio/NonblockingResolver.java:227-229 | sets the ignore-truncation flag only |
| `NonblockingResolverModel.NonblockingResolver.SetSingleTcpPort` | src/main/java/uk/nominet/dnsjnio/NonblockingResolver.java:241-243 | sets single TCP port mode only |
| `NonblockingResolverModel.NonblockingResolver.SetUseSingleUdpPort` | src/main/java/uk/nominet/dnsjnio/NonblockingResolver.java:286-288 | sets single UDP port mode only |
| `NonblockingResolverModel.NonblockingResolver.SetTsigKey` | src/main/java/uk/nominet/dnsjnio/NonblockingResolver.java:327-329 | sets the TSIG key only |
| `NonblockingResolverModel.NonblockingResolver.SetEdns` | src/main/java/uk/nominet/dnsjnio/NonblockingResolver.java:303-312 | an invalid level throws IllegalArgumentException and keeps the old OPT record; otherwise the record EdnsRecord builds is configured |
| `NonblockingResolverModel.NonblockingResolver.SetEdnsLevel` | src/main/java/uk/nominet/dnsjnio/NonblockingResolver.java:314-317 | setEDNS(level) configures payload 1280, no flags, no options, or throws for a level other than 0 and -1 |
| `NonblockingResolverModel.NonblockingResolver.SetTimeout` | src/main/java/uk/nominet/dnsjnio/NonblockingResolver.java:343-351 | the timeout becomes secs * 1000 + millis as a Java int; nothing else changes |
| `NonblockingResolverModel.NonblockingResolver.GetTimeout` | src/main/java/uk/nominet/dnsjnio/NonblockingResolver.java:354-356 | the whole seconds of a non-negative timeout |
| `NonblockingResolverModel.NonblockingResolver.SendAsync` | src/main/java/uk/nominet/dnsjnio/NonblockingResolver.java:453-460 | takes the current counter as the id, advances it even when the query is then rejected, and sends with the resolver's own timeout and TCP preference |
| `NonblockingResolverModel.NonblockingResolver.Send` | src/main/java/uk/nominet/dnsjnio/NonblockingResolver.java:385-405 | an AXFR query is rejected; otherwise the one response delivered to the private queue is mapped by SendResult against the id this call allocated |

## Left out

- The bind-retry loop of `UDPConnection.connect`. It depends on which ports the operating
  system has free, and it need not terminate. `closeChannel` is only channel I/O.
- `selector.select()` blocking, `wakeup()` beyond a pending flag, and the start of the daemon
  select thread. The `catch (Throwable)` that restarts `selectLoop` is left out too.
- `synchronized`, `wait` and `notify`: waiting is modelled by the explicit waiter count. Which
  waiter a `notify` wakes is not modelled.
- `uniqueID` is incremented under `synchronized (this)`, so two resolvers share the static
  counter without a common lock. This race is concurrency and is not modelled.
- Tasks run by the drain loop do not change the invocation queue in the model. A task that
  called `invoke` itself would extend the drain.
- The dnsjava codec: message parsing and serialisation, `numBytes`, OPT record construction
  and its own range checks, and TSIG signing and `verifyTSIG`. `verifyTSIG` only logs.
  `parseMessage` only re-wraps exceptions. All of these are uninterpreted.
- Name lookup in the constructor (`ResolverConfig`, `InetAddress.getByName`, `getLocalHost`).
  `setLocalTcpPort` re-resolves the local host name; the model keeps the host as it is.
- The forwarding overloads `sendAsync(message, id, listener)`, `sendAsync(query, id, queue)` and
  `sendAsync(query, id, timeout, useTCP, queue)`. They are `PlanSend` with the resolver's own
  timeout and TCP preference, or with the caller's.
- Logging and the `Options.check("verbose")` checks.
- `UdpConnectionModel.UDPConnection.DoRead`: the receive buffer is never null in the model.
  With a null buffer and a positive count, the source loop would not progress.
- `ResponseQueueModel.ResponseQueue.WaitOnce`: models one waiter's round, not which waiter
  `notify` wakes. With two waiters, a woken waiter that finds a single item still sees the queue
  as empty (the item counts as reserved for the other waiter), and that waiter was not
  notified. This possible lost wakeup is not analysed.
- `UdpConnectionModel.UDPConnection.Close`: `sc.close()` is taken to succeed. Its IOException is
  only logged.
- `NonblockingResolverModel.SendResult`: the source compares ids by reference
  (`response.getId() != id`). The model compares values; the transaction hands back the same
  object.
- `NonblockingResolverModel.NonblockingResolver.Send`: the engine that answers the query is not
  modelled. The one response it puts on the private queue is the `delivered` argument.
- `SinglePortUDPConnection` (channel setup only), the `ConnectionListener` interface, and the
  end-to-end network tests.
