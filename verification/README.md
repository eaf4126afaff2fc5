# porter: a verified model

porter is a messaging library that makes UDP (unicast, multicast, broadcast, N:1) and TCP connections deliver
messages in order, repairing losses with negative acknowledgements (NACK). This project models its pipeline in
Dafny and proves what it promises:

message → fragments → bounded queue → packed containers → 32-bit sequence numbers → unreliable network →
receive window → unpacking → reassembly → callbacks

`dafny verify dfyconfig.toml` checks everything.

## How it is organised

| file | contents |
|---|---|
| `SeqNum`, `Windows`, `WindowRuns` | wrapping numbers; the circular window in place (arrays, ring index, payload pool); its refinement of a log (sending) and of a map over unbounded indices (receiving) |
| `Wire` | header and element layout, byte order, parse and unpack |
| `Sessions`, `Traces` | session order; observable histories, what a well-behaved history is, and path callbacks |
| `Fragments`, `Receiver`, `ReceiverRuns` | reassembly; the receiving slot as a step function; its invariants over every run |
| `RecvSlot` | the receiving slot as the program has it, a class with in-place window and fragment buffer, refining `Receiver` method by method |
| `SendQueue`, `SendThread`, `SendRuns`, `Outgoing`, `Sender` | ring queue with entries in flight; calls, fragmentation and packing; every interleaving of caller and send thread; datagrams; send window, NACK answers and their suppression |
| `StreamInvariant`, `EndToEnd`, `Pipeline`, `StaleFragments` | sender and receiver together |
| `Recovery`, `Handshake`, `TcpClose`, `PeerTable` | repair after loss; two endpoints exchanging PINGs; closing TCP; N:1 peers |

A `Slot` carries a trace of everything that reaches it and everything it does. The properties of runs are folds
over that trace which do not mention the slot, so they can be read without knowing how the slot works. `Run` starts
from a slot just opened and takes any inputs: packets of any kind with any contents, timer polls, health checks
(the clock's verdict is an input), link changes. `RecvSlot` is tied to `Slot` by `View()`; each of its methods
states its whole new state as the corresponding step function of the old one, and `HandleAll` carries the
properties of runs over to the object.

A stream may start in any slot, after any history: with a PING that connects (`EndToEnd.PingMakesReady`) or with its
first packet as first contact (`EndToEnd.FirstContactStarts`), which is how TCP always starts. What is delivered and
what is lost is counted from there.

The main results are `EndToEnd.DeliveredIsPrefixOfSent` and `EndToEnd.NothingLostAtFin` with their versions from
call to callback in `Pipeline`, the five `...InEveryRun` theorems of `ReceiverRuns`, `Recovery.RecoveryRound`,
`Handshake.RoundTrip`, `TcpClose.CloseAgreement`, the window refinements in `WindowRuns`,
`Senders.Sender.Retransmit`, `SendQueues.FifoRun`, `SendRuns.SendsInEveryRun` and `PeerGetsItsElements`, and the
peer table. `RecvSlots.RecvSlot.HandleAll` is the object they hold of.

## Where the code differs from what one would expect

The model follows the code. These points are lemmas:

- `ReceiverRuns.RawPingGap`: docs/sequence-data.md says that a RAW receiver is CONNECTED again by the PING that made
  it give up a gap. The reset clears the path state that PING had set, so it is not.
- `StaleFragments.WholeAfterReject` and `StaleFragments.WholeAfterSwitch`: REJECT and session adoption leave a half
  received message in the fragment buffer, and the next whole message is glued to it, after adoption even without a
  DISCONNECTED. `GluedByReject` and `GluedBySwitch` are runs from opening that do so. End-to-end delivery is therefore
  stated for one connected stretch of one session, starting with an empty buffer.
- `Recovery.TimerNeverResolvesFin`: docs/fin-ordering.md says that a reorder timeout skips the missing number and so
  resolves a pending FIN. The code only sends another NACK; `FinOutlivesTimer` is a run from opening with a FIN left
  pending.
- `NackFilters.ZeroReadingForgotten`: a zero time marks an empty entry, so a NACK answered at clock reading zero is
  not remembered.
- `Recovery.PingNacksMissing`: a PING whose number is behind the window makes the scan walk the whole window.
- `ReceiverRuns.WaitLongEnough`: the jittered wait is computed in 32 bits and becomes too short when it wraps, which
  is possible exactly for settings above 2^32 - 10^9 ms.
- `SeqNum.StaleAcceptedIff`: a packet older than 2^32 minus the window size numbers is taken for a new one;
  the end-to-end theorem excludes exactly such packets.
- `PeerTables.PathsCounted`: the path count is wrong only when the endpoint 0.0.0.0:0 is learned.
- `TcpClose.AckedAtOnce`: a FIN without a target is acknowledged whatever the window says. A closing TCP sender
  always sets the target.

Comments in the sources speak of a 32-byte header; it is 40 bytes long, and the model uses 40.

## Model

| member | source | states |
|---|---|---|
| `EndToEnd.DeliveredIsPrefixOfSent` | prod/libsrc/porter/thread/thread_recv_window.c:248-281 | From any slot in which a stream starts, with a PING or with its first packet, for every message list, packing, loss, duplication, delay and reordering, mixed with any other packets and timeouts, on every service kind: while no DISCONNECTED and no session switch happens, what is delivered is a byte-exact prefix of the messages sent. |
| `EndToEnd.NothingLostAtFin` | prod/libsrc/porter/thread/thread_recv_fin.c:59-91 | When everything was sent and the FIN with the number after the last packet takes effect on a connection calm until then, exactly the messages sent have been delivered since the stream started, provided the slot is less than 2^32 packets behind. |
| `EndToEnd.StreamsInEveryRun` | prod/libsrc/porter/thread/thread_recv_window.c:248-281 | Both for every run of a service just opened, whatever happened before the stream, together with the order of callbacks and the absence of silent gaps. |
| `EndToEnd.PingMakesReady` | prod/libsrc/porter/thread/thread_recv_session.c:40-59 | First contact by a PING that connects, or the PING that creates an N:1 peer, leaves a connected slot whose empty window starts at the number of the PING, so streams start in reachable slots. |
| `EndToEnd.FirstContactStarts` | prod/libsrc/porter/thread/potr_recv_thread.c:411-475 | First contact by DATA, on TCP, one-way, RAW and a connected bidirectional service: adopted, stored, popped and delivered in one step; no loss but the switch from an older session. |
| `Pipeline.SentArrives` | prod/libsrc/porter/thread/potr_send_thread.c:411-558 | For calls to any peers, every interleaving of the caller with the send thread, every choice of containers, optional encryption and an unreliable network: what a surviving peer delivers while connected in one session is a prefix of the messages sent to it. |
| `Pipeline.ClosedComplete` | prod/libsrc/porter/api/potr_service_close.c:43-71 | When all calls were queued, sent and completed and the FIN after the last container takes effect on a connection calm until then, the peer has delivered exactly the messages sent to it. |
| `Pipeline.DatagramReceived` | prod/libsrc/porter/thread/potr_send_thread.c:77-180 | The datagram built for batch k parses and authenticates to the plain container of that batch under number first + k. |
| `Pipeline.FlatOfBatches` | prod/libsrc/porter/thread/potr_send_thread.c:476-544 | The elements of the first n datagrams are the queue entries taken by the first n batches, in order. |
| `Pipeline.StreamOfCalls` | prod/libsrc/porter/thread/potr_send_thread.c:336-408 | The containers sent to a surviving peer carry a front part of the elements of its messages, and all of them once everything is completed. |
| `SendRuns.SendsInEveryRun` | prod/libsrc/porter/thread/potr_send_thread.c:411-558 | In every interleaving of queueing and send-thread steps the log is the entries of the calls so far, the containers are the front of the log in order, each legal, and their entries are exactly those completed. |
| `SendRuns.PeerGetsItsElements` | prod/libsrc/porter/thread/potr_send_thread.c:336-408 | In every interleaving, with any other peers in the queue, a surviving peer is sent the elements of its messages in order, and all of them once everything is completed. |
| `SendRuns.ShareOfCalls` | prod/libsrc/porter/api/potr_service_send.c:50-77 | The share of a peer in what the calls queue is the elements of the messages sent to it, in order. |
| `ReceiverRuns.NoSilentGapInEveryRun` | prod/libsrc/porter/thread/thread_recv_window.c:356-493 | In every run numbers leave the window one after the other from each restart, and two packets delivered with no DISCONNECTED and no session switch between them are neighbours modulo 2^32; base and next stay equal. |
| `ReceiverRuns.CallbacksInEveryRun` | prod/libsrc/porter/potr_path_event.c:166-314 | In every run session and path callbacks alternate, DATA comes only while connected, and folding the callbacks yields the slot's own path and session state. |
| `ReceiverRuns.FinsInEveryRun` | prod/libsrc/porter/thread/thread_recv_fin.c:59-142 | In every run a FIN takes effect only in the session that sent it; with a target only when the window stands at the target; a FIN_ACK only with a FIN taking effect. |
| `ReceiverRuns.WaitsInEveryRun` | prod/libsrc/porter/thread/thread_recv_window.c:184-222 | In every run a NACK goes out only when the wait for its number just ended, and that wait began for that number, with none armed since, at least reorder_timeout_ms before. |
| `ReceiverRuns.FollowsGreatestInEveryRun` | prod/libsrc/porter/thread/thread_recv_session.c:36-117 | In every run the followed session is one of those judged since the last forget and none of them comes after it in (start time, id) order; nothing is followed exactly when none was judged. |
| `ReceiverRuns.OlderSessionIgnored` | prod/libsrc/porter/thread/thread_recv_session.c:86-104 | A packet of a strictly older session changes nothing in the slot (TCP PINGs excepted). |
| `ReceiverRuns.RawPingGap` | prod/libsrc/porter/thread/thread_recv_dispatch.c:89-105 | A RAW slot is connected after a PING if and only if there was no gap or the reorder wait was not over; the documented reconnection by the same PING does not happen. |
| `ReceiverRuns.WaitLongEnough` | prod/libsrc/porter/thread/thread_recv_window.c:192-211 | The wait armed is at every clock reading at least the configured one exactly when there is no jitter or the setting is at most 2^32 - 10^9 ms. |
| `ReceiverRuns.StepKeeps` | prod/libsrc/porter/thread/potr_recv_thread.c:42-116 | Every packet, timer, health check, link change and application disconnect keeps the invariant behind the theorems on runs. |
| `Recovery.RecoveryRound` | prod/libsrc/porter/thread/thread_recv_window.c:555-580 | A PING at distance up to the window size NACKs exactly the missing numbers; a sender whose window reaches back that far has one answer to each, the bytes first sent, encrypted or not; and when these answers arrive in any order and multiplicity the window is at the number of the PING. |
| `Recovery.PingNacksMissing` | prod/libsrc/porter/thread/thread_recv_window.c:555-580 | Without reorder delay, a PING NACKs exactly the missing numbers up to its number or the end of the window; a PING from behind reports all missing numbers of the window. |
| `Recovery.AcceptAbsorbs` | prod/libsrc/porter/thread/thread_recv_window.c:356-450 | On every UDP service but RAW, with or without reorder wait, a DATA packet acts on the window as storing it and popping everything in sequence; a pending FIN takes effect exactly when its target is then reached. |
| `Recovery.DrainOrFin` | prod/libsrc/porter/thread/thread_recv_window.c:248-299 | Draining pops everything in sequence, and a pending FIN takes effect exactly when that reaches its target. |
| `Recovery.TimerNeverResolvesFin` | prod/libsrc/porter/thread/thread_recv_window.c:585-611 | The reorder timer lets no FIN take effect: off RAW it changes neither window nor pending FIN, on RAW it drops the pending FIN exactly when the wait is over. |
| `Recovery.FinOutlivesTimer` | prod/libsrc/porter/thread/thread_recv_window.c:585-611 | From opening: with number 0 missing, DATA 1 stored and a FIN with target 2 pending, the end of the wait sends one NACK and the FIN stays pending. |
| `Recovery.DataAsksForGap` | prod/libsrc/porter/thread/thread_recv_window.c:440-449 | After DATA without reorder delay, a hole in front of a stored packet is NACKed at once. |
| `Recovery.TimerAsksInTime` | prod/libsrc/porter/thread/thread_recv_window.c:585-611 | The timer NACKs the number waited for exactly once its deadline has passed. |
| `Recovery.RejectGivesUp` | prod/libsrc/porter/thread/thread_recv_window.c:454-493 | REJECT of the number due disconnects and moves the window behind it and over everything that had arrived; of any other number it only disconnects; a pending FIN takes effect exactly when its target is then reached. |
| `Recovery.ResendsArrive` | prod/libsrc/porter/thread/thread_recv_window.c:322-352 | After any sequence of retransmitted packets, in any order and with repetitions, everything that had arrived or was among them has arrived. |
| `Handshake.RoundTrip` | prod/libsrc/porter/thread/thread_recv_dispatch.c:89-119 | When a path of a unicast_bidir endpoint is connected, there was a full round trip on it that is still in force: a PING sent on it, heard by the other side, NORMAL there until reported in a PING that arrived here, and NORMAL here ever since; under any loss, duplication and delay. |
| `Handshake.Cause` | prod/libsrc/porter/thread/thread_recv_dispatch.c:31-42 | A path state or remote state that is NORMAL was made so by a PING or report after which it has been NORMAL all the time. |
| `Handshake.RunExplained` | prod/libsrc/porter/potr_path_event.c:126-135 | In every run a NORMAL path state is explained by a PING heard on that path, and a NORMAL remote state by a received report. |
| `Handshake.LocalFades` | prod/libsrc/porter/thread/thread_recv_dispatch.c:123-181 | Nothing but a PING makes a path state or a remote path state NORMAL. |
| `Handshake.PingStep` | prod/libsrc/porter/thread/thread_recv_dispatch.c:31-42 | A PING makes NORMAL only its own path and the remote states it reports NORMAL. |
| `TcpClose.CloseAgreement` | prod/libsrc/porter/thread/thread_recv_fin.c:106-118 | In every run of a TCP slot that sees one session, with targets in its FINs, a FIN_ACK for a number was sent only after the FIN of that session with that target had arrived and every number before it had left the window. |
| `TcpClose.AckedAtOnce` | prod/libsrc/porter/thread/potr_recv_thread.c:362-397 | A FIN of the followed session is acknowledged on arrival exactly when it has no target or the target is the number due. |
| `TcpClose.CloseTcp` | prod/libsrc/porter/api/potr_service_close.c:261-308 | With active paths and a timeout, close succeeds exactly when the FIN was sent and a FIN_ACK of the number after the last container comes in time; without active paths it fails exactly when DATA was sent. |
| `TcpClose.CloseWait.Wait` | prod/libsrc/porter/api/potr_service_close.c:178-218 | The wait succeeds exactly when the timeout is zero or the awaited FIN_ACK is there before a wait fails; an acknowledgement arriving together with the timeout is too late. |
| `TcpClose.CloseWait.Begin` | prod/libsrc/porter/api/potr_service_close.c:168-176 | Starts waiting for one target with no acknowledgement counted. |
| `TcpClose.CloseWait.Reset` | prod/libsrc/porter/api/potr_service_close.c:158-166 | Stops waiting. |
| `TcpClose.CloseWait.OnAck` | prod/libsrc/porter/thread/thread_recv_fin.c:146-156 | Only a FIN_ACK of the awaited target, while waiting, counts as received. |
| `TcpClose.TcpSender.Flush` | prod/libsrc/porter/thread/potr_send_thread.c:133-180 | A TCP container gets the next number and the number advances although nothing is kept in the window. |
| `StaleFragments.WholeAfterReject` | prod/libsrc/porter/thread/thread_recv_window.c:479-492 | REJECT, a PING that reconnects and the next DATA, as steps of the slot: its message is delivered as sent if and only if no fragment was waiting before; otherwise glued to it. |
| `StaleFragments.WholeAfterSwitch` | prod/libsrc/porter/thread/thread_recv_session.c:111-116 | DATA of a newer session, as a step of the slot: its message is delivered as sent if and only if no fragment of the older session was waiting; otherwise glued to it, with the connection up all the time. |
| `StaleFragments.GluedBySwitch` | prod/libsrc/porter/thread/thread_recv_session.c:111-116 | From opening: half a message of one session and a whole one of a newer session are delivered as one message, without DISCONNECTED. |
| `StaleFragments.GluedByReject` | prod/libsrc/porter/thread/thread_recv_window.c:454-493 | From opening: half a message, REJECT, reconnection and a whole message are delivered as one message. |
| `StaleFragments.RejectKeepsFragments` | prod/libsrc/porter/thread/thread_recv_window.c:454-493 | REJECT delivers nothing and leaves the fragment buffer as it was. |
| `StaleFragments.WholeAfterRawLoss` | prod/libsrc/porter/thread/thread_recv_window.c:236-245 | After a RAW connection loss the next whole message is delivered as sent. |
| `SeqNum.InWindowAgrees` | prod/libsrc/porter/protocol/seqnum.c:20-23 | The wrapping membership test agrees with the test on unbounded indices for every index at most 2^32 - size behind and less than 2^32 ahead. |
| `SeqNum.StaleAcceptedIff` | prod/libsrc/porter/protocol/seqnum.c:20-23 | An older number is mistaken for a current one exactly when it is older than 2^32 minus the window size (within one turn). |
| `WindowRuns.SendGetExact` | prod/libsrc/porter/protocol/window.c:180-203 | After any pushes from any first number, also across 2^32, a lookup succeeds exactly for the last min(n, size) numbers. |
| `WindowRuns.SendGetRecent` | prod/libsrc/porter/protocol/window.c:132-203 | The lookup of one of the last min(n, size) numbers returns the very packet pushed under it. |
| `WindowRuns.RunRefines` | prod/libsrc/porter/protocol/window.c:209-341 | Every run of push, pop, skip and reset answers as a finite map over unbounded indices. |
| `WindowRuns.HandedInOrder` | prod/libsrc/porter/protocol/window.c:240-261 | Between resets, whatever is pushed, popped and skipped, the packets handed out are the first accepted copies of strictly increasing indices, none twice; without skips the indices have no holes. |
| `Windows.RecvOpsKeepOk` | prod/libsrc/porter/protocol/window.c:209-278 | Push, pop and skip keep every stored packet at the offset of its number from the base. |
| `Windows.Window.constructor` | prod/libsrc/porter/protocol/window.c:28-88 | A new window is empty at the given number. |
| `Windows.Window.Index` | prod/libsrc/porter/protocol/window.c:116-120 | The ring index of a number is the base index plus its distance, modulo the size. |
| `Windows.Window.AdvanceBase` | prod/libsrc/porter/protocol/window.c:122-126 | Advancing frees the oldest slot and shifts the view by one. |
| `Windows.Window.Reset` | prod/libsrc/porter/protocol/window.c:330-341 | Reset empties the window at a number without touching the payload pool. |
| `Windows.Window.SendPushPacket` | prod/libsrc/porter/protocol/window.c:132-165 | The in-place push refines the push on views, evicting the oldest entry when full; each slot copies into its own part of the pool. |
| `Windows.Window.SendGetPacket` | prod/libsrc/porter/protocol/window.c:180-203 | The in-place lookup returns what the view holds for the number. |
| `Windows.Window.RecvPushPacket` | prod/libsrc/porter/protocol/window.c:209-236 | The in-place receive push refines the push on views: refused outside the window, first copy kept. |
| `Windows.Window.RecvPopPacket` | prod/libsrc/porter/protocol/window.c:240-261 | The in-place pop returns and removes the packet at the base. |
| `Windows.Window.RecvSkipNumber` | prod/libsrc/porter/protocol/window.c:265-278 | Skip gives up the base exactly when it carries the given number. |
| `Windows.Window.RecvNeedsNack` | prod/libsrc/porter/protocol/window.c:282-310 | Reports the base number exactly when the base is missing and a later packet is stored. |
| `Windows.Window.RecvHasPacket` | prod/libsrc/porter/protocol/window.c:314-326 | Answers whether a number in the window is stored. |
| `Windows.PoolSlots` | prod/libsrc/porter/protocol/window.c:150-162 | Different slots own disjoint parts of the payload pool. |
| `Wire.Hton64Correct` | prod/libsrc/porter/protocol/packet.c:34-51 | On a little-endian host the conversion lays out the eight bytes most significant first and is its own inverse. |
| `Wire.ParseInvertsBuild` | prod/libsrc/porter/protocol/packet.c:189-310 | Parsing the wire bytes of a packet, whatever follows them, gives the packet back. |
| `Wire.ParseHeaderInverts` | prod/libsrc/porter/protocol/packet.c:262-310 | Every header field survives the trip, signed fields included. |
| `Wire.UnpackOfEncode` | prod/libsrc/porter/protocol/packet.c:211-258 | Unpacking a container returns exactly the elements packed, in order. |
| `Wire.SpansDisjoint` | prod/libsrc/porter/protocol/packet.c:211-258 | On arbitrary bytes the unpack loop ends, and the elements it finds lie in bounds, one after the other and disjoint. |
| `Outgoing.ReceiveInvertsSend` | prod/libsrc/porter/thread/potr_send_thread.c:91-180 | Receiving what was sent gives back the packed container under its number, encrypted or not. |
| `Sessions.FollowsMaximum` | prod/libsrc/porter/thread/thread_recv_session.c:36-117 | Following a list of sessions ends at their maximum in (start time, id) order. |
| `Sessions.OrderIrrelevant` | prod/libsrc/porter/thread/thread_recv_session.c:36-117 | Lists with the same sessions, in any order and multiplicity, end at the same session. |
| `Sessions.VerdictIsOrder` | prod/libsrc/porter/thread/thread_connect_prepare.c:88-108 | Adoption and the TCP accept comparison give the same NEW, SAME or OLD verdict, and it is the (start time, id) order. |
| `PathEvents.StreamAgrees` | prod/libsrc/porter/potr_path_event.c:166-314 | For every sequence of path vectors the callbacks alternate, and folding them gives the last vector and its disjunction. |
| `PathEvents.SyncAgrees` | prod/libsrc/porter/potr_path_event.c:166-219 | One synchronisation keeps the callback history well-formed and in agreement with the stored states. |
| `PathEvents.PrepareEvents` | prod/libsrc/porter/potr_path_event.c:166-219 | Collects exactly the changed paths in ascending order and whether any is up. |
| `PathEvents.EmitEvents` | prod/libsrc/porter/potr_path_event.c:280-314 | Calls back for the collected paths in order, each with the new snapshot. |
| `PathEvents.SyncEvents` | prod/libsrc/porter/potr_path_event.c:223-276 | Changed paths are reported in ascending order, then the session if its state changed. |
| `Fragments.ReassemblyInverts` | prod/libsrc/porter/thread/thread_recv_slot.c:121-192 | Feeding the fragments of any list of valid messages, compressed or not, delivers exactly these messages and leaves the buffer empty. |
| `Fragments.PrefixOfMessages` | prod/libsrc/porter/thread/thread_recv_slot.c:121-192 | Feeding any prefix of the fragments delivers a prefix of the messages. |
| `Fragments.FragmentsFit` | prod/libsrc/porter/api/potr_service_send.c:38-77 | No fragment is empty or longer than the chunk size. |
| `SendThreads.SendToPeer` | prod/libsrc/porter/api/potr_service_send.c:30-85 | The loop queues exactly the fragments of the message in order; when cancelled, a proper prefix of them; a blocking call returns only when everything queued is completed. |
| `SendThreads.ServiceSend` | prod/libsrc/porter/api/potr_service_send.c:89-183 | A length out of range and a failing compression are refused without queueing anything; otherwise the message, compressed if that shrinks it, is queued in fragments. |
| `SendThreads.WaitDrained` | prod/libsrc/porter/infra/potr_send_queue.c:267-277 | Returns with every entry ever pushed completed. |
| `SendQueues.FifoRun` | prod/libsrc/porter/infra/potr_send_queue.c:96-178 | Under every interleaving, the log is the accepted pushes in order, pops are its next entries in order, and queued plus in-flight never exceeds the depth. |
| `SendQueues.SendQueue.constructor` | prod/libsrc/porter/infra/potr_send_queue.c:26-62 | A new queue is empty. |
| `SendQueues.SendQueue.PushEntry` | prod/libsrc/porter/infra/potr_send_queue.c:96-150 | Refines the push on logs; no slot handed out and not completed is overwritten. |
| `SendQueues.SendQueue.PopEntry` | prod/libsrc/porter/infra/potr_send_queue.c:154-178 | Refines the pop on logs; the entry stays in its slot while in flight. |
| `SendQueues.SendQueue.Peek` | prod/libsrc/porter/infra/potr_send_queue.c:182-219 | Shows the next entry without taking it. |
| `SendQueues.SendQueue.CompleteOne` | prod/libsrc/porter/infra/potr_send_queue.c:244-263 | Completes the oldest entry in flight, if any. |
| `SendQueues.SendQueue.IsDrained` | prod/libsrc/porter/infra/potr_send_queue.c:267-277 | Nothing queued or in flight exactly when every entry ever pushed was completed. |
| `SendThreads.AppendElem` | prod/libsrc/porter/thread/potr_send_thread.c:60-71 | Appends the encoded element to the container bytes. |
| `SendThreads.PackNext` | prod/libsrc/porter/thread/potr_send_thread.c:476-498 | Takes the next entry along exactly under the packing rules and appends it. |
| `SendThreads.PackContainer` | prod/libsrc/porter/thread/potr_send_thread.c:438-500 | With other threads queueing before every look, the container holds consecutive queue entries of one peer, encoded, and fits max_payload together with the tag. |
| `SendThreads.SendOne` | prod/libsrc/porter/thread/potr_send_thread.c:336-408 | With other threads queueing meanwhile, every entry popped is completed exactly once, and the batch is a run of the log; entries of a vanished peer are dropped. |
| `SendThreads.SendTurns` | prod/libsrc/porter/thread/potr_send_thread.c:411-558 | Over any number of turns, with entries queued at any time, the batches are the log from where the thread started, in order, and everything taken is completed. |
| `SendThreads.RoutingKeepsOrder` | prod/libsrc/porter/thread/potr_send_thread.c:336-408 | For every interleaving of peers, the elements sent to a surviving peer are its queued elements in queue order. |
| `Senders.Sender.Flush` | prod/libsrc/porter/thread/potr_send_thread.c:91-180 | The container gets the number first + n, is kept for retransmission, and its wire bytes go out. |
| `Senders.Sender.Retransmit` | prod/libsrc/porter/thread/thread_recv_window.c:322-352 | A number in the window is answered with exactly the bytes first sent for it; an evicted or never assigned one with REJECT. |
| `Senders.Sender.OnNack` | prod/libsrc/porter/thread/thread_recv_window.c:497-515 | RAW ignores NACKs; a repetition is suppressed; any other is answered with the original bytes or REJECT. |
| `Senders.Sender.FinTarget` | prod/libsrc/porter/api/potr_service_close.c:57-71 | The FIN carries a target exactly when DATA was sent, and it is the number after the last one. |
| `NackFilters.AnswersSpaced` | prod/libsrc/porter/thread/thread_recv_window.c:301-320 | In every history with a non-decreasing clock, two answers for one number within 200 ms, the first at a non-zero reading, have at least eight others between them. |
| `NackFilters.ZeroReadingForgotten` | prod/libsrc/porter/thread/thread_recv_window.c:301-320 | When one of the last eight answers was for the number, less than 200 ms ago, a NACK for it is suppressed if and only if that answer was not given at clock reading zero. |
| `NackFilters.NackFilter.IsDuplicate` | prod/libsrc/porter/thread/thread_recv_window.c:301-320 | The ring of eight answers as the search among the last eight answered NACKs. |
| `RecvSlots.RecvSlot.constructor` | prod/libsrc/porter/thread/thread_recv_slot.c:26-56 | A slot starts as the service leaves it after opening. |
| `RecvSlots.RecvSlot.JudgeSession` | prod/libsrc/porter/thread/thread_recv_session.c:77-109 | New exactly when nothing is followed or the session comes after the followed one in the (start time, id) order, old exactly when it comes before, same exactly when equal. |
| `RecvSlots.RecvSlot.AdoptSession` | prod/libsrc/porter/thread/thread_recv_session.c:36-117 | Refines adoption: ignore older, keep same, restart at the packet's number for newer or first. |
| `RecvSlots.RecvSlot.SyncStates` | prod/libsrc/porter/potr_path_event.c:166-219 | Stores the new path vector and makes the callbacks it causes. |
| `RecvSlots.RecvSlot.SyncPaths` | prod/libsrc/porter/thread/thread_recv_session.c:193-226 | The loop computes each path's state for the service kind and synchronises it. |
| `RecvSlots.RecvSlot.RawDisconnectAll` | prod/libsrc/porter/thread/thread_recv_window.c:236-245 | Refines the RAW disconnect: paths down, pending FIN and fragments dropped. |
| `RecvSlots.RecvSlot.IsGapReady` | prod/libsrc/porter/thread/thread_recv_window.c:184-233 | Refines the reorder wait: arm, hold or release, immediately for N:1. |
| `RecvSlots.RecvSlot.DeliverElem` | prod/libsrc/porter/thread/thread_recv_slot.c:121-192 | The in-place buffer refines reassembly of one element. |
| `RecvSlots.RecvSlot.CallBack` | prod/libsrc/porter/thread/thread_recv_slot.c:93-117 | Delivers the bytes, decompressed when flagged, or nothing when decompression fails. |
| `RecvSlots.RecvSlot.DeliverContainer` | prod/libsrc/porter/thread/thread_recv_window.c:271-277 | The unpack loop delivers the elements of the container in order. |
| `RecvSlots.RecvSlot.PopAndDeliver` | prod/libsrc/porter/thread/thread_recv_window.c:253-279 | The drain loop pops and delivers everything in sequence. |
| `RecvSlots.RecvSlot.DrainWindow` | prod/libsrc/porter/thread/thread_recv_window.c:248-299 | Refines the drain: pop everything, then let a reached pending FIN take effect. |
| `RecvSlots.RecvSlot.FireFin` | prod/libsrc/porter/thread/thread_recv_fin.c:93-142 | Refines a FIN taking effect, with FIN_ACK first for TCP and release of the slot for N:1. |
| `RecvSlots.RecvSlot.ReceiveFin` | prod/libsrc/porter/thread/thread_recv_dispatch.c:54-87 | Refines FIN: adopt, hold until the target is reached, or let it take effect. |
| `RecvSlots.RecvSlot.ReceiveData` | prod/libsrc/porter/thread/thread_recv_window.c:356-450 | Refines the acceptance of DATA on every service kind. |
| `RecvSlots.RecvSlot.RestartRaw` | prod/libsrc/porter/thread/thread_recv_window.c:363-379 | RAW restarts the window with the very packet that did not fit. |
| `RecvSlots.RecvSlot.MergeReports` | prod/libsrc/porter/thread/thread_recv_dispatch.c:31-42 | The loop merges the reported states, keeping those reported undefined. |
| `RecvSlots.RecvSlot.ScanGaps` | prod/libsrc/porter/thread/thread_recv_window.c:555-582 | The scan loop over wrapping numbers refines the scan over offsets. |
| `RecvSlots.RecvSlot.ScanPingGap` | prod/libsrc/porter/thread/thread_recv_window.c:519-583 | Refines the PING gap scan of the three service kinds. |
| `RecvSlots.RecvSlot.ReceivePing` | prod/libsrc/porter/thread/thread_recv_dispatch.c:89-119 | Refines PING handling in the order of the service kind. |
| `RecvSlots.RecvSlot.ReceiveReject` | prod/libsrc/porter/thread/thread_recv_window.c:454-493 | Refines REJECT: disconnect, skip the number if it is due, drain. |
| `RecvSlots.RecvSlot.DispatchPacket` | prod/libsrc/porter/thread/thread_recv_dispatch.c:123-181 | Refines the dispatch on packet kinds. |
| `RecvSlots.RecvSlot.TcpPacket` | prod/libsrc/porter/thread/potr_recv_thread.c:352-479 | Refines the TCP packet handling. |
| `RecvSlots.RecvSlot.CheckHealth` | prod/libsrc/porter/thread/thread_recv_health.c:148-231 | Refines the health check, given which timeouts the clock reports. |
| `RecvSlots.RecvSlot.CheckPaths` | prod/libsrc/porter/thread/thread_recv_health.c:162-198 | The loop marks the expired paths and synchronises if any changed. |
| `RecvSlots.RecvSlot.CheckReorderTimeout` | prod/libsrc/porter/thread/thread_recv_window.c:585-611 | Refines the reorder timer: NACK, or RAW disconnect and forget. |
| `RecvSlots.RecvSlot.ForPeer` | prod/libsrc/porter/thread/potr_recv_thread.c:62-76 | The slot of a peer starts as its first PING makes it. |
| `RecvSlots.RecvSlot.HandlePacket` | prod/libsrc/porter/thread/potr_recv_thread.c:42-116 | An active slot takes a packet, an N:1 slot only under its own session, and does what the step does. |
| `RecvSlots.RecvSlot.Handle` | prod/libsrc/porter/thread/potr_recv_thread.c:138-284 | Every input does to the object what the step does to its view. |
| `RecvSlots.RecvSlot.HandleAll` | prod/libsrc/porter/thread/potr_recv_thread.c:138-284 | Over any inputs the object goes through the run of its view, so its history has no silent gap, well-ordered callbacks, FINs and NACKs only as allowed, and its path and session state are what the callbacks say. |
| `PeerTables.Pigeonhole` | prod/libsrc/porter/potr_peer_table.c:55-90 | A run of n ids that are all blocked needs n distinct blocked ids. |
| `PeerTables.PathsCounted` | prod/libsrc/porter/potr_peer_table.c:411-426 | Learning and clearing a path keep the path count equal to the destinations set, except exactly when learning stores 0.0.0.0:0. |
| `PeerTables.BlockedSpec` | prod/libsrc/porter/potr_peer_table.c:63-83 | The blocked ids are the two reserved ones and those of active peers. |
| `PeerTables.PeerTable.SearchId` | prod/libsrc/porter/potr_peer_table.c:55-90 | The search ends with the first id from the start, cyclically, that is neither reserved nor in use. |
| `PeerTables.PeerTable.AllocateId` | prod/libsrc/porter/potr_peer_table.c:55-90 | Hands out that id and continues after it next time. |
| `PeerTables.PeerTable.FindBySession` | prod/libsrc/porter/potr_peer_table.c:270-288 | Finds an active peer of the session if and only if there is one. |
| `PeerTables.PeerTable.FindById` | prod/libsrc/porter/potr_peer_table.c:292-304 | Finds an active peer with the id if and only if there is one. |
| `PeerTables.PeerTable.FreeSlot` | prod/libsrc/porter/potr_peer_table.c:308-345 | With fewer peers than slots a free slot exists, so the abort is unreachable. |
| `PeerTables.PeerTable.PeerFor` | prod/libsrc/porter/thread/potr_recv_thread.c:54-88 | An unknown session gets a new slot, with a fresh id, exactly through a PING while there is room and randomness; everything else is unchanged; the path count of the new peer is right exactly when the sender is not 0.0.0.0:0. |
| `PeerTables.PeerTable.Free` | prod/libsrc/porter/potr_peer_table.c:430-449 | Frees the slot and keeps count, ids and sessions consistent. |
| `PeerTables.PeerTable.LearnPath` | prod/libsrc/porter/thread/thread_recv_session.c:230-248 | Learns a path of a peer; the path counts stay exact when the sender has an address. |
| `PeerTables.PeerTable.DropPath` | prod/libsrc/porter/potr_peer_table.c:411-426 | Forgets a path of a peer and keeps the path count exact. |

## Left out

- Sockets, address resolution, opening of paths, endpoint and port learning of 1:1 services: input and output over a library that is not part of this model.
- AES-GCM and DEFLATE: parameters of the model, assumed only to be undone by decryption (16 bytes longer, same header and nonce) and decompression.
- Threads and condition variables: every section under a mutex is one atomic step, and a blocking call is the step taken once its wait is over.
- Clock readings: one per step, also where the code reads the clock twice in one step.
- Health timeouts and the PING period: which paths expired is an input; when PINGs are sent is arbitrary.
- TCP connect, accept and reconnect, with the resets they perform and the filter on the accepted session: the runs of a TCP slot are those between two such resets.
- The connection checks of potr_service_send and the copies it makes for "all peers".
- Configuration, tracing, result codes, command-line tools, the sample server.
- Memory allocation failures, and services without a callback.
- Random session identifiers: whether the random source works is an input of PeerTables.PeerTable.PeerFor.
- PeerTables.PeerTable.PeerFor: does not model the windows and buffers a new peer gets.
- SendThreads.SendToPeer: the push that waits for room is one attempt; failure stands for the shutdown of the queue.
- SendThreads.PackContainer: how often the loop looks again before the pack wait is over is the length of the list of arrivals.
- SendThreads.SendOne: whether the peer still exists is the parameter `found`.
- EndToEnd.DeliveredIsPrefixOfSent: speaks of packets that are neither older than 2^32 minus the window size numbers nor 2^32 ahead.
- Pipeline.SentArrives: calls come from one thread, as docs/api.md asks of a handle; a call cancelled halfway is the last one.
- Recovery.RecoveryRound: for 1:1 UDP without reorder delay and without new DATA, a pending FIN or suppressed NACKs in between, as the repair has no guarantee otherwise.
- Handshake.RoundTrip: for unicast_bidir; PINGs come only from the other endpoint.
- StaleFragments.WholeAfterReject: for fragments that are not compressed, as otherwise the result depends on the decompressor, and a window that holds nothing behind the number due.
- TcpClose.CloseAgreement: assumes that packets of one session arrive, as the filter on the accepted session makes it, and that FINs carry a target.
