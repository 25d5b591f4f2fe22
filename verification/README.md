# Verification of the hi-im-core message hub

hi-im-core is a message hub with two planes. Clients of the *forward* plane send
business frames that are published to the subscribers on the *backend* plane;
backend clients send frames that go to the one forward session whose node id the
IM header names. Inside a plane a frame travels

    socket -> reactor -> recv queue -> worker -> bridge -> peer plane's router
           -> dist queue -> distributor -> send queue -> reactor -> socket

with every arrow crossing a thread boundary. The project models this hub in Dafny
and proves what holds under every interleaving of those threads, for any number of
sessions, reactors and workers, any arrival of bytes, any partial writes, and
queues that may be full at any time.

## How the project is organised

| files | what they hold |
|---|---|
| `Bytes`, `Wire`, `ImHeader`, `Auth`, `Reassembly` | bus wire v1 frames, the IM header, the AUTH payload, stream reassembly |
| `Routing`, `RouterObject`, `RouterHistory` | the routing tables as values, the router object, and both tables as functions of the call history |
| `HubModel`, `HubMeaning` | the hub as a step system: planes, links between them, actions, runs; its decisions in bytes, table entries and numbers |
| `HubInvariant`, `HubUpdate`, `HubReactorSteps`, `HubPlaneSteps`, `HubConnSteps`, `HubLink` | the invariant of a plane and of the links, kept by every action |
| `HubFlow`, `HubFlowSteps`, `HubOrder`, `HubPublish`, `HubRuns` | order and conservation per pair of sessions and the progress of a publish, kept by every action; every reachable state |
| `HubHandOver`, `HubTheorems`, `HubSessions`, `HubProgress`, `HubExamples` | the attempts to hand a message over as one run; the results about the hub, read off the invariant; session ids and the listener; that everything gets through; concrete runs |
| `Spsc`, `Wakeup` | the lock-free ring at load/store granularity; the wakeup protocol |
| `Queues`, `Publishing` | the queue classes, the retrying push, publish, send, bridge handlers, distributor routing |
| `ReactorFacts`, `ReactorMeaning`, `ReactorObject`, `ReactorExamples` | the reactor as an object; its handlers and their loops against the step system; one object through a whole session |

**The step system.** One action is one atomic piece of one thread: an operation
under a mutex, one push or pop of a single-producer queue, or work on state only
that thread touches. A login or subscription is two actions (the table changes,
then the acknowledgement is appended), so other threads run in between. A retried
push is one action per attempt. A run is any sequence of enabled actions;
`Reachable` quantifies over all of them. The `log` of a plane, `enqueued`,
`dropped`, the `Meta` of a frame, the `all` of a worker and the `finished` of a
link are histories that no action reads.

**The objects.** `Reactor`, `Router`, `FrameBuffer`, `SpscQueue` and `MpscQueue` are
classes whose methods update their fields in place. Each reactor handler is shown
to perform a sequence of this reactor's own actions of the step system (`Trace`,
`Own`), so it keeps the plane's invariant, and to leave sessions and routing
tables as the functions `Serve`, `Sending`, `Answer` and `Routed` say. All attempts
to hand one message to a worker are one entry of the trace (`HandsOver`);
`HandsOverIs` shows it to be a run of the step system's receive pushes that ends
in the same plane and the same worker queue. Between two handlers other threads
may do anything that keeps the invariant (`Meanwhile`); during a handler they act
only on the queue it pushes to. Interleaving within a handler is what the step
system is for.

**The outside.** What sockets return is a script parameter. What other threads do
to a shared queue between two attempts of a retried push is a function parameter
(`others`, `inbox`, `pops`). The file descriptor and the reactor of a new
connection are chosen by the run.

**Three things the code does that a reader may not expect**, each with its exact
condition:

- A push that has to be retried moves its value on every attempt, so from the
  second attempt on it enqueues a value whose byte vector is empty. The call
  still reports success. `WholeIffFirstAttempt`, `DeliveredIffNeverRetried` and
  `PayloadIntactIff` say exactly when and what; `EmptiedByRetry` and
  `PayloadLostRun` are instances.
- A session that logs in twice under different node ids and then closes leaves
  its first route behind. `StaleRouteIff` is the condition, `StaleRouteExample`
  and `StaleRouteRun` are instances, `RoutesAreLive` is what still holds.
- A frame whose payload length does not fit 32 bits does not come back;
  `FrameRoundTrip` says it does if and only if it fits. `Provenance` shows that
  the bridge never re-encodes such a payload.

**Code and documentation disagree** on the IM header:
`doc/协议规范-bus-wire-v1.md` says 48 bytes, the code uses 52
(`include/hiim/im/header.hpp:28`). The model follows the code.

**Assumptions.** `size_t` has 64 bits. The 64-bit session id counter does not
wrap. Atomics behave as under sequentially consistent interleaving (the
acquire/release pairs on the ring's indexes are what justifies this). The
operating system never hands out a descriptor that is still open. Work on a
session ends when the session is closed, also where `HandleReadable` still holds
a reference to it.

## Model

| member | source | states |
|---|---|---|
| HubRuns.EveryReachableState | src/hub/reactor.cpp:131-357 | every state of every run, under every interleaving, satisfies the full invariant: both planes, both links, order and conservation for every pair of sessions, and every publish, under way or finished |
| HubRuns.FullStep | src/hub/reactor.cpp:131-357 | every enabled action of any thread keeps the full invariant of the hub |
| HubLink.PlaneStepKeeps | src/hub/reactor.cpp:131-357 | every action of a plane's listener, reactors and distributor keeps the plane's invariant |
| HubTheorems.PerPairOrder | src/hub/reactor.cpp:285-319 | business frames from one source session in one destination's output have strictly increasing positions in the source's stream: same order, each at most once |
| HubTheorems.NoMisdelivery | src/hub/context_impl.cpp:103-148 | a business frame in a session's output names that session, carries the command of a frame its source really sent and that frame's payload (emptied if and only if the push into the receive queue was retried), is addressed to a node id the destination authenticated as, and has exactly the encoded bytes |
| HubTheorems.PayloadIntactIff | src/hub/reactor.cpp:309-318 | the payload delivered is the payload sent if and only if the push into the receive queue was not retried or there was no payload |
| HubTheorems.QueuedWholeIffRoom | src/hub/reactor.cpp:311-318 | when a hand-over begins, the message is queued whole if the worker's queue has room at the first attempt, and otherwise only emptied or not at all, whatever other threads do to the queue meanwhile |
| HubExamples.PayloadLostRun | src/hub/reactor.cpp:309-318 | a run of the hub in which a client sends payload [5] and the subscriber gets the frame with an empty payload, because the receive queue was full at the first attempt |
| HubExamples.DownlinkRun | src/hub/bridge.cpp:42-58 | a run of the hub in which a backend client sends a payload whose IM header names node 1 and the output of the client logged in as node 1 is its AUTH_ACK followed by that payload under node id 1 |
| HubTheorems.QueuedFrames | src/hub/context_impl.cpp:103-148 | every frame in the dist queue, the distributor's hand or a send queue names an issued session and the reactor owning it, is in no other reactor's send queue, and is genuine; its bytes are exact, or empty after a retried push |
| HubTheorems.AckBeforeTraffic | src/hub/reactor.cpp:222-283 | AUTH_ACK precedes every business frame in a session's output and SUB_ACK for a command precedes every frame published under it, although the tables change before the acknowledgement is appended |
| HubTheorems.Conservation | src/hub/distributor.cpp:38-54 | each frame enqueued for a pair is in exactly one of: the output, the send queue of the owning reactor, the distributor's hand, the dist queue, the record of drops; no other send queue holds one; and nothing else is in any of them |
| HubFlow.ProjIff | src/hub/distributor.cpp:38-54 | a frame number is counted in a queue if and only if the queue holds a frame from that source session with that number for that destination session |
| HubFlow.DeliveredIff | src/hub/reactor.cpp:155-176 | a frame number is counted as delivered if and only if the destination's output holds that frame |
| HubFlow.DropsIff | src/hub/distributor.cpp:38-54 | a frame number is counted as dropped if and only if the record of drops holds that frame |
| HubTheorems.DropReasons | src/hub/distributor.cpp:38-54 | a frame is recorded as dropped because its session had really closed, or because a retried push had emptied it, or for a full send queue (GivesUpIff says exactly when); never for an invalid reactor index |
| HubTheorems.GivesUpIff | src/hub/distributor.cpp:38-54 | the distributor drops a frame if and only if it has made 1000000 attempts before and the owning send queue is full even then; no reachable state is past that attempt |
| HubTheorems.HandedToOwner | src/hub/distributor.cpp:38-54 | a frame in the distributor's hand goes to the end of the send queue of the reactor it names as soon as there is room, with its bytes if that is the first attempt and with none if it is a later one; no other queue changes |
| HubTheorems.DeliveredIffNeverRetried | src/hub/reactor.cpp:155-176 | a frame popped from a send queue is appended to its session's output if and only if the session is still held and no push of the frame was retried |
| HubTheorems.ClosedIsFinal | src/hub/reactor.cpp:155-220 | nothing is ever added to the history of a closed session, so a frame that outlives its session reaches nobody, not even a reconnection with the same node id or descriptor |
| HubTheorems.SubscribersAreLive | src/hub/router.cpp:24-77 | every subscription entry names an authenticated session held by the recorded reactor, under a node id it authenticated as, and no session is listed twice |
| HubTheorems.RoutesAreLive | src/hub/router.cpp:79-91 | a route names a session that authenticated as the node id at the recorded reactor; it is live if and only if not closed; if the latest login was under that node id it is live and agrees with the session |
| HubTheorems.StaleRouteIff | src/hub/reactor.cpp:200-220 | closing a session leaves a route to it if and only if a node id was bound to it that is not the one of its latest login |
| HubExamples.StaleRouteRun | src/hub/reactor.cpp:235-240 | a run of the hub in which a client logs in under node id 1, then 2, and closes: node id 1 still routes to the closed session |
| HubTheorems.SessionIndex | src/hub/reactor.cpp:131-220 | in every reachable state the descriptor index and the session index of a reactor are inverse to each other |
| HubTheorems.NoCollision | src/hub/reactor.cpp:131-140 | a connection about to be taken in collides with no held session, by id or by descriptor |
| HubSessions.SessionIds | src/hub/context_impl.cpp:90-92 | in every reachable state the sessions ever accepted on a plane are numbered from 1 up to the next id without a gap, so an id is never used twice |
| HubSessions.ConnectionHandled | src/hub/listener.cpp:160-171 | an accepted connection gets an id no session ever had and goes to the end of its reactor's connection queue if that has room, and is closed if it has not; no other session or queue changes |
| HubTheorems.Provenance | src/hub/reactor.cpp:285-319 | every message waiting for a worker is a business frame its session sent, with that frame's type, flag and payload (empty if the push was retried), and waits at the session's own worker; an earlier frame of the session is a type 1 system frame whose user and password fields, cut at the first zero, are the configured ones, it is the latest such frame, and the message bears the gid and node id in its payload; the length fits 32 bits |
| HubTheorems.NeverStuck | src/hub/reactor.cpp:111-113 | a thread that holds something can always take its next step: the session owed an acknowledgement is there and every queue index computed exists |
| HubProgress.SomethingMoves | src/hub/worker.cpp:92-99 | as long as any message or frame is on its way, some action that needs no new input is enabled |
| HubProgress.InternalLess | src/hub/distributor.cpp:122-124 | every such action, in any state, makes a well-founded measure of the work left smaller, so such actions cannot go on for ever |
| HubProgress.CanBeFlushed | src/hub/distributor.cpp:122-124 | from every reachable state a finite run without new input leaves every queue, the distributor's hand, every worker and every reactor empty or idle |
| HubProgress.FlushedIsSettled | src/hub/reactor.cpp:155-166 | then every frame ever enqueued for a pair was delivered exactly once or dropped exactly once |
| HubTheorems.OutputIsStream | src/hub/reactor.cpp:168-198 | for any partial writes, bytes sent plus bytes buffered are the concatenation of all frames appended to the session's output |
| HubTheorems.PeerReads | src/hub/reactor.cpp:168-198 | a peer that reads any part of the bytes sent, in any chunks, pops exactly the first frames of the session's output and sees no bad checksum; all bytes give all frames |
| HubTheorems.SourceFrames | src/hub/reactor.cpp:335-349 | the frames a session's history numbers are, in order, frames its own bytes spell, for every chunking, also after the session has closed |
| HubTheorems.EndToEnd | src/hub/reactor.cpp:285-357 | what a destination's peer pops, under any chunking, is acknowledgements and genuine business frames, with the payload sent unless the receive queue's push was retried; those of one source come in the order sent, without repetition; all bytes give all frames |
| HubTheorems.LookupMeaning | src/hub/context_impl.cpp:103-107 | when a worker looks up the recipients of a message no frame of it was ever enqueued; it is done if there are none, and otherwise serves this one snapshot: for an uplink message entry by entry the command's list in the peer's tables, for a downlink message the one session its node id routes to |
| HubTheorems.PublishMeaning | src/hub/context_impl.cpp:108-124 | whatever other threads enqueue meanwhile, the frames of a message are exactly the copies for the recipients done with, in snapshot order; with room the next recipient's frame goes to the end of the dist queue; the worker is free after the last one, or after giving up on a queue full at attempt 1000000, and then a proper prefix was served |
| HubTheorems.FinishedStays | src/hub/context_impl.cpp:103-125 | however long the hub goes on, the frames of a finished message are exactly as many as recipients were served, in snapshot order, each with its recipient's session and reactor and the message encoded under its node id, or no bytes after a retry |
| HubMeaning.ReactIs | src/hub/reactor.cpp:222-319 | the answer to every frame, by flag, type and payload bytes: login exactly for a type 1 system frame of at least 56 bytes with the configured user and password, with the identity in its first and last word; subscribe and unsubscribe with the first word as command; keepalive; closing, ignoring or relaying otherwise |
| HubMeaning.LoginAnswered | src/hub/reactor.cpp:225-245 | the frame a client encodes is read off the wire and accepted, with the client's own gid and node id, if and only if its user cut to 32 and password cut to 16 bytes, up to the first zero, are the configured ones; otherwise the session is closed |
| HubMeaning.SubscriptionAnswered | src/hub/reactor.cpp:246-273 | a type 5 or type 7 frame that starts with a command subscribes to or unsubscribes from that command, whatever follows it; before the login the one closes the session and the other is ignored |
| HubMeaning.AckLayout | include/hiim/wire/sys_cmd.hpp:23-30 | an acknowledgement is 20 bytes: type 2, 4, 6 or 8, the node id of the session, flag 0, length 0 |
| HubMeaning.UplinkRecipients | src/hub/context_impl.cpp:103-124 | an uplink message has one recipient per entry of its command's list, in the same order, with the entry's session, reactor and node id |
| HubMeaning.DownlinkRecipients | src/hub/bridge.cpp:42-58 | a downlink message has one recipient, the session and reactor its IM header's node id is bound to, and none if the header is missing or names node 0 or an unbound node |
| HubMeaning.FrameForRecipient | src/hub/context_impl.cpp:108-124 | the frame for a recipient names its session and reactor and holds the message's type, the recipient's node id, flag 1 and the payload, or nothing after a retry |
| HubMeaning.WorkersInTurn | src/hub/reactor.cpp:111-113 | sessions whose ids are a multiple of the number of workers apart share a worker; fewer apart never do |
| Spsc.RefinesFifo | src/hub/queue.hpp:30-52 | with every load, slot access and index store a separate step, every run of one producer and one consumer answers as an atomic bounded FIFO does, and never holds more than the capacity |
| Spsc.NoSharedSlot | src/hub/queue.hpp:30-52 | producer and consumer never work on the same slot, and what the producer wrote stays until it is published |
| Spsc.StaleReadsSafe | src/hub/queue.hpp:30-52 | a producer that found room still has room when it stores; a consumer that found a value still has one |
| Spsc.ExactlyOnceInOrder | src/hub/queue.hpp:30-52 | the values pushed are the values popped, in the same order, followed by the values still in the ring |
| Spsc.CallsDecided | src/hub/queue.hpp:33-52 | in every reachable state the test for room lets a push go on exactly when fewer values than the capacity are queued, the store of the tail appends the pushed value, the test for a value lets a pop go on exactly when the queue is not empty, and the store of the head removes the oldest value, which is the one returned |
| Wakeup.NoLostWakeup | src/hub/pipe_wakeup.hpp:63-91 | whenever the connection queue is not empty a wakeup is pending, or the listener is about to notify, or the reactor is between seeing the event and finding the queue empty, although the distributor uses the same counter |
| Wakeup.EachConnOnce | src/hub/reactor.cpp:142-153 | the connections taken in so far, followed by those queued, are the connections the listener pushed, in order |
| Wakeup.NeverStranded | src/hub/reactor.cpp:321-327 | whenever the listener is not between push and notify, the reactor's own steps alone take in every queued connection, in order |
| RouterHistory.NidRouteIsHistory | src/hub/router.cpp:57-99 | after any calls, a node id routes to a session if and only if some bind still stands: not rebound, and not undone by an unbind or removal naming that session and node id |
| RouterHistory.OlderCloseKeepsNewer | src/hub/router.cpp:57-68 | removing an older session never removes a newer session's binding of the node id |
| RouterHistory.StaleRouteExample | src/hub/router.cpp:57-91 | bind under 1, bind under 2, remove with 2: node id 1 still routes to the removed session |
| RouterHistory.NeverTwice | src/hub/router.cpp:24-36 | no sequence of calls makes a list name a session twice |
| RouterHistory.SubscriptionIsHistory | src/hub/router.cpp:24-77 | an entry is listed if and only if the latest relevant call is the subscribe that made it |
| RouterHistory.ListedIffLive | src/hub/router.cpp:24-77 | a session is listed if and only if some subscribe was not followed by an unsubscribe or removal |
| RouterHistory.ListedIffJoined | src/hub/router.cpp:24-68 | a session is listed if and only if there is a call at which it joined, and there is only one such call |
| RouterHistory.OrderOfJoining | src/hub/router.cpp:24-36 | subscribers are listed in the order they joined; subscribing again does not move a session |
| RouterHistory.EmptyListsUnobservable | src/hub/router.cpp:57-77 | tables that answer lookups alike keep doing so after any call, so lists left empty by a removal cannot be observed |
| RouterObject.Router.Subscribe | src/hub/router.cpp:24-36 | the search loop replaces the session's entry in place or appends it |
| RouterObject.Router.Unsubscribe | src/hub/router.cpp:38-55 | drops the session's entries and an emptied list; Ok if and only if some entry of the command's list names the session |
| RouterObject.Router.RemoveSession | src/hub/router.cpp:57-68 | the loop over all lists drops the session everywhere; the route goes only if it is this session's |
| RouterObject.Router.BindNid | src/hub/router.cpp:88-91 | replaces the route of the node id |
| RouterObject.Router.UnbindNid | src/hub/router.cpp:93-99 | removes the route only if it is the given session's |
| RouterObject.Router.SubscriptionCount | src/hub/router.cpp:101-108 | the length of the list, which is the number of sessions subscribed |
| ReactorObject.Reactor.HandleReadable | src/hub/reactor.cpp:328-357 | performs this reactor's own actions of the step system only; leaves the session and the routing tables as reading the script frame by frame says; pushes to the session's own worker exactly the messages those frames relay and touches no other queue; once drained, all bytes delivered were received and every complete frame among them was handled; keeps write interest equal to pending output |
| ReactorObject.Reactor.HandleFrames | src/hub/reactor.cpp:340-349 | the inner loop, popping from a FrameBuffer, handles exactly the complete frames in the buffer, relays exactly their messages, changes the tables as they say, and stops where it must |
| ReactorMeaning.ServeStep | src/hub/reactor.cpp:340-349 | reading a session's buffer goes on from each frame to what its answer left, and ends exactly when no frame is complete, the session is gone, or an unsubscribe is short or comes before the login; a wrong checksum discards the buffer |
| ReactorFacts.ServeAllStep | src/hub/reactor.cpp:328-357 | reading goes on with the next chunk as long as the buffer was drained; end of file or an error closes the session, nothing to read leaves it as it is |
| ReactorFacts.ServeAllDrained | src/hub/reactor.cpp:328-357 | a drained session has no complete frame buffered if and only if it had none before or bytes arrived: after a refused unsubscribe, leftover frames wait for the next bytes |
| ReactorFacts.AllFramesHandled | src/hub/reactor.cpp:335-349 | if the buffer holds no complete frame and no checksum was wrong, the frames handled are all the frames the received bytes spell |
| ReactorObject.Reactor.HandleSystem | src/hub/reactor.cpp:222-283 | a system frame is one step of the step system, followed by its acknowledgement if it has one; session and tables end as the reaction says, also when sending the acknowledgement breaks the connection; false exactly for a login with wrong credentials and for a subscribe or unsubscribe that is short or comes before the login; an unknown type changes nothing |
| ReactorObject.Reactor.HandleAuth | src/hub/reactor.cpp:225-245 | true if and only if the payload has 56 bytes and its user and password fields, cut at the first zero, are the configured ones; then the session has the gid and node id of the payload's first and last word, and the router's map differs from before in binding that node id to this session and reactor only; otherwise the session is closed |
| ReactorObject.Reactor.HandleSub | src/hub/reactor.cpp:246-260 | true if and only if the session has logged in and the payload has 4 bytes; then the list of the command they spell names the session under its identity, and the other sessions' entries, the other lists and the routes are as before; otherwise the session is closed |
| ReactorObject.Reactor.HandleUnsub | src/hub/reactor.cpp:261-273 | true if and only if the session has logged in and the payload has 4 bytes; then no entry of the list of the command they spell names the session, the other sessions' entries are as before in order, and the other lists and the routes too unless sending UNSUB_ACK broke the connection; otherwise nothing changes |
| ReactorMeaning.AckMeaning | src/hub/reactor.cpp:241-279 | an accepted login, keepalive, subscribe or unsubscribe appends, when the socket takes nothing, exactly 20 bytes to the output: type 2, 4, 6 or 8, the session's node id, flag 0 and length 0 |
| ReactorObject.Reactor.EnqueueInbound | src/hub/reactor.cpp:285-319 | before the login closes the session; otherwise pushes one message with the session's id, reactor, gid and node id and the frame's type, flag and payload, whole if the first attempt found room and emptied if a later one did; its attempts are a run of the step system's receive pushes, which ends in the same plane and the same worker queue |
| HubHandOver.PushRunIs | src/hub/reactor.cpp:311-318 | a run of receive-push actions leaves the reactor idle and the worker's queue as the first attempt that found room left it, or unchanged if none did |
| ReactorFacts.HandsOverIs | src/hub/reactor.cpp:311-318 | whatever link and peer plane surround the reactor, that run ends with the queue the reactor's own push leaves |
| ReactorObject.Reactor.HandleWritable | src/hub/reactor.cpp:178-198 | for every script of partial sends: the output loses exactly the bytes taken, a broken connection is closed and its routes removed, and write interest equals pending output afterwards |
| ReactorObject.Reactor.SendBytes | src/hub/reactor.cpp:168-176 | appends and sends; empty data changes nothing |
| ReactorObject.Reactor.CloseSession | src/hub/reactor.cpp:200-220 | forgets the session, its index entry, its registration and, if authenticated, its routes in the router; an unknown id changes nothing |
| ReactorObject.Reactor.DrainSendQueue | src/hub/reactor.cpp:155-166 | empties the send queue by this reactor's drain steps; sessions and tables end as appending and sending the frames one after the other leaves them, for every script of partial sends |
| ReactorObject.Reactor.DrainOne | src/hub/reactor.cpp:157-164 | a popped frame is appended to its session and sent, which closes the session if the connection is broken; it changes nothing if the session is gone or the frame is empty |
| ReactorExamples.SubscriberIsServed | src/hub/reactor.cpp:131-176 | a reactor object takes in a connection, reads a login and a subscription, and, after other threads have published a client's frame, appends that frame whole to the held session and watches it for writability |
| ReactorObject.Reactor.Meanwhile | src/hub/reactor.cpp:359-394 | between two handlers other threads may bring the plane, its tables and the peer's history to any state that keeps the invariant and leaves this reactor's own part alone; the object is then valid there |
| ReactorObject.Reactor.DrainNewConnections | src/hub/reactor.cpp:131-153 | empties the connection queue and registers every connection as a fresh session, in order |
| ReactorFacts.ConnRegistered | src/hub/reactor.cpp:131-153 | a registered connection is a session that has not logged in, with no identity, nothing buffered and nothing to send |
| ReactorFacts.OthersAsBefore | src/hub/reactor.cpp:131-153 | registering connections leaves every other session as it was |
| Publishing.Publish | src/hub/context_impl.cpp:103-125 | relative to one snapshot of the command's list: Ok means as many frames as entries were pushed into the dist queue, the j-th with the session and reactor of the j-th entry and the message encoded under its node id (no bytes after a retry); QueueFull means a proper prefix, ending at the first that found no room; NotFound an empty list and an unchanged queue; with other producers interleaved |
| Publishing.AsyncSend | src/hub/context_impl.cpp:127-148 | NotFound exactly when the node id is not in the map; QueueFull only after every attempt found the queue full; Ok means one frame was enqueued, for the session and reactor in the map, with the message encoded under the node id (no bytes after a retry) |
| Publishing.Bridge | src/hub/bridge.cpp:27-58 | uplink: frames for the entries of the command's list in order, up to the first that found no room; downlink: one frame for the session the IM header's node id is mapped to if it is nonzero, mapped and an attempt finds room, and none otherwise |
| Publishing.RouteToSendQueue | src/hub/distributor.cpp:38-54 | a negative reactor index fails; otherwise the frame goes behind what the reactor left in its own send queue, with its bytes at the first attempt and none later, and fails only if all 1000001 attempts found the ring full; with room and an idle reactor the queue gains exactly the frame |
| Queues.PushWithBackoff | src/hub/queue_push.hpp:9-20 | succeeds if and only if one of the allowed attempts finds room; enqueues the value itself at the first attempt and its moved-from remains later |
| Queues.PushIntoRing | src/hub/queue_push.hpp:9-20 | the same retry on a ring while its consumer takes values: the attempt that succeeds is the first that found room |
| Queues.AfterPopsIs | src/hub/queue.hpp:44-52 | what the consumer leaves of the queued values before an attempt is the suffix after the total it was ready to take, or nothing |
| Queues.WholeIffFirstAttempt | src/hub/queue_push.hpp:9-20 | the value arrives whole if and only if the first attempt finds room |
| Queues.EmptiedByRetry | src/hub/queue_push.hpp:9-20 | a queue full at the first attempt and free at the second: the push succeeds and enqueues an emptied value |
| Queues.SpscQueue.Push | src/hub/queue.hpp:33-42 | appends unless full, in place in the slot array |
| Queues.SpscQueue.Pop | src/hub/queue.hpp:44-52 | removes the oldest unless empty |
| Queues.SpscQueue.SizeApprox | src/hub/queue.hpp:54-61 | the number of queued values when no other thread acts |
| Queues.MpscQueue.Push | src/hub/queue.hpp:78-85 | appends unless at capacity |
| Queues.MpscQueue.Pop | src/hub/queue.hpp:87-95 | removes the oldest unless empty |
| Wire.FrameRoundTrip | include/hiim/wire/header.hpp:89-99 | decoding an encoded frame returns its fields, payload and the bytes after it if and only if the payload length fits 32 bits |
| Wire.FrameLayout | include/hiim/wire/header.hpp:33-99 | a frame on the wire: type, node id, flag and payload length as big-endian words at bytes 0, 4, 8 and 12, the bytes 1F E2 3D C4 at 16, the payload from byte 20 |
| Wire.PopLayout | src/wire/frame_buffer.hpp:43-67 | what popping does, by position: waits below 20 bytes, discards if bytes 16 to 19 are not 1F E2 3D C4, waits for the payload the word at 12 announces, and returns the words at 0, 4 and 8, that payload and what follows |
| Wire.EncodePopped | src/wire/frame_buffer.hpp:43-67 | a popped frame re-encoded, followed by the rest, is the buffer it was popped from |
| Wire.PopStable | src/wire/frame_buffer.hpp:43-67 | bytes that arrive later change neither a frame that is complete nor a bad checksum |
| Wire.PopPrefix | src/wire/frame_buffer.hpp:43-58 | no proper prefix of an encoded frame pops or looks bad |
| Wire.PrefixFree | include/hiim/wire/header.hpp:89-99 | no encoded frame is a proper prefix of another |
| Wire.EncodeHeader | include/hiim/wire/header.hpp:71-76 | overwrites the first 20 bytes, with type, node id, flag, length and checksum as big-endian words in this order, and nothing else; a short buffer is untouched |
| Wire.ParseAppend | src/wire/frame_buffer.hpp:35-67 | parsing a concatenation is parsing the first part, then what it left followed by the second |
| Reassembly.FrameBuffer.TryPopFrame | src/wire/frame_buffer.hpp:43-67 | returns a frame if and only if the buffer has 20 bytes, the checksum bytes at 16 and the payload the word at 12 announces; then type, node id and flag are the words at 0, 4 and 8 and the buffer keeps what follows; otherwise it waits, or clears the buffer on wrong checksum bytes |
| Reassembly.FrameBuffer.Append | src/wire/frame_buffer.hpp:35-37 | appends the bytes |
| Reassembly.FrameBuffer.DrainFrames | src/hub/reactor.cpp:340-349 | the pop loop ends and yields exactly the frames the buffer spells, leaving the rest |
| Reassembly.FrameBuffer.ReceiveAll | src/hub/reactor.cpp:335-351 | the receive loop over a fresh buffer yields, up to the first wrong checksum, the frames of the whole stream |
| Reassembly.ChunkingIndependent | src/wire/frame_buffer.hpp:35-67 | frames popped, the first wrong checksum and the bytes left depend on the byte stream only, not on its chunks |
| Reassembly.FeedReproduces | src/wire/frame_buffer.hpp:35-67 | the popped frames re-encoded, followed by the buffer, are the bytes received |
| Reassembly.ReceivePrefix | src/wire/frame_buffer.hpp:35-67 | a prefix of an encoded stream, in any chunks, yields a prefix of its frames, and all of it yields all |
| ImHeader.WriteHeader | include/hiim/im/header.hpp:48-65 | the field-by-field copies leave command, length, session id, destination and sequence number as big-endian words at bytes 0, 4, 8, 24 and 28, zeros at 16 to 23 and 36 to 51, and the rest of the buffer alone; a short buffer is untouched |
| ImHeader.PackLayout | include/hiim/im/header.hpp:67-75 | a packed payload by position: the header fields, with the body length cut to 32 bits, zeros, and the body from byte 52 |
| ImHeader.ReadLayout | include/hiim/im/header.hpp:77-93 | the destination is the word at 24 and the sequence number the two words at 28; both are 0 below 52 bytes |
| ImHeader.ReadPacked | include/hiim/im/header.hpp:67-93 | destination, sequence number and body read back from a packed payload |
| ImHeader.NestedRoundTrip | include/hiim/im/header.hpp:48-93 | a wire frame around a packed IM payload returns the same wire fields, destination, sequence number and body |
| Auth.MakeAuthPayload | include/hiim/wire/auth.hpp:46-60 | user and password fields hold the first 32 and 16 bytes of the texts, followed by zeros |
| Auth.PayloadLayout | include/hiim/wire/auth.hpp:36-41 | the 56 bytes of an AUTH payload: gid at 0, user at 4, password at 36, node id at 52 |
| Auth.DecodeLayout | include/hiim/wire/auth.hpp:62-68 | decoding fails below 56 bytes and otherwise finds the fields at those positions |
| Auth.DecodeEncoded | include/hiim/wire/auth.hpp:62-68 | decoding an encoded AUTH payload, with any bytes after it, returns it |
| Auth.AuthAcceptedIff | src/hub/reactor.cpp:55-59 | a client's AUTH frame, a system frame of type 1 under its node id, is accepted if and only if its truncated, zero-terminated user and password equal the configured ones; then the hub sees its gid and node id |
| Auth.UnmatchableConfig | src/hub/reactor.cpp:55-59 | configured credentials can be matched by some payload if and only if they fit their fields and hold no zero byte |

## Left out

- System calls: sockets, epoll and kqueue, eventfd and pipes, and socket tuning appear only as scripts of results, a set of watched descriptors and a saturating counter.
- Weak memory: the ring is verified under interleaving of its loads and stores, not under the C++ memory orders.
- ReactorObject.Reactor: a handler call is verified without other threads acting during it, except on the queue it pushes to; aliasing of sessions by references is not modelled.
- Reassembly.FrameBuffer.ReceiveAll: says nothing after a wrong checksum, because the clear makes later parsing depend on the chunking.
- The event loops of the listener, worker, distributor and reactor threads: they appear as actions of the step system, not as methods.
- PickReactor: the round-robin counter is shared by both planes and is replaced by an arbitrary choice of reactor.
- Handler registration and lookup: the bridge registers only the default handler of each plane, and that is the one modelled.
- Absence of deliveries after UNSUB_ACK: frames already on their way may still arrive, so it is not claimed.
- Timing and fairness: nothing is said about how soon a frame arrives or whether a thread is scheduled.
- Starting, stopping and joining threads, the closing of all sessions at shutdown, and the hub server.
- The health server, the command-line programs, the benchmark and all log output.
- Features described in the documents but not present in the code: sharding, metrics, io_uring and the proxy SDK.
