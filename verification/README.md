# CLH: a verified model of the tag-matching message library

CLH lets threads of one process send and receive tagged messages. User threads queue requests; one
worker thread hands them to UCX, pulls unexpected messages out of UCX into 256 per-channel lists, and
collects finished operations. This project models everything CLH does around UCX and proves what the
library is for: every receive gets the message it should, nothing is lost or handed out twice, and
shutdown leaves nothing behind.

## How the files fit together

| file | what it holds |
|---|---|
| `Protocol.dfy` | tag packing and the masked comparison, on bit vectors of the source's widths |
| `Matching.dfy` | the index (per-channel lists plus the transport's two queues) and the one queue it must behave as |
| `Engine.dfy` | user calls, worker actions and transport events as atomic steps of a state machine |
| `Conservation.dfy`, `Delivery.dfy`, `Messages.dfy`, `Invariant.dfy` | what every step keeps |
| `Refinement.dfy`, `Guarantees.dfy`, `Peek.dfy` | what follows for every run from the start |
| `Calls.dfy` | what each entry point asks for and leaves behind, in terms of its arguments |
| `Wishes.dfy` | what becomes of each submission over every run, and in which order |
| `StaleChannel.dfy` | exactly when the channel that `clh_recv_` leaves unset does harm, for steps and whole runs |
| `Passes.dfy` | the worker's passes and whole turns as functions of the state, and that they are runs |
| `Turns.dfy` | what a whole turn does, said of the states before and after it only |
| `Requests.dfy`, `RequestLists.dfy`, `Vec.dfy` | requests behind their list nodes, the three request lists with their pools and the detached chain, the array of operations |
| `Handle.dfy` | the entry points and the worker's functions on these, the channel lists and the buffer cache; each carries out the engine's steps |
| `Worker.dfy` | user calls, arrivals and turns of the worker loop as callers meet them: the exact step or pass, from a reachable state to a reachable state |
| `Shutdown.dfy` | how many turns the worker still takes once it has been stopped |
| `List.dfy`, `MessageList.dfy` | the intrusive list on heap nodes, and `recv_list`: 256 of them |
| `Arena.dfy`, `Tree.dfy`, `Cache.dfy`, `Session.dfy` | the buffer cache: block arena, search tree through a pointer to a slot, whole lives |
| `Wait.dfy` | `clh_wait` against the completion macro |
| `Warmup.dfy`, `WarmupEnds.dfy`, `WarmupExchange.dfy` | the warm-up exchange among any number of nodes, each a whole engine; that it ends; when it ends in the exchange |
| `Sequences.dfy` | facts about sequences and multiset sums |

The imperative classes (`Handle`, `Ucx`, `RequestLists`, `Request`, `Channels`, `Vector`, `List`, `Allocator`,
`BufferCache`) follow the source's updates; each method's contract equates the new abstract state with a function of
the old one (`Model()`, `Chains()`, `Contents()`, `items`, `Map()`), and the lemmas are about those functions. A
request's list node is an object beside it, tied to it by `owner`, where the source puts it in front of the request.

## Assumptions

The transport is trusted to do this, and is modelled as the class `Handle.Ucx` and the `Arrival` step:

- unexpected messages stay in arrival order, and a probe with mask 0 takes the oldest one;
- a posted receive takes the oldest matching unexpected message or waits; an arriving message goes to the
  oldest matching posted receive or becomes unexpected;
- a send or receive call fails or is in progress, never complete at once, since both set
  `UCP_OP_ATTR_FLAG_NO_IMM_CMPL` (clh/ucx.c:179, clh/ucx.c:191);
- a finished receive reports the tag of the message it was given;
- an error ends the run, because the callers assert success (clh/clh.c:316, clh/clh.c:321, clh/clh.c:428).

Each lock region is one atomic step. Finding a stored message and removing it are two lock regions
(clh/clh.c:287 and 296, clh/clh.c:653 and 664); each pair is one step here, and a probe and the worker
racing between the two is outside the model.

`clh_recv_` does not set `request->channel`, by which `process_recv_queue_` chooses the list to search. The
engine and the handle run as written: a receive keeps whatever its node holds, a new node holds anything,
and a turn that would index `recv_list` out of its bounds is not a step. Conservation, completion data, the
send window and the drain hold of all these runs. The matching result is an if-and-only-if: a run stays with
the one queue exactly when it never looks a receive up in a wrong list while the right one holds its message
(`Refinement.HarmlessRun`); a run in which nodes hold the channels the interface means always does
(`Guarantees.IntendedRunsAreHarmless`), and `StaleChannel.StaleChannelRun` is one that does not. What is said of
the handle is split in the same way: `Worker.Sound` says that its state is reachable, `Guarantees.Intended` that in
addition the run there was harmless and every queued receive holds its channel, and only then is nothing missed.

The warm-up is the first to use the nodes of the receive pool, which come from `malloc` (clh/clh.c:721), so it runs
under the same condition: its receives are asked for on channel 0, on nodes that hold whatever they hold. If that is
channel 0 the exchange always gets there; if it is any other channel it can end with no node having its exchange.

Callers are assumed to pass channels below 256 to a probe, since it indexes `recv_list`, and senders below
2^24 to `clh_probe_source`, to call `clh_request_recv` only on a probe that hit, and to release a completed
request once. `Protocol.DecodeEncode` shows that these bounds are exactly the ones packing needs.

## Main results

- `Guarantees.EngineIsOneQueue`: a run stays with one arrival-ordered first-match queue, giving every receive
  what the queue gives it, if and only if the run is harmless in the sense above; and a harmless run leaves no
  posted receive beside a message it matches.
- `Guarantees.MessageInOnePlace`, `NodeInOnePlace`, `DrainedAtExit`: conservation of messages, of request
  nodes and of submissions, in every run.
- `Wishes.SendAsAsked`, `ReceivedAsAsked`, `RequestedAsProbed`, `HandedInOrder`: over every run, what a call asks for is
  what happens. A send keeps its channel, sender, tag and destination; a receive is handed over once, in the order of
  the calls, with the selector of its call, and completes with a message of the channel, masked tag and sender asked
  for.
- `Turns.TurnDoes`: a turn stores the oldest unexpected message or gives it to a receive it hands over, submits as
  many sends as a window of 1024 has room for, hands all receives over, and completes of the operations what can be
  finished and is to be, nothing else.
- `Guarantees.CompletionData`, `SendWindowHolds`; `Peek.PeekThenReceive` with an if-and-only-if.
- `Worker.Turn` and the user calls beside it: on the mutable handle, with its request lists and channel lists on
  linked nodes and its cache, a call is exactly its engine step and a turn exactly the composition of its passes;
  a turn succeeds exactly when no transport call, no mapping and no operation in progress fails, and then has done
  what `Turns.TurnDid` says. Between them the
  state is reachable; while every queued receive holds its channel it is a state of the one queue, and no receive
  waits beside a message for it (`Worker.SoundMeans`).
- `Guarantees.RunsUntilStopped`: the worker's flag is set from the start until a stop, so no exit comes before one.
  `Shutdown.WorkerGetsOut`: once stopped, with an answer for everything in progress, the worker leaves after one turn
  and as many more as the remaining sends fill windows.
- `Session.Life`: a cache answers any sequence of calls as a map does, from create to destroy.
- `WarmupExchange.AlwaysExchangesExactly`: among two nodes or more, every interleaving of the warm-up ends with every
  node having its exchange if and only if the receives' nodes hold channel 0; `WarmupFails` gives the run for any
  other channel. For mixed left-overs, `DoneExactlyWhenExchanged` holds of every harmless run and `ExchangedExactly`
  says what an ended run lacks. `WarmupEnds.EveryRunEnds`: no run is longer than 110 steps for each pair of nodes.
- `Wait.LostWakeUpExact`: a wake-up can be lost if and only if two threads wait on one request.

## Model

| member | source | states |
|---|---|---|
| Protocol.DecodeEncode | clh/protocol.c:3-17 | decoding an encoded tag gives the three fields back if and only if the channel fits 8 bits and the sender 24 |
| Protocol.EncodeDecode | clh/protocol.c:3-17 | encoding the decoded fields gives every 64-bit word back |
| Protocol.AnySourceMeaning | clh/clh.c:596-602 | the masked comparison for `clh_recv` holds exactly when channel and masked low 32 bits agree |
| Protocol.FromSourceMeaning | clh/clh.c:604-610 | the masked comparison for `clh_recv_from` holds exactly when channel, sender and masked low 32 bits agree |
| Protocol.ExactlyMeaning | clh/clh.c:621-622 | the mask of `clh_request_recv` accepts the probed tag only |
| Protocol.MatchesStayOnChannel | clh/clh.c:287-288 | a match of a selector that pins the channel is on that channel, so one list holds them all |
| Protocol.SelectorsPinChannel | clh/clh.c:671-685 | every selector the interface builds pins the channel it was given |
| Matching.FirstMatch | clh/clh.c:164-179 | the result is a match with no match before it, or the length when there is none |
| Matching.FirstMatchOnChannel | clh/clh.c:284-296 | the first match in one queue is the first match in its channel's part, and taking it changes no other channel |
| Matching.ArriveRefines | clh/clh.c:299-302 | an arrival keeps index and queue related |
| Matching.PullRefines | clh/clh.c:375-390 | moving the oldest unexpected message to its list is invisible in the one queue |
| Matching.TakeRefines | clh/clh.c:653-665 | a hit in a list is the first match of the one queue, and removing it there is taking it here |
| Matching.PostRefines | clh/clh.c:284-302 | searching the list and then the transport finds what the one queue's first match finds, or waits in both |
| Conservation.StepBalanced | clh/clh.c:549-669 | every step moves every node and every submission from one collection to one other |
| Conservation.HomeKept | clh/clh.c:737-740 | every step keeps every free node in the pool it was allocated in, probes reused as receives included |
| Delivery.TypedKept | clh/clh.c:575-669 | every step keeps each queue holding requests of its own shape, and every stored message in the list of its channel |
| Delivery.WaitingOrGivenKept | clh/clh.c:284-302 | every step keeps: a receive handed to the transport is waiting or given a message, exactly one of the two |
| Delivery.GivenMatchKept | clh/clh.c:284-302 | every step keeps: whatever a receive was given matches what it asked for |
| Delivery.LogRightKept | clh/clh.c:342-358 | every step keeps: completed receives show the fields of the message they were given |
| Messages.StepConserves | clh/clh.c:284-298 | every step leaves the places of a message balanced against its arrivals |
| Messages.GivenIsGone | clh/clh.c:284-298 | a message given to a receive is in no list and not in the transport |
| Messages.HeldIsGone | clh/clh.c:653-667 | a message held by a removing probe is in no list and not in the transport |
| Invariant.InvKept | clh/clh.c:401-430 | every step keeps the whole invariant |
| Invariant.WindowKept | clh/clh.c:192-219 | every step keeps the send counter exact and within the window |
| Invariant.StartInv | clh/clh.c:439-449 | it holds after start with any initial pool capacity |
| Invariant.RunInv | clh/clh.c:401-430 | it holds at the end of every run |
| Refinement.StepRefines | clh/clh.c:260-309 | each harmless engine step is a move of the one queue, allowed there, between related states |
| Refinement.NoMissedMatchKept | clh/clh.c:284-302 | every move of the one queue keeps that no waiting receive matches an untaken message |
| Refinement.RunRefines | clh/clh.c:375-430 | from related states, whole harmless runs stay related and miss no match |
| Guarantees.EngineIsOneQueue | clh/clh.c:164-430 | every run from the start stays with one arrival-ordered first-match queue if and only if it is harmless; then its gifts are the queue's and no match is missed |
| Guarantees.IntendedRunsAreHarmless | clh/clh.c:575-594 | runs in which every receive's node holds the channel of its tag are harmless |
| Guarantees.ProbeAnswer | clh/clh.c:637-669 | a probe agrees with the one queue about there being a match exactly when it hits or the transport holds no match either |
| Guarantees.ProbeMisses | clh/clh.c:653-654 | a concrete message that a probe misses because it has not been pulled |
| Guarantees.MessageInOnePlace | clh/clh.c:284-298 | every arrived message is in exactly one place: transport, list, probe, receive or discarded |
| Guarantees.GivenToOne | clh/clh.c:284-302 | two receives are never given the same message |
| Guarantees.NodeInOnePlace | clh/clh.c:549-740 | every request node is in exactly one collection, and free only in the pool of its own type |
| Guarantees.SendWindowHolds | clh/clh.c:192-219 | `send_count` is the number of sends in flight and at most 1024 |
| Guarantees.CompletionData | clh/clh.c:290-297 | a completed receive shows channel, sender and tag of the very message it was given, which matches its request |
| Guarantees.WorkerCanPost | clh/clh.c:271-307 | over whole runs, every queued receive names a list if and only if every receive was asked for on a node whose left-over channel is below 256; then the worker can process the next detached receive |
| Guarantees.WorkerOutOfBounds | clh/clh.c:287 | a concrete run for any other left-over channel: the worker detaches the receive and its next turn would look outside `recv_list`, for good |
| Guarantees.ServedNodeInBounds | clh/clh.c:347-350 | a completed receive, when released, leaves a channel below 256 in its node |
| Guarantees.RunsUntilStopped | clh/clh.c:398-463 | over every run, `run` holds from the start on and until a stop, and only until then |
| Guarantees.ExitAfterStop | clh/clh.c:401 | the worker can leave its loop only after a stop |
| Guarantees.StartPools | clh/clh.c:443-447 | each of the three pools starts with as many nodes as asked for, and these are all |
| Guarantees.DrainedAtExit | clh/clh.c:368-430 | when the worker exits, every submission so far has completed exactly once; whatever follows, later ones never complete |
| Guarantees.AllCompleteExactly | clh/clh.c:401-430 | so every submission completes if and only if none comes after the exit |
| Guarantees.IntendedMeans | clh/clh.c:164-430 | a state reached harmlessly, its queued receives on their channels, is a state of the one queue that misses no match |
| Guarantees.StepLeads | clh/clh.c:549-740 | a call or an arrival keeps a reachable state reachable, and an intended one intended unless it is a receive on a node that holds another channel, and then not |
| Guarantees.TurnLeads | clh/clh.c:401-430 | a whole turn keeps a reachable state reachable and an intended one intended |
| Peek.PeekedRequestAsks | clh/clh.c:612-633 | `clh_request_recv` on a non-removing hit queues a receive for that message's full tag, still of probe type |
| Peek.LeadsUntilTaken | clh/clh.c:637-669 | over any run a probed message stays first of its tag in its list until it is taken, and once taken never returns |
| Peek.PeekThenReceive | clh/clh.c:612-669 | a later `clh_request_recv`, or receive of that tag with the right channel, is given the probed message if and only if nobody took it in between |
| Calls.SelectingMeans | clh/clh.c:596-610 | the selector of an entry point accepts just the messages with the channel, masked tag and, if there is one, sender of its arguments |
| Calls.SendLeaves | clh/clh.c:549-571 | a send leaves its request last in the queue: kind, fields and destination of the call, and a tag that decodes to channel, sender and tag |
| Calls.RecvLeaves | clh/clh.c:575-594 | a receive leaves its request last in the queue: it waits for the very selector it was given, owns no message, and holds what its node held |
| Calls.ProbeLeaves | clh/clh.c:637-669 | a probe's answer, removing or not: a hit if and only if some stored message of that list matches, and then the first match with its tag, length and fields; on a miss no message, and the fields the node held |
| Calls.AnswersAsk | clh/clh.c:671-685 | the same in terms of channel, tag, mask and source |
| Calls.ProbeTakes | clh/clh.c:659-667 | a removing hit takes the first match out of that list; nothing else in the index changes |
| Calls.RequestRecvLeaves | clh/clh.c:612-633 | the receive made of a probe's hit accepts the probed tag only, and owns the message exactly if the probe removed it |
| Wishes.RunsAsWished | clh/clh.c:549-633 | over every run, every request in a queue, in progress or in the log, and every receive waiting in the transport, is that of the call with its number |
| Wishes.SendAsAsked | clh/clh.c:549-571 | over every run, a send keeps channel, sender, tag and destination of its call while queued, in flight and completed |
| Wishes.ReceiveAsAsked | clh/clh.c:575-594 | over every run, a receive is handed over with the selector of its call, exactly once if it is in progress or completed and else never; it completes with a message matching that selector and shows its fields |
| Wishes.ReceivedAsAsked | clh/clh.c:596-610 | so a completed `clh_recv` or `clh_recv_from` shows the channel asked for, a tag that agrees under the mask, and the sender asked for |
| Wishes.RequestedAsProbed | clh/clh.c:612-633 | a receive made of a probe's hit completes with the probed tag and shows its fields |
| Wishes.HandedInOrder | clh/clh.c:260-309 | over every run, receives are handed over in the order of their calls |
| Wishes.InProgressShows | clh/clh.c:284-302 | in every reachable state, a receive in progress that has taken a message shows that message's fields, and it is the one the transport was given for it |
| Wishes.InHandAsLogged | clh/clh.c:344-358 | what the user holds completed is in the log, so it shows its own message |
| StaleChannel.StaysExact | clh/clh.c:284-302 | a step stays with the one queue if and only if it is harmless |
| StaleChannel.StaysAlongExact | clh/clh.c:284-302 | the same for whole runs of the written code |
| StaleChannel.StaleTurnExact | clh/clh.c:284-302 | for any 32-bit left-over channel, the turn is defined and stays with the one queue if and only if the channel is right, or is below 256 and the right list holds no match |
| StaleChannel.HarmfulTurn | clh/clh.c:284-302 | otherwise the message stays in its list, and the receive is given another message, or waits beside one it matches |
| StaleChannel.StaleChannelRun | clh/clh.c:575-594 | from the start with any pool capacity: a receive on channel 0 completes and is released, its node is reused on channel 1, and that receive waits beside its message |
| Passes.TestedOnce | clh/clh.c:326-366 | the operations that `Handle.ProcessOpsQueue` tests are all of them, each exactly once, despite swap-removal |
| Passes.CompletesTheFinished | clh/clh.c:344-358 | it completes exactly the finished ones, each as often as it was there |
| Passes.ScanLeaves | clh/clh.c:342-358 | it leaves exactly those in progress, as a multiset |
| Passes.ScanCompletes | clh/clh.c:344-358 | it changes only operations, completed requests, counter and log, and the log grows by the completed ones in order |
| Passes.MeetsBrokenExact | clh/clh.c:359-363 | the scan comes across a broken operation exactly when there is one |
| Passes.InBoundsKept | clh/clh.c:575-594 | queued channels stay below 256 exactly as long as `clh_recv_` gets nodes that hold such a channel |
| Passes.SendPassIsRun | clh/clh.c:192-219 | a send pass is a run of engine steps, a harmless one |
| Passes.RecvPassIsRun | clh/clh.c:270-307 | a receive pass is a run of engine steps, and with every queued receive on its channel a harmless one |
| Passes.ScanIsRun | clh/clh.c:331-364 | a completion scan is a run of engine steps, a harmless one |
| Passes.TurnIsRun | clh/clh.c:401-430 | a whole turn is a run of engine steps; with every queued receive on its channel a harmless one, which leaves that so |
| Passes.SendPass | clh/clh.c:192-219 | a send pass ends with the queue empty or the window full |
| Passes.GoingIs | clh/clh.c:192-219 | the transport calls of a send pass are those for the operations it adds, in order, with their destinations and tags |
| Turns.SendPassMoves | clh/clh.c:182-221 | of n queued sends and room for m of them in the window of 1024, the last m leave, the last first, and the others stay in order |
| Turns.WindowFills | clh/clh.c:192-219 | a send pass ends with the queue empty or exactly 1024 sends in flight |
| Turns.PostAllMoves | clh/clh.c:270-307 | the receives handed over go to the operations, asking for what they asked for; apart from these and the index nothing changes |
| Turns.ServeDoes | clh/clh.c:402-416 | before it collects, a turn has stored one message, submitted the sends that fit and handed every receive over |
| Turns.TurnDoes | clh/clh.c:401-430 | the oldest unexpected message has left the transport for its list or a receive handed over (with no receive queued: for the end of its list, the others as they were); the sends that fit and all receives are operations or completed; what is completed was to be finished, could be, and is in user hands |
| Shutdown.FullTurnDoes | clh/clh.c:401-430 | a turn in which the transport finishes all it can, with an answer for everything: nothing in progress, no receive queued, the window open, and the sends fewer by the room there was |
| Shutdown.WorkerGetsOut | clh/clh.c:401-430 | from any reachable state after the stop, with an answer for everything in progress, the worker can leave after 1 turn plus 1 for every 1024 sends that the first one leaves |
| RequestLists.RequestLists.PushRequest | clh/list.c:54-69 | the request ends its list; every other chain holds what it held |
| RequestLists.RequestLists.PopRequest | clh/list.c:71-93 | the request behind the tail leaves its list |
| RequestLists.RequestLists.TakeRequest | clh/list.c:143-160 | the request behind the head of the free chain leaves it |
| RequestLists.RequestLists.ReleaseRequest | clh/list.c:172-175 | the request heads the free chain |
| RequestLists.RequestLists.DetachRequests | clh/list.c:119-129 | the receive list is empty and its nodes are the detached chain, in order, starting at the node handed out |
| RequestLists.RequestLists.EndsTell | clh/clh.c:368-373 | `len`, tail and free head of each list say how many requests it holds and whether any is there or free |
| Handle.Create | clh/clh.c:78-83 | a new handle with all its parts, in the empty state, its `run` flag set |
| Handle.Handle.NewNode | clh/clh.c:552-553 | the head of the pool of that kind, allocated first if there is none; the other chains keep what they hold |
| Handle.Handle.Send | clh/clh.c:549-571 | on mutable requests and list nodes: the returned request, from the head of its pool, is the last in the send list, with fields and destination of the call and a tag that decodes to its channel, sender and tag |
| Handle.Handle.Recv_ | clh/clh.c:575-594 | the returned request is the last in the receive list; it waits for the selector given, owns no message, and keeps its recycled node's fields |
| Handle.Handle.Recv | clh/clh.c:596-602 | the same for `clh_recv`: it accepts just the messages of that channel whose tag agrees under the mask |
| Handle.Handle.RecvFrom | clh/clh.c:604-610 | the same for `clh_recv_from`: of that sender, too |
| Handle.Handle.RequestRecv | clh/clh.c:612-633 | the probe's node goes from user hands to the end of the receive list, as a receive of the probed tag that owns what the probe removed |
| Handle.Handle.Probe_ | clh/clh.c:637-669 | the returned request, on a recycled node with its old fields when there is one, is the last in user hands; it reports a hit if and only if a stored message of that channel matches, and then the first, with tag, length and fields |
| Handle.Handle.Release | clh/clh.c:737-740 | the engine's release step: head of the free list of the request's type |
| Handle.Handle.ValidateStatusPtr | clh/clh.c:147-158 | error, immediate completion and in-progress, each with the whole new state |
| Handle.Handle.RegisterBuffer | clh/clh.c:201-208 | registration on the real cache succeeds or a failed mapping stops the program; the registration-error return is never taken |
| Handle.Handle.ProcessSendQueue | clh/clh.c:182-221 | a request failure exactly when a transport call fails, a stop exactly when a mapping is refused, never a registration error; on success the state is the send pass's, queue empty or window full, every submitted buffer registered, and the transport was given destination and tag of just the sends then newly in progress, in order |
| Handle.Handle.PostOne | clh/clh.c:271-307 | one turn of the receive loop, registration included, is the engine's step |
| Handle.Handle.WalkChain | clh/clh.c:270-307 | walking the detached chain by `next` hands every request of it over, in order, until a call or a mapping fails |
| Handle.Handle.ProcessRecvQueue | clh/clh.c:260-309 | a request failure exactly when a transport call fails, a stop exactly when a mapping is refused, never a registration error; on success every queued receive was handed over, oldest first, on a registered buffer |
| Handle.Handle.ProbeIncoming | clh/clh.c:375-390 | the oldest unexpected message moves to the end of the list of its channel, or nothing changes |
| Handle.Handle.FinishOne | clh/clh.c:344-358 | a finished operation is decoded, swapped out, uncounted and completed as in the engine |
| Handle.Handle.ProcessOpsQueue | clh/clh.c:326-366 | reports an error exactly when it meets a broken operation; otherwise the state is the scan's, the operations asked about are those of `Passes.Tested`, in that order, and each request is still in progress or with the user |
| Handle.Handle.AreQueuesEmpty | clh/clh.c:368-373 | the four `len` fields are all zero exactly when no operation and no queued request is there |
| Handle.Handle.Arrival | clh/clh.c:299-302 | an arriving message goes where the engine's arrival step puts it |
| Handle.Handle.Progress | clh/clh.c:336-344 | the transport finishes exactly those it is told to for which every operation of that number can be finished |
| Handle.Handle.FillPools | clh/clh.c:445-447 | the three pools filled by loops are those of the engine's start state |
| Worker.SoundMeans | clh/clh.c:164-430 | between two functions, with every queued receive on its channel: the handle is in a state of the one queue and no receive waits beside a message for it |
| Worker.Start | clh/clh.c:439-457 | a started handle is in the engine's start state, running, and all of it is new |
| Worker.Send | clh/clh.c:549-571 | exactly the send step; the returned request ends the send list, with fields, destination and a tag that decodes to channel, sender and tag; reachable stays reachable, intended intended |
| Worker.Recv | clh/clh.c:596-602 | exactly the receive step, whatever its node holds; the returned request accepts just the messages of that channel whose tag agrees under the mask; intended stays intended exactly when the node held the channel asked for |
| Worker.RecvFrom | clh/clh.c:604-610 | the same for a receive from one sender, of whose messages it accepts no others |
| Worker.Probe | clh/clh.c:671-677 | exactly the probe step; the returned request, last in user hands, reports a hit if and only if a stored message of that channel agrees under the mask, and then the first one's tag, length and fields; it leaves the list if the probe removes |
| Worker.ProbeSource | clh/clh.c:679-685 | the same for a probe for one sender |
| Worker.RequestRecv | clh/clh.c:612-633 | exactly the step from probe to receive; the request leaves the user's hands and ends the receive list, as a receive of the probed tag |
| Worker.Release | clh/clh.c:737-740 | exactly the release step; the request leaves the user's hands and heads its pool |
| Worker.Stop | clh/clh.c:459-463 | run is cleared and nothing else changes |
| Worker.Arrives | clh/clh.c:299-302 | exactly the arrival step |
| Worker.Pull | clh/clh.c:402 | exactly one pull, or none when the transport has nothing |
| Worker.Submit | clh/clh.c:313-317 | succeeds exactly when no send and no mapping fails; then exactly the send pass: the sends that a window of 1024 has room for are gone from the tail, and the transport was given their destinations and tags |
| Worker.PostAll | clh/clh.c:318-322 | succeeds exactly when no receive and no mapping fails; then exactly the receive pass, every queued receive in progress, buffers registered |
| Worker.Serve | clh/clh.c:402-416 | the composition of pull, send pass and receive pass (which `Turns.ServeDoes` describes), under the same exact condition; the transport was given the sends that fit |
| Worker.Collect | clh/clh.c:424-429 | succeeds exactly when no operation is broken; then exactly the completion scan |
| Worker.Turn | clh/clh.c:401-430 | succeeds exactly when nothing fails, is refused or breaks; then the turn has pulled, submitted, handed over and collected as `Turns.TurnDid` says, the transport was given the sends that fit, no request is lost, the next turn can start, and intended stays intended with no match missed |
| Worker.Leaves | clh/clh.c:401 | the worker leaves exactly when run is false and its queues are empty |
| Vec.Vector.constructor | clh/array.h:14-19 | an empty array of the given capacity |
| Vec.Vector.Append | clh/array.h:26-34 | contents grow by the element at the end; capacity doubles when one cell is left |
| Vec.Vector.Remove | clh/array.h:36-41 | the last element takes the removed one's place |
| List.List.constructor | clh/list.c:5-26 | an empty list with a free chain of the given length |
| List.List.PushNode | clh/list.c:54-69 | the node is appended, both chains and `len` stay right |
| List.List.PopNode | clh/list.c:71-93 | the last pushed node is taken, or null from an empty list |
| List.List.RemoveNode | clh/list.c:95-117 | exactly that node leaves, the order of the others is kept, and it heads the free chain |
| List.List.GetAllNodes | clh/list.c:119-129 | the list is empty and the whole chain, linked in push order, is handed out |
| List.List.NewNode | clh/list.c:143-160 | the head of the free chain, or a new node; in neither chain afterwards |
| List.List.ReleaseNode | clh/list.c:162-170 | the node heads the free chain |
| List.List.PushData | clh/list.c:47-52 | the data is at the end, in a recycled node if there is one |
| List.ChainsAgree | clh/list.c:54-117 | forward from head and backward from tail visit the same nodes in opposite orders, `len` counts them, none is free |
| List.ForwardUnique | clh/list.c:54-69 | a chain determines the nodes it visits, so it is finite and acyclic |
| MessageList.Search | clh/clh.c:164-179 | walking the nodes ends at the first match's node, or null |
| MessageList.TakeFirst | clh/clh.c:287-297 | search and removal on the linked list take the first match out of the stored sequence |
| MessageList.Store | clh/clh.c:385-388 | a pulled message is stored at the end |
| MessageList.Channels.constructor | clh/clh.c:79-82 | 256 empty lists on nodes of their own |
| MessageList.Channels.Find | clh/clh.c:287-288 | the node of the first match in one channel's list, or null |
| MessageList.Channels.Remove | clh/clh.c:296 | that message leaves its list; the other lists are untouched |
| MessageList.Channels.Append | clh/clh.c:388 | the message ends its list; the other lists are untouched |
| Arena.Allocator.constructor | clh/cache.c:13-24 | one block, nothing handed out |
| Arena.Allocator.CreateNode | clh/cache.c:26-42 | a slot never handed out before; the blocks stay chained, distinct and all but the last full |
| Arena.Allocator.Destroy | clh/cache.c:44-58 | walks the chain and unmaps one handle per slot ever handed out, in order |
| Tree.SearchIsRight | clh/cache.c:107-122 | the search ends where the key is or belongs |
| Tree.RightSlotUnique | clh/cache.c:107-122 | there is one such slot, and the search finds it |
| Tree.SearchAnswers | clh/cache.c:107-122 | a hit holds the key's handle; a miss means that the key is not in the map |
| Tree.Inserted | clh/cache.c:130-152 | filling the empty slot adds exactly one entry and keeps the order |
| Tree.HangInOrder | clh/cache.c:166-179 | hanging the left subtree in the leftmost hole of the right one concatenates their entries |
| Tree.Removed | clh/cache.c:166-179 | the entries after a removal are those before it, in order, without exactly the removed one |
| Cache.Splits | clh/cache.c:107-122 | a heap tree is what is around a slot together with what is below it |
| Cache.BufferCache.constructor | clh/cache.c:64-75 | the empty map |
| Cache.BufferCache.Search | clh/cache.c:107-122 | the loop over pointers to slots ends at the slot of the tree search |
| Cache.BufferCache.RemoveNode | clh/cache.c:166-179 | the loop terminates and the heap below the root is the relinked tree, without sharing |
| Cache.BufferCache.RegisterOrGet | clh/cache.c:124-164 | a null address, a hit, a failed mapping and a new entry, each with the whole new map |
| Cache.BufferCache.Unregister | clh/cache.c:181-201 | succeeds exactly when the key is present and unmapping works; then the map loses that key only |
| Cache.BufferCache.Destroy | clh/cache.c:95-105 | unmaps every handle ever mapped, in the order of mapping |
| Session.ServeAll | clh/cache.c:124-201 | any sequence of calls is answered as a map answers it, up to a failed mapping, and ends in that map |
| Session.Life | clh/cache.c:64-201 | the same from create to destroy, with what destroy unmaps |
| Session.FirstHandleStays | clh/cache.c:155-158 | until its address is unregistered, every hit returns the handle of the first registration |
| Session.LifeUnmapsOnce | clh/cache.c:44-58 | a whole life unmaps every handle exactly once if and only if no unregister succeeded |
| Session.UnmappedTwice | clh/cache.c:166-201 | a concrete life that unmaps a handle twice |
| Wait.RunKeeps | clh/clh.c:691-701 | over every run the lock, the flag and the positions of all threads stay consistent |
| Wait.LostWakeUpExact | clh/clh.c:139-145 | some run loses a wake-up if and only if at least two threads wait on the request |
| Wait.SingleWaiterReturns | clh/clh.c:691-701 | a single waiter returns only when completed, and gets out by its own steps once the completer has left |
| Warmup.WarmMatch | clh/clh.c:503-504 | a warm-up message matches a warm-up receive exactly when its sender is the rank named |
| Warmup.WorkCounts | clh/clh.c:402-430 | any step of a node's worker, harmless or not, keeps the receives handed over, the waiting ones, the messages there and the sends balanced for each peer |
| Warmup.RunInv | clh/clh.c:495-506 | over every interleaving of whole engines, per pair of ranks, calls, messages and completions balance; a message on its way has the tag of the submitted send, which names its sender |
| WarmupEnds.EveryRunEnds | clh/clh.c:495-534 | no run is longer than 110 steps for each pair of nodes, whatever the nodes hold |
| WarmupEnds.CarriedOn | clh/clh.c:495-534 | every run can be carried on to where nothing more can happen, on nodes that hold what one likes |
| WarmupExchange.ExchangedExactly | clh/clh.c:495-534 | a run of the code at its end: every node has had its exchange if and only if no node looked outside `recv_list` and no receive waits beside a message for it |
| WarmupExchange.DoneExactlyWhenExchanged | clh/clh.c:495-534 | for harmless runs on channels below 256: nothing more can happen exactly when every receive and send of every node has completed, ten per peer, with the text of the rank named, and nothing is left over |
| WarmupExchange.GetsThere | clh/clh.c:495-534 | with channel 0 left over, every run can be carried on to where every node has had its exchange |
| WarmupExchange.WarmupFails | clh/clh.c:504 | with any other channel left over, some run of two nodes or more ends with no node having its exchange |
| WarmupExchange.AlwaysExchangesExactly | clh/clh.c:482-541 | so, among two nodes or more, the warm-up always ends in the exchange if and only if channel 0 is left over |

## Left out

- UCX and PMIx (`clh/ucx.c`, `clh/pmi.c`): foreign calls, present only as the transport contract above.
- Handle.Handle.ValidateStatusPtr: its immediate-completion branch is covered by the contract but not used in runs, because the transport never completes at once.
- Handle.Handle.RegisterBuffer: a buffer is its address; lengths and the handle passed to UCX are not used further.
- Wishes.SendAsAsked: the tag decodes to the arguments for channels below 256 and senders below 2^24; the network is trusted to bring the tag it was given.
- The memory a receive's data goes to: the buffer of a request is registered before the call, and no more is said of it.
- The order of sends: the send queue is popped from its tail, so sends leave last in, first out; no order of delivery is claimed.
- Peek.PeekThenReceive: says nothing of a receive whose tag was probed with removal; that message is the request's own from then on (Messages.HeldIsGone).
- Guarantees.ProbeAnswer: a probe may miss a message that is still in the transport; this is the code's behaviour, and the exact condition is stated.
- Guarantees.WorkerOutOfBounds: what the program does after indexing out of bounds is not modelled; the worker takes no further turn there.
- Cache.BufferCache.RegisterOrGet: the cache is keyed by address only, so no handle is claimed to cover the length of the current buffer.
- Cache.BufferCache.Unregister: the removed node stays in the arena with its handle, so destroy unmaps it again; `Session.LifeUnmapsOnce` says exactly when that happens.
- Shutdown.WorkerGetsOut: assumes that the transport finishes all it can in every turn; a transport that makes no progress keeps the worker in its loop.
- WarmupExchange.Exchanged: the waits of the warm-up are the completions they wait for; its releases are steps, in any order.
- The `start_`/`run_` handshake (clh/clh.c:399, clh/clh.c:454), which waits without a predicate or a held mutex.
- `clh_buffer_cache_is_registered` locking, `clh_list_release_nodes`, the non-threshold `process_send_queue_` and `free_tree_`: unused or compiled out.
- `CLH_BufferBuilder`, `array_pop`, `array_resize`, `array_destroy`, `clh_list_destroy`, accessors and the empty `clh_cancel`: easy members.
- Payload bytes, except the sender and receiver of each warm-up message; logging, tracing and status strings; memory-ordering effects.
