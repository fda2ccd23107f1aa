# rrev: requests, replies and events over one websocket

rrev multiplexes requests, replies and events of two peers over one websocket. Each peer is a
handful of actors that are joined by channels with room for one message. This project models
those actors as they are written, and proves what their users rely on.

## What is modelled

**One endpoint.** The Connection numbers requests, keeps a map from ids to oneshots, gives each
reply to the oneshot of its id and cancels what is left when it shuts down. Around it are its
Sender, its Receiver, the callers that hold a `ConnectionHdl` and the user that drains events
and completes `RequestHandle`s in any order, any number of times, or never.

**Two endpoints** joined by a wire that keeps frames in order and may lose any of them.

**The server**: the registry of connections, the acceptor, and for each accepted stream a
Connection and the passer that forwards its events.

| Files | Content |
|---|---|
| `Messages`, `Sequences`, `Channels`, `Machines` | the messages, order-preserving selections, bounded channels, runs of a step function |
| `ConnectionCore`, `ConnectionRuns` | the Connection as a machine; what holds of every run of it |
| `SenderCore`, `EndpointSpec`, `EndpointInvariants`, `EndpointRuns`, `EndpointProgress` | one endpoint: steps, invariants, runs, deadlock |
| `Duplex` | two endpoints and the wire |
| `ServerCore`, `ServerSystem`, `ServerInvariants`, `ServerMerge`, `ServerRegistry`, `ServerNews`, `ServerOneshots`, `ServerRuns`, `ServerStale`, `ServerTimeouts` | the same for the server |
| `ConnectionLaws`, `EndpointLaws`, `DuplexLaws`, `ServerLaws`, `SystemLaws` | what each machine must do, read off its inputs or the labels of its run |
| `ServerEndToEnd` | one machine of the server, the endpoint behind one of its connections, the wire and the peer |
| `Connections`, `Actors`, `Nodes` | the endpoint as objects that share channels |
| `Servers`, `Hubs` | the server as objects |

Each actor that updates its fields is a class. Its methods take it from one `await` to the next
and are proved to do what the step function of the machine does. `Node` and `Hub` put the
objects together: `Perform` takes them through any run the machine has, so what is proved of
every run holds of the objects.

The machines carry history for the sake of the invariants. What they must do is also said without
it: the `Laws` modules compute from the inputs of an actor, or from the labels of a run, what was
put into each queue, what each actor was woken up with, which ids are awaited by whom, what every
oneshot holds, what the registry is and what the user is shown, and prove that the machines are in
exactly this state. There a queue is the sequence of all that was ever put into it, an id is the
number of a request in 64 bits, and a loop ends at the inputs at which the source ends it.

## How the source is read

- A step of an actor ends at an `await` that may block. While it waits, the actor holds its
  message. Steps of all actors interleave in every possible way.
- `recv` and `next` inside `select!` lose nothing when the other arm wins.
- A send fails only after the receiving actor has dropped its end. What is in a channel is lost
  with it, a oneshot in it included. Actors do not panic of themselves.
- Ids are a `usize` of 64 bits that wraps around. What is said about ids is said of connections
  that issue at most 2^64 requests, unless it is said of any number; `WrapAroundMisdelivers` shows
  that one more is too many.
- The six types of a `Parser` are one abstract type `Payload`. A oneshot is a number, fresh for
  each call.
- The sink and the stream may fail at any time. Errors are of two classes, those that end the
  connection and the others, as the source's two matches have them. After any error of the sink
  the frame may or may not be on its way. A frame that does not decode is a frame lost.
- A timeout is a caller that leaves, at any moment: it drops the receiving half of its oneshot
  (`Abandon`), and its message, if this is not in a queue yet (`Withdraw`). A send on a oneshot
  finds out whether the receiving half is there; if not, the oneshot ends as `Unheard`.
- A write to the sink ends, well or badly; the results on deadlock say nothing of a sink that
  neither takes a frame nor fails.
- The channel for a user's events has any capacity the user chose.
- In the server the Sender, the Receiver and the peer of a connection are arbitrary; `ServerEndToEnd`
  puts them in for one connection. There a request handle may be completed as soon as the passer has it.
- Messages and events in the server carry the number of their connection. This is for stating
  theorems; the actors decide nothing by it. A connection's handle in the registry is this number.
- Sequences named `accepted`, `issued`, `taken`, `entered`, `written`, `framed`, `emitted`,
  `received`, `completions`, `log`, `shown` and `told` are history.

## What the code does not do

- *Shutdown can hang.* `Sender::send` waits for room in the Connection's internal channel to
  report a closed websocket, while the Connection may be waiting for the Sender. Then neither
  moves again, and requests that were pending stay so: they are neither answered nor canceled.
  `Doomed` says by the places where the actors wait which states end like this, directly or
  through a user that waits in `complete`. `FinishableIffNotDoomed` is an equivalence. As long as
  no sink error of the closing class occurs there is no such state (`OpenSinkIsNeverDoomed`),
  and what is under way always comes to an end (`OpenSinkDrains`).
- *An entry of the registry can be stale.* The passer runs before the server is told of the
  connection, so its Close may be handled before its NewConnection. `StaleIffClosedEarly` says
  that this is the only way. The entry made then stays until a send to it fails
  (`StaleUntilEvicted`).
- *A repeated address can cost an entry.* A second connection from an address that is registered
  is refused an entry, but its Close takes the entry of the first (`LostEntryIsReachable`). Without
  repeated addresses the server's shutdown leaves nothing pending (`ShutdownLeavesNothingPending`).
- *Ids are unique up to 2^64 requests*, see above.

## Model

| member | source | states |
|---|---|---|
| `Duplex.EndToEnd` | src/connection.rs:162-204 | in every state two joined endpoints can reach, a oneshot that holds `Ok(d)` belongs to a request k for which the peer's user called `complete(d)` on a received handle with id k and exactly this caller's data; for any completion order, repetition and loss |
| `Duplex.OkIsAnswer` | src/scheme/request_handle.rs:24-30 | the same for one direction, with the request and the completion as witnesses |
| `Duplex.NoReplyBeatsItsRequest` | src/connection.rs:163-169 | the reply in front of a running Connection finds its id in the reply map exactly if no reply with this id was taken before; so only a repeated completion is without a match |
| `Duplex.PipelineIsOneQueue` | src/connection/sender.rs:48-94 | seven stages are one FIFO queue: what the user received, then what is in transit, is what the peer's Connection accepted; with losses or shutdown it is a selection in order and without duplicates |
| `Duplex.HandlesSurfaceOnce` | src/connection.rs:144-160 | handles reach the user in the order of their ids, each id at most once, with the data of its call |
| `Duplex.EarliestCompletionDecides` | src/scheme/request_handle.rs:24-30 | if nothing is lost on the way back, `Ok(d)` is the earliest completion of that id |
| `DuplexLaws.AnswersAreCompletions` | src/connection.rs:162-204 | `Ok(d)` in terms of what happened: the peer's labels complete the request of this call, with the data of its `Call`, with `d` |
| `DuplexLaws.EventsArrive` | src/connection.rs:101-116 | the events a user has received are a selection, in order and without repetition, of those the peer's callers sent; without losses, together with what is in transit, they are all of them |
| `DuplexLaws.HandlesArrive` | src/connection.rs:144-160 | the handles a user has received are a selection, in order and without repetition, of the requests the peer's callers put into the channel, numbered |
| `DuplexLaws.LossesOfPlay` | src/connection/receiver.rs:100-111 | a wire counts as lossy exactly if it lost a frame |
| `Duplex.RepliesAnswer` | src/connection/receiver.rs:107-113 | any reply between the peer's Sender and the Connection answers an issued request by a recorded completion |
| `Duplex.FirstReplyIsFirstCompletion` | src/connection/sender.rs:117-125 | the first reply of an id in the Sender's channel is the first completion of this id |
| `Duplex.OneQueue` | src/connection.rs:101-120 | the queue equation for one direction, also while the writing side shuts down |
| `Duplex.PlayedInv` | src/connection.rs:76-99 | every run of two joined endpoints keeps the invariants of both, the order of the wire, and "a reply comes after its request" |
| `Duplex.LossKeepsLink` | src/connection/receiver.rs:100-111 | losing any frame leaves what arrives a selection of what was written |
| `ConnectionLaws.ConnectionIsLawful` | src/connection.rs:101-214 | after any inputs, for any number of requests: which ids are awaited by whom, what each oneshot holds, and what was accepted for the peer is what the inputs call for, the reused-id arm and the wrap-around included |
| `ConnectionLaws.ConnectionDoes` | src/connection.rs:76-99 | the loop goes on until an input ends it; inside, the Connection hands over what its last input called for; outside, it goes through its closing in order |
| `ConnectionLaws.EventsAreAccepted` | src/connection.rs:101-116 | the events accepted for the peer are those taken from callers, each once and in order |
| `ConnectionLaws.IdsAreNumbers` | src/connection.rs:190-198 | up to 0x1_0000_0000_0000_0000 requests, each gets its number as its id and is accepted |
| `ConnectionLaws.NoneIsDropped` | src/connection.rs:192-195 | up to as many requests, no oneshot is dropped for want of an id |
| `ConnectionRuns.OutcomesAreVerdicts` | src/connection.rs:162-214 | after any run against any peer, entry and oneshot of request k are what an automaton for k alone says: pending, `Ok` of the first reply after registration, `Canceled`, or `Unheard` when its receiver was gone at that moment |
| `ConnectionRuns.StrayReplyIsIgnored` | src/connection.rs:163-169 | a reply to an unknown, future or answered id changes no continuation |
| `ConnectionRuns.ReplyTouchesOneRequest` | src/connection.rs:163-166 | a reply leaves the entry and the oneshot of every other request as they are |
| `ConnectionRuns.ShutdownResolvesAll` | src/connection.rs:93-98 | when the Close event is offered the map is empty and each request taken holds the first reply that came in time or `Canceled`; it may be `Unheard` only if its receiver was gone |
| `ConnectionRuns.UnheardWasGone` | src/connection.rs:164-166 | names the turn at which a send on a oneshot failed; its receiver was gone at that turn |
| `ConnectionRuns.IssuedIdIsTaken` | src/connection.rs:190-196 | a request's id is given to no other request, and its entry, if any, is its own oneshot's and no other entry is |
| `ConnectionRuns.OutcomesStay` | src/connection.rs:185-214 | a oneshot that was used keeps its outcome in every continuation |
| `ConnectionRuns.WrapAroundMisdelivers` | src/connection.rs:190-196 | a run of 2^64 + 1 requests whose last caller is given a second completion of request 0: the bound on ids is exact |
| `ConnectionCore.NextInv` | src/connection.rs:101-214 | ids are the positions of the requests, both maps are determined by the history, and every step keeps this |
| `ConnectionCore.FirstReplyIsFirst` | src/connection.rs:163-166 | the fold for a request's fate finds a reply with its id and none before it |
| `ConnectionCore.SendRequestFates` | src/connection.rs:190-196 | below 2^64 requests the next id is never in the map, so the reused-id arm is dead, and the entry goes to the new oneshot alone |
| `ConnectionCore.CancelFates` | src/connection.rs:206-214 | cancelling gives `Canceled` to exactly the requests without a reply |
| `SenderCore.PushInv` | src/connection/sender.rs:117-125 | written, held and queued messages remain what entered the Sender's channel, in order |
| `SenderCore.FailInv` | src/connection/sender.rs:79-93 | a failed write takes the message in hand out of the pipe, if the frame did not get out, and nothing else; the order stays |
| `SenderCore.ExitInv` | src/connection/sender.rs:61-64 | what the Sender drops when it exits are replies, no request and no event, also after failed writes |
| `EndpointInvariants.RunInv` | src/connection.rs:76-99 | every run of an endpoint keeps lifetimes, stage contents and oneshot ownership |
| `EndpointInvariants.EndpointStep` | src/connection.rs:76-99 | every step of every actor keeps them |
| `EndpointRuns.ConnectionOfRun` | src/connection.rs:76-99 | the Connection inside an endpoint goes through a run of its own |
| `EndpointLaws.ConnectionReadsRun` | src/connection.rs:76-220 | in every run the Connection got exactly what callers, Receiver and Sender put into its channels, in order, and found Sender, user and oneshot receivers there or gone as the run says |
| `EndpointLaws.EventsAreAccepted` | src/connection/connection_hdl.rs:70-75 | every event a caller sends is accepted for the peer, once and in order, or still waits in the channel, unless the Connection has returned |
| `EndpointLaws.SenderReadsRun` | src/connection/sender.rs:48-125 | in every run the Sender got exactly what Connection and completions handed to it, is where its steps have taken it, and wrote what it took |
| `EndpointLaws.CompletionsAreReplies` | src/scheme/request_handle.rs:24-30 | every completion while the Sender is there, awaited or in another task, puts exactly one reply into its channel, with the id of the handle and the data given, in order |
| `EndpointLaws.UserReadsRun` | src/connection.rs:144-183 | in every run the user's channel got what was offered, the Close included, and each receive took the next event |
| `EndpointLaws.CallsReadRun` | src/connection/connection_hdl.rs:38-68 | in every run the labels say which calls are blocked and which failed how: a send to a Connection that returned as `SendError`, a request left in its channel as `RecvError` |
| `EndpointRuns.OneshotsAreLinear` | src/connection/connection_hdl.rs:38-57 | each oneshot has exactly one holder: caller, channel, one map entry, used up, or lost |
| `EndpointRuns.SettledStays` | src/connection.rs:162-214 | a settled oneshot stays settled with its outcome in every continuation of the endpoint |
| `EndpointRuns.TimeoutIsUnseen` | src/connection/connection_hdl.rs:59-68 | a caller may drop its receiver at any moment; the continuations with and without it are the same, and they end in states equal in every entry, every other outcome and everything else, but for this oneshot, which may be `Unheard` |
| `EndpointRuns.TimedOutIdStays` | src/connection.rs:190-196 | in every continuation a request's id is no other request's, and its entry is its own oneshot or absent |
| `EndpointRuns.OnlyTheGoneMissAnswers` | src/connection.rs:163-166 | only a oneshot whose caller left ends as `Unheard` |
| `EndpointRuns.ReturnedResolvesAll` | src/connection.rs:93-98 | after `run` has returned no request is left: used up, lost with the queue, or with a caller whose send fails |
| `EndpointRuns.RequestsOnTheWire` | src/connection.rs:190-199 | ids on the wire increase strictly and each frame has its caller's data |
| `EndpointRuns.EventsThenOneClose` | src/connection.rs:93-98 | emitted events are the peer's messages in order, then at most one Close, which is last |
| `EndpointRuns.ChannelsHoldOne` | src/connection/connection_hdl.rs:18-29 | each channel holds one message at most, and a caller can send exactly when there is none |
| `EndpointRuns.LifetimesAreNested` | src/connection.rs:77-85 | the Sender serves as long as the Connection may use it, sends to it succeed, and closing the Receiver never blocks |
| `EndpointRuns.ClosesOnce` | src/connection.rs:216-219 | in a whole run the Receiver and then the Sender are closed at most once |
| `EndpointRuns.NothingWrittenAfterClose` | src/connection/sender.rs:56-68 | no frame leaves after the Sender has taken its Close |
| `EndpointProgress.FinishableIffNotDoomed` | src/connection/sender.rs:79-90 | what is under way can be finished if and only if the actors are not in one of the listed waiting patterns |
| `EndpointProgress.OpenSinkDrains` | src/connection.rs:76-99 | after any run without a closing sink error, pending sends, takes and drains, other sink errors included, can go on exactly until everything is at rest, in any order and for a bounded number of steps, also during shutdown |
| `EndpointProgress.OpenSinkIsNeverDoomed` | src/connection/sender.rs:81-91 | a run without a closing sink error reaches none of the waiting patterns |
| `EndpointProgress.FinishedOrDoomed` | src/connection/sender.rs:79-93 | without that hypothesis on the past, steps that cannot go on have finished everything, unless the Sender was already reporting and the state is doomed |
| `EndpointProgress.FinishingEnds` | src/connection.rs:76-99 | whatever order is chosen, finishing takes no more steps than a measure of the state |
| `EndpointProgress.FinishingWorks` | src/connection/receiver.rs:107-111 | every such step of every actor uses up some of the measure |
| `EndpointProgress.SomethingMoves` | src/connection.rs:76-99 | in a reachable state that is neither at rest nor doomed some such step is possible and leaves it not doomed |
| `EndpointProgress.DoomStays` | src/connection/sender.rs:82-88 | a doomed state stays doomed whatever callers, peer, actors and sink do, and whatever the user does but drop its event channel |
| `EndpointProgress.JammedForever` | src/connection/sender.rs:84-88 | Sender and Connection that wait for each other do so in every continuation, whatever anybody does |
| `EndpointProgress.JamIsReachable` | src/connection.rs:216-219 | a run from a new endpoint to such a state, with a request pending |
| `ServerLaws.RegistryIsHistory` | src/server.rs:177-279 | after any inputs an address is registered to c exactly if, by the announcements, closes and failed sends among these inputs, c announced it first since its last removal |
| `ServerLaws.ServerIsLawful` | src/server.rs:85-279 | after any inputs the registry, what the Server is handing over or showing, whom it has still to tell, and the oneshots it let go are what the inputs call for |
| `ServerLaws.LoopIsLeft` | src/server.rs:86-97 | the loop is left exactly on a Close, and when an event of a connection (not the news of one) finds the user gone |
| `ServerLaws.CloseEndsLoop` | src/server.rs:88-103 | once a Close was taken the loop is over for good, the registry stays, and everyone in it is told before the Server stops |
| `ServerLaws.FailedSendEvicts` | src/server.rs:251-258 | a failed send leaves the address it was for without an entry |
| `ServerLaws.NewsAreShown` | src/server.rs:178-191 | as long as no show fails, each announcement that found no entry is shown, in order, and nothing else is news |
| `ServerCore.RegistryFollowsLog` | src/server.rs:177-279 | the registry is what the Server's own log says |
| `SystemLaws.SystemReadsRun` | src/server.rs:85-279 | in every run each actor of the server got exactly what the labels put into its queues, in order: the Server from callers, acceptor and passers, each Connection from the Server, each passer from its Connection; and found the others there or gone as the run says |
| `SystemLaws.CloseIsFinal` | src/server.rs:88-103 | in every run that goes on after the Server took a Close it never serves again, and when it stopped each connection registered then was told or had returned |
| `SystemLaws.ToldIsDelivered` | src/server.rs:99-103 | those counted as told to close are exactly those whose queue was given a Close |
| `SystemLaws.GoneIsEvicted` | src/server.rs:251-258 | a send to a connection that has returned takes the entry of the address its sender named |
| `SystemLaws.NewsReachUser` | src/server.rs:183-190 | while the user listens it is shown, in order, every address whose announcement found no entry, and no other as new |
| `SystemLaws.SentEventsReach` | src/server.rs:270-279 | the events for a connection are those sent to its address while it had the entry; its Connection accepts each once and in order |
| `ServerCore.NextRegistry` | src/server.rs:177-279 | every step of the Server keeps the registry equal to what its history says |
| `ServerCore.FirstSinceUnique` | src/server.rs:178-181 | the history names one connection for an address: a duplicate does not take over |
| `ServerRuns.ReachedInv` | src/server.rs:85-114 | every run of the server, with any number of connections, keeps its invariants |
| `ServerRuns.QueuesHoldOne` | src/server/server_handle.rs:86-96 | the same of the queues of the Server, its connections and passers |
| `ServerRuns.StreamsStayFaithful` | src/server/connection_passer.rs:19-23 | the user's stream projected to one connection is a first part of what it emitted, under its own address, its Close once and last; with fresh addresses the projection by address is the same; while the loop runs nothing of it is missing |
| `ServerRuns.NewsOnce` | src/server.rs:177-192 | with fresh addresses each connection is shown as new at most once, in the order of announcement |
| `ServerStale.StaleIffClosedEarly` | src/server.rs:204-214 | with fresh addresses a registered connection still has its Close to come, exactly if the server did not handle this Close before the announcement |
| `ServerStale.StaleEntryIsReachable` | src/server/acceptor.rs:68-79 | a run that leaves an entry for a connection that is gone |
| `ServerStale.StaleUntilEvicted` | src/server.rs:204-214 | with fresh addresses an entry whose connection has departed stays in every continuation until a send to it fails |
| `ServerRuns.EvictionIsSound` | src/server.rs:251-258 | a failed send removes only connections that have returned, resolved their requests and emitted Close |
| `ServerRuns.OneshotsAreLinear` | src/server.rs:245-263 | each oneshot has exactly one holder from `ServerHandle::request` to its outcome |
| `ServerRuns.AnswersComeFromTheAsked` | src/server/server_handle.rs:141-156 | `Ok(d)` for a caller of the server is the first reply, taken after registration, to a request with exactly this caller's data on the connection at the address it asked |
| `ServerEndToEnd.AnswersAreCompletions` | src/server/server_handle.rs:141-156 | in every run of a server together with the endpoint behind one of its connections, the wire and the peer: `Ok(d)` for a caller of the server means that the peer's user called `complete(d)` on a received handle with exactly this caller's data, on the connection at the address it asked |
| `ServerEndToEnd.WholeRuns` | src/server.rs:85-114 | every such run is a run of the server and a run of two joined endpoints, and the two agree on the connection, its channels and the calls |
| `ServerEndToEnd.AgreeStep` | src/server/acceptor.rs:68-79 | every turn keeps this agreement |
| `ServerEndToEnd.FeltIsEnabled` | src/server.rs:251-254 | what the server does to a connection is possible for the endpoint behind it |
| `ServerEndToEnd.SeenIsEnabled` | src/connection.rs:76-99 | each step of the endpoint's Connection is possible for the connection the server has |
| `ServerEndToEnd.AnswerIsReachable` | src/server/server_handle.rs:141-156 | there is such a run in which a caller is answered |
| `ServerRuns.TakingIsFree` | src/connection.rs:79-81 | a oneshot in a connection's queue is new to its Connection, so a Connection that is selecting can take whatever is there |
| `ServerTimeouts.TimeoutIsUnseen` | src/server/server_handle.rs:165-175 | a caller of the server may leave wherever its request is; the continuations with and without it are the same and end in states that differ in this oneshot alone |
| `ServerTimeouts.TimedOutIdStays` | src/connection.rs:190-196 | on every connection, in every continuation, the id of a request is no other request's, and its entry is the same oneshot's or absent |
| `ServerTimeouts.OnlyTheGoneMissAnswers` | src/connection.rs:163-166 | only a oneshot whose caller left ends as `Unheard` |
| `ServerRuns.SettledStays` | src/server.rs:245-263 | a oneshot that was used or let go stays so in every continuation |
| `ServerRuns.ShutdownReachesAll` | src/server.rs:99-105 | when `run` has returned, each registered connection accepted a Close or had returned, and will leave its loop or has left it |
| `ServerRuns.ShutdownLeavesNothingPending` | src/server.rs:85-114 | once those connections have returned too, each oneshot is used, let go, or with a caller whose send cannot succeed; only if an address came twice it may be at an open connection without an entry |
| `ServerStale.LostEntryIsReachable` | src/server.rs:204-214 | a run in which the Close of a second connection from an address takes the entry of the first, which is open, so that a request is left pending when the server has stopped |
| `ServerOneshots.OwnedStep` | src/server/server_handle.rs:141-156 | every step of every actor keeps each oneshot in exactly one place (caller, queue, hand, a channel, a Connection, let go), and no two oneshots change their place in one step |
| `ServerOneshots.CarriedStep` | src/server/server_handle.rs:141-150 | a request travels with what its caller asked, and only to the connection at the address it asked for |
| `ServerMerge.MergedStep` | src/server/connection_passer.rs:19-23 | every step keeps handled plus waiting equal to emitted, for each connection |
| `Connections.Connection.constructor` | src/connection.rs:62-73 | a new Connection has id 0, an empty map and its channels |
| `Connections.Connection.HandleExternal` | src/connection.rs:101-120 | realises the machine's step for a message of a handle |
| `Connections.Connection.SendRequest` | src/connection.rs:185-204 | id, wrap-around, reused-id arm, and the entry before the send |
| `Connections.Connection.HandleInternal` | src/connection.rs:122-142 | realises the step for a message of the Receiver or the Sender |
| `Connections.Connection.HandleInternalReply` | src/connection.rs:162-170 | the entry of the reply's id is removed and its oneshot used, heard or not, or nothing changes |
| `Connections.Connection.CancelRequests` | src/connection.rs:206-214 | the loop over the keys, in any order, cancels the oneshot of each entry exactly once in this order, and does nothing else |
| `Connections.Connection.Answer` | src/connection.rs:164-164 | a send on a oneshot reports whether the receiving half was there, and leaves its value or `Unheard` |
| `Connections.Connection.Run` | src/connection.rs:76-99 | the actor as a whole realises every run of the machine |
| `Connections.Connection.PollOfferClose` | src/connection.rs:96-99 | the Close event is offered last, then both queues are dropped |
| `Connections.Connection.PollSend` | src/connection.rs:104-115 | one attempt to hand the message in hand to the Sender |
| `Connections.Connection.PollOffer` | src/connection.rs:149-159 | one attempt to hand the event in hand to the user |
| `Channels.Channel.TrySend` | src/connection/connection_hdl.rs:22-22 | a send puts its message at the end, waits when the channel is full, fails when the receiving end is gone |
| `Channels.Channel.TryRecv` | src/connection.rs:79-82 | a receive takes the oldest message |
| `Actors.SenderActor.PollTake` | src/connection/sender.rs:48-68 | takes a message to write, or the Close |
| `Actors.SenderActor.SinkDone` | src/connection/sender.rs:79-93 | a written frame is recorded; a closing error leads to a report, another error to nothing |
| `Actors.SenderActor.PollReport` | src/connection/sender.rs:82-88 | the report waits for room in the internal channel |
| `Actors.SenderActor.Finish` | src/connection/sender.rs:61-64 | the channel is dropped with what is in it |
| `Actors.ReceiverActor.OnFrame` | src/connection/receiver.rs:107-109 | a decoded frame is held for the Connection |
| `Actors.ReceiverActor.PollForward` | src/connection/receiver.rs:109-109 | the held message enters the internal channel, or is lost with it |
| `Actors.ReceiverActor.PollReport` | src/connection/receiver.rs:82-98 | the Connection is told of the end, and the Receiver exits |
| `Actors.ReceiverActor.PollClose` | src/connection/receiver.rs:50-54 | a Close makes the Receiver exit |
| `Actors.InternalHdl.Close` | src/connection/internal_hdl.rs:22-24 | a Close for the Connection; a failed send is ignored |
| `Actors.InternalHdl.NewMessage` | src/connection/internal_hdl.rs:26-31 | a message for the Connection; a failed send is ignored |
| `Actors.ConnectionHdl.RequestWithSender` | src/connection/connection_hdl.rs:38-47 | a request enters the channel with its oneshot, or fails when the Connection is gone |
| `Actors.ConnectionHdl.Event` | src/connection/connection_hdl.rs:70-75 | the same for an event |
| `Actors.ConnectionHdl.Close` | src/connection/connection_hdl.rs:31-36 | the same for a Close |
| `Actors.RequestHandle.Complete` | src/scheme/request_handle.rs:24-30 | the reply with the request's own id enters the Sender's channel |
| `Nodes.Node.Open` | src/connection/connection_hdl.rs:18-29 | a new endpoint: fresh channels and actors in their first state |
| `Nodes.Node.Step` | src/connection.rs:76-99 | the objects realise every step of an endpoint |
| `Nodes.Node.Perform` | src/connection.rs:76-99 | the objects go through every run an endpoint has |
| `Servers.Server.HandleMessage` | src/server.rs:121-140 | realises the machine's step for a message; a listing is answered with all clients |
| `Servers.Server.GetClients` | src/server.rs:159-169 | the listing has every registered address exactly once |
| `Servers.Server.NewConnection` | src/server.rs:177-192 | a registered address is kept, another one is added and shown |
| `Servers.Server.OnConnectionEvent` | src/server.rs:204-230 | a Close removes the entry; each event goes on under its address |
| `Servers.Server.SendRequest` | src/server.rs:245-263 | a request goes to the registered connection; for another address its oneshot is dropped |
| `Servers.Server.AfterHanding` | src/server.rs:251-258 | a failed send costs the entry and the oneshot |
| `Servers.Server.AfterEmitting` | src/server.rs:231-236 | a lost user ends the loop, except when only the news of a connection was lost |
| `Servers.Server.Run` | src/server.rs:85-105 | the actor as a whole realises every run of the machine |
| `Servers.PasserActor.PassMessages` | src/server/connection_passer.rs:19-23 | up to where it has to wait, the loop moves events in order, each with its tag, and loses none |
| `Servers.PasserActor.PollPush` | src/server/server_handle.rs:222-231 | an event enters the server's queue with its address; the passer exits when the server is gone |
| `Hubs.Hub.AcceptStream` | src/server/acceptor.rs:61-74 | Connection and passer start before the server hears of them |
| `Hubs.Hub.HandStep` | src/server.rs:245-279 | a request or an event enters the connection's queue, or the entry goes |
| `Hubs.Hub.TellStep` | src/server.rs:99-103 | closing tells one connection after the other |
| `Hubs.Hub.Step` | src/server.rs:85-114 | the objects realise every step of the server and its connections |
| `Hubs.Hub.Perform` | src/server.rs:85-114 | the objects go through every run the server has |

## Left out

- TCP, TLS, the websocket handshake and framing (tungstenite): the wire is a FIFO of messages. Pings and other noise that the source skips change nothing and have no step.
- JSON text (serde_json): typed messages are on the wire, an encoding or decoding failure is a loss.
- The listener, `get_listen_address`, `client::connect`, the examples, the error texts and the logging: plumbing.
- Real time: see the timeouts above. Receivers dropped between two sends of one turn of `cancel_requests` count as dropped before or after the turn.
- Liveness of the server: Server, Connection and passer can wait for each other in a circle, so what is said of its shutdown is said of runs in which `run` has returned. Closing the acceptor and the listener, which `Server::run` does last, is not modelled; the acceptor may stop at any time.
- Reused addresses: theorems that need fresh addresses say so. That NewConnection precedes the events of its connection is not so and not claimed.
- `Ok` of `complete` or `event` is not a promise that a frame was written, and none is stated.
- Dead arms: `rx.recv()` of the Server giving `None` while its acceptor lives, both arms of the Connection's `select!` disabled, and the Sender's channel closing under it. The Sender is alive while the Connection loop runs and keeps its internal channel open.
- The message and error types that only wrap others (`ServerHandle`, `AcceptorsServerHandle`, `PassersServerHandle`): a message enters the server's queue, as in `Hubs.Hub.Post`.
- The loops of the Sender, the Receiver, the acceptor and the passer are taken apart at their awaits; the order in which the pieces can follow each other is that of the step relations.
- Fairness: which of several enabled steps comes next is arbitrary, and no theorem needs one to be chosen.
