# wssocks: the striped pipe

wssocks proxies TCP streams over several websockets at once. `CopyBuffer` cuts what it reads
from a connection into chunks and puts them in the queue of the stream. `queue.Send` deals the
chunks round-robin over n websockets. The reader of each websocket sorts what arrives into link
buffers by id, and `link.Send` merges the n links of a stream round-robin into the destination.
No sequence numbers travel: order rests on both loops walking the same list of ids. Any number
of streams share the same n websockets, and a websocket's only reader stops while the link
buffer its next chunk belongs to is full.

The project models this protocol as a machine of atomic steps and proves what it promises, and
exactly when, for any n, any buffer capacity of at least one, any chunking, any number of streams
and any interleaving; it models the hubs, queues, links and
loops as classes proved against the functions the machine is built from; and it treats four
smaller parts of the repository in the same way: the token-signalled buffer, the connection
counters, the private-address test and the SOCKS5 request parser.

## How the files build on each other

| files | content |
|---|---|
| Data, Counting, RoundRobin | chunks and ids; counting distinct ids; dealing and merging in a cycle |
| QueueHubModel, LinkHubModel | the two hubs as functions on values, and the barrier that launches `Send` |
| Protocol | one step of one stream: client set-up, server dispatch, both copy loops, both `Send`s, closes |
| Stream, StreamInvariant, StreamSteps | the machine of one stream, its invariant, one lemma for each kind of step |
| Mux, MuxInvariant | any number of streams on shared hubs and websockets; projection to one stream |
| OneEnd, Inputs | what a step changes at one end; what the events of a run delivered, and that the state accounts for it |
| Guarantees, Teardown, Capacity | order, completeness, conservation, refinement to one queue; bounded drain; bounded buffers and who waits |
| Calm, Stamps, Progress, Drain | no cyclic wait; every schedule of internal steps ends with everything delivered |
| Race, SecondLoop, RaceRun | a close that overtakes a launched `Send`: the exact conditions under which order survives and the drain is bounded, and a run that breaks both |
| LostChunk, LinkTimeout | what a link write timeout does: to the lanes, with the exact condition, and in every run that follows it |
| LinkHub, QueueHub, CopyBuffer | classes for pipe/link.go, pipe/queue.go and the copy loop of pipe/func.go |
| BufferedWR, ConnRecord, PrivateRange, Socks5 | the four smaller parts |

## What a step is

- A websocket is a FIFO of messages and a write to it is one step. Stream ids are fresh and distinct.
- Each hub method is one step, since it runs under the hub's mutex. The check and the assignment of
  `status` at the start of a `Send` are one step; the Go code does not lock them.
- A `Send` ends when its loop exits; the later unbuffered send on `done` is not modelled.
- Registering one lane in both client hubs is one step, as is handling one Hi or Est on the server.
- Removing the queue and removing the links of a stream are two separate steps of each side. They may
  happen at any moment after that side has set the stream up, which covers the finish message, the
  end of `establish` or `transData` and an error.
- A queue has as many loops as the guard admits. A close comes in time when it does not find a launched
  `Send` that has yet to reach the guard while a loop has begun. Nothing is assumed of the closes of
  requests, nor of what other streams do. Guarantees about the order of a stream's responses assume that
  the close of its own response queue, which happens at most once, comes in time (`SoundReaches`), and
  nothing else; until that close they hold in every run (`SecondLoop.OpenIsSound`). SecondLoop proves that
  this is exactly what order and a bounded drain need.
- A read, a write, a dial may fail at any time; a write to a connection may fail after any part of a
  chunk. Timeouts are such failures. A link write timeout, after which the reader goes on without the
  chunk, is a step of LinkTimeout only.
- A calm run is one in which dials succeed and no failure and no removal happens. An internal step is
  any step except opening a stream and reading from a connection.
- `Item.at` and `Msg.at`, the moment a message was written, are auxiliary; no step depends on them.

The code and its comments differ in one place that matters here: the comment on the status values says
that `StaSend` means a `Send` is running, but `close` overwrites it, so the guard does not keep a second
loop out after a close (Race, SecondLoop, RaceRun).

## Model

| member | source | states |
|---|---|---|
| RoundRobin.LaneIsMod | pipe/queue.go:87-112 | the cursor of the two nested loops stands at k mod n after k turns |
| RoundRobin.InterleaveStripes | pipe/link.go:62-91 | merging the lanes in the cyclic order undoes dealing, from any starting position |
| RoundRobin.InterleaveResumes | pipe/link.go:62-91 | a merge stopped anywhere leaves lanes whose merge from the cursor completes it |
| Counting.CountedAll | pipe/link.go:224-237 | among n possible lanes, having n of them is having all of them |
| Counting.Expired | pipe/link.go:248-261 | TimeoutClose collects only live expired ids, each once, all of them unless there are 101 |
| Counting.JoinedComplete | pipe/queue.go:193-202 | when each member joins once, the count is complete exactly from the last one on |
| QueueHubModel.ReadyIffComplete | pipe/queue.go:193-202 | over any interleaving the launch rule holds exactly when all writers and the order are there, and then the writers are those of the ordered ids and no others |
| QueueHubModel.QueueBarrier | pipe/queue.go:145-210 | over any interleaving Send is launched exactly by the last Add if the order is known and by TrySend if the writers are complete: once or twice |
| LinkHubModel.LinkBarrier | pipe/link.go:161-245 | over any interleaving Send is launched exactly once, at the later of last Add and TrySend, never before order, connection and all links are there |
| LinkHubModel.GroupRemoval | pipe/link.go:181-199 | RemoveAll takes out exactly the links of the group and leaves every other entry as it was |
| LinkHubModel.RemovalAfterSetup | pipe/link.go:161-199 | after any interleaving of a group's set-up with other groups every link points back to its own master, and RemoveAll takes out the links of all the group's ids and no other |
| StreamSteps.RegisterQueue | wss/wssocks_client.go:251-251 | the client's own queue Add never launches Send, since the order is still empty |
| StreamSteps.RegisterLink | wss/wssocks_client.go:252-252 | the client's own link Add never launches Send and keeps the invariant |
| StreamSteps.ReadyMeansEquipped | pipe/queue.go:193-202 | equal counts on the server mean every lane announced itself and the order arrived |
| StreamSteps.PutGoesToLane | pipe/queue.go:92-111 | the k-th chunk is written to the websocket of lane k mod n under that lane's id |
| StreamSteps.DataFindsLink | wss/proxy_server.go:108-121 | a data message of a stream that is not removed finds its link |
| StreamSteps.HiKeeps | wss/proxy_server.go:78-87 | dispatching a Hi, including the launches it causes, keeps the invariant |
| StreamSteps.EstKeeps | wss/proxy_server.go:88-107 | dispatching an Est keeps the invariant |
| StreamSteps.ConnectKeeps | wss/proxy_server.go:188-200 | the dial and the launch of the link loop keep the invariant |
| StreamSteps.ServeKeeps | wss/proxy_server.go:217-233 | starting the response direction keeps the invariant; once the queue was removed there is no copy loop |
| StreamSteps.StartQueueKeeps | wss/wssocks_client.go:268-291 | starting the request direction keeps the invariant |
| StreamSteps.StartLinkKeeps | wss/wssocks_client.go:294-304 | starting the client's link loop keeps the invariant, also on a link that has left the hub |
| Stream.TxKeeps | pipe/queue.go:53-129 | every step of the copy loop, of queue.Send and of a close in time keeps the sender invariant |
| Stream.TxShapeKeeps | pipe/queue.go:74-129 | every step, late closes included, leaves the loops inside the order of a fully equipped queue |
| Stream.RxKeeps | pipe/link.go:48-141 | every step of link.Send and of RemoveAll keeps the receiver invariant: each lane holds its share of what is still to be merged |
| StreamSteps.StepKeeps | wss/wssocks_client.go:182-312 | every step of a stream, of either side, direction and loop, keeps the set-up, the whole request direction and the shape of the response direction; it keeps the order of responses unless it is a close of the response queue that comes late |
| MuxInvariant.Projection | wss/websocket_client.go:98-152 | a step of the shared system is that step of one stream on its own part of hubs and websockets, and no other stream can tell |
| MuxInvariant.ReachableAlways | wss/wssocks_server.go:57-69 | in every reachable state of any number of streams, set-up, requests and shape of every stream are as they should be |
| MuxInvariant.ReachableSound | wss/wssocks_server.go:57-69 | the request direction of a stream satisfies its invariant in every reachable state, the response direction in every state reached with its own close in time |
| Inputs.InputAccounted | pipe/func.go:72-103 | in every run the bytes counted as read are those the read events delivered, and the chunks that entered the channel, with the one in the copy loop's hand, are one chunk for each read, as it was read, and an end mark for the end; after a failed push, the first of them |
| Inputs.MarkInLine | pipe/func.go:99-103 | an end mark is in the channel only if the end was read, and always if no push failed and nothing is in hand |
| Inputs.FailedDial | wss/proxy_server.go:188-192 | after a dial that failed nothing is ever given to a destination or read from one, in any run |
| Guarantees.InOrder | pipe/link.go:62-91 | in every run, with any failures and any closes, the bytes given to the server's destination are a prefix of the bytes that the run's read events delivered from that stream's client; it is half-closed only after the end was read, and then has all of them; for responses the same if the close of that stream's own response queue comes in time |
| Guarantees.ShutForever | pipe/link.go:77-85 | a half-closed destination has everything the run delivered, and in every continuation, late closes included, nothing more is delivered or written in that direction |
| Guarantees.FailedWrite | pipe/link.go:77-81 | a write to a destination may fail after any number of bytes of its chunk; the destination then has exactly that many more of what was read, in order, and the merge is over |
| Guarantees.Conservation | pipe/queue.go:53-111 | the accepted chunks are exactly those given to the destination, whose bytes are the output, then the chunk in the merge's hand, the lanes re-interleaved from the receive cursor, the chunk in the sender's hand and its buffer; before and after the end of the stream, while the links are not removed and Send has not given up |
| Guarantees.ReachableConservation | pipe/link.go:62-91 | the same in every reachable state, for responses reached with their own close in time, the lanes being the stream's share of the shared hub and websockets |
| Guarantees.PipeIsFifo | pipe/link.go:67-90 | the merge's hand, lanes, sender's hand and buffer together behave as one queue: every step enqueues the pushed chunk, writes out the oldest, or changes neither queue nor output |
| Guarantees.EventIsFifo | pipe/queue.go:92-111 | the same for every event of the shared system, for responses while their own close comes in time; events of other streams are no step |
| Guarantees.Registered | pipe/queue.go:92-94 | a launch rule that holds means the registered ids are exactly the ordered ones; no lookup of a running loop misses before removal; the merge is launched at most once |
| Guarantees.ReachableRegistered | pipe/link.go:67-89 | the same in every reachable state of the shared hubs |
| Guarantees.OneDrainLoop | pipe/queue.go:74-86 | a launched Send that finds a loop begun is turned away and changes nothing, on the client always, on the server while that queue's close comes in time |
| Teardown.SenderDrains | pipe/queue.go:87-112 | after a close during the only loop, with no launched Send that could start another, queue.Send receives at most as many more chunks as the order is long and takes at most twice as many steps and one, in every continuation; until it has ended it can always take the next |
| Teardown.MergerDrains | pipe/link.go:62-91 | after RemoveAll, link.Send receives at most one more chunk and takes at most three more steps, in every continuation; exactly the number that its position gives unless it fails or meets the end mark; once launched it can always take the next until it is over |
| Teardown.RemovalKeepsReceive | pipe/func.go:134-143 | a receive in progress when the links are removed gets what it would have got, and a zero value where it would have waited |
| Capacity.BuffersBounded | pipe/func.go:146-151 | in every reachable state every link buffer, and the buffer of every queue in the hub or gone from it, holds at most its capacity |
| Capacity.ReaderWaitsIff | pipe/link.go:107-125 | in every reachable state the reader of a websocket cannot dispatch the data message at its head if and only if the link of that message is full and its merge has not ended |
| Capacity.PusherWaitsIff | pipe/queue.go:53-71 | in every reachable state a copy loop cannot push the chunk in its hand if and only if the queue is full, closed, or its Send has ended |
| Capacity.EndedTakesNothing | pipe/queue.go:54-56 | once queue.Send has ended nothing enters its channel |
| Capacity.FailedSend | pipe/queue.go:94-110 | a receive or write of queue.Send may fail at any time; the loop then ends, what it has not sent stays in the channel, and nothing more enters |
| Capacity.FailedPush | pipe/func.go:82-93 | a push may fail at any time; the copy loop then stops and the chunk in its hand does not enter |
| Capacity.OverNeverBlocks | pipe/link.go:53-57 | in every run, once link.Send is over, what still arrives on the master's lane is dropped and never holds up its websocket |
| Stamps.StampsKept | wss/wssocks_server.go:57-69 | in every run, messages on a websocket stay in the order they were written, across streams and loops, and set-up messages precede a stream's data |
| Progress.OldestCanMove | pipe/link.go:107-125 | the oldest message of a direction always has an enabled step that advances it: its reception, a merge step that makes room in its link, or a set-up step the merge waits for; for any buffer capacity |
| Progress.OldestAdvances | wss/proxy_server.go:78-137 | in every reachable calm state with a message on a websocket, the oldest one over both directions has an enabled step that advances it |
| Progress.WiresEmpty | wss/wssocks_client.go:215-226 | a calm state in which nothing can move has no undelivered Hi, Est or data message |
| Progress.QuietMeansDelivered | pipe/link.go:62-91 | after a calm run in which nothing can move any more, every byte its read events delivered has been written to its peer, both ways; a destination is half-closed if and only if the end of its source was read, and then that copy loop has stopped |
| Drain.InternalDecreases | pipe/queue.go:87-112 | every internal step decreases one measure of remaining hops |
| Drain.InternalRunsEnd | pipe/queue.go:87-112 | a run of internal steps is no longer than the measure it starts with |
| Drain.MaximalRunDelivers | pipe/link.go:62-91 | however internal steps are scheduled after a calm reachable state, they end; then every byte delivered has been written, and exactly the ends that were read have been passed on |
| Drain.InFlightDrains | wss/proxy_server.go:108-137 | from every calm reachable state such a run exists |
| Drain.InputArrives | pipe/func.go:76-103 | while a connection is being read, any further input or its end can come, and a run then carries it to the other side, where the end half-closes |
| Race.ClientNeverRaces | wss/wssocks_client.go:268-278 | in every run, the client never has a launched Send left while a loop has begun, so every close there comes in time |
| Race.SecondLoopStarts | pipe/queue.go:74-86 | a launched Send that reaches the guard after a close starts a further loop if and only if one had begun |
| Race.LoopsShare | pipe/queue.go:87-112 | the further loop can hold the next chunk while the first sends the one after it on the lane of the next |
| Race.Commutes | pipe/queue.go:121-129 | until a loop receives, the raced system takes the same steps as the one that was not closed |
| Race.DrainTogether | pipe/queue.go:87-129 | whatever state other streams are in, the raced system and the one that was not closed can go on together until nothing but its sender can bring a calm stream forward |
| Race.RaceBreaks | pipe/queue.go:74-129 | from every state in which the close of a calm stream would race and two distinguishable chunks are ahead, whatever the other streams did, the close has a continuation that breaks its order |
| SecondLoop.OpenIsSound | pipe/queue.go:121-129 | a response queue is closed at most once, so until then both directions of its stream satisfy their invariants in every run |
| SecondLoop.TimelyCloseKeepsOrder | pipe/queue.go:121-129 | a close that does not race keeps what is written a prefix of what was delivered, in every continuation, whatever happened before |
| SecondLoop.CloseKeepsOrderIff | pipe/queue.go:74-129 | for a stream that has been calm, with two distinguishable chunks ahead, a close keeps its order in every continuation if and only if it finds no launched Send before the guard while a loop has begun |
| SecondLoop.RaceUnboundsDrain | pipe/queue.go:87-112 | in every run, after a close that races with no end mark ahead, for every m some continuation lets the first loop receive m more chunks |
| SecondLoop.DrainBoundedIff | pipe/queue.go:74-129 | for every close in every run that finds a loop running with no end mark ahead, what the loop receives over all continuations is bounded if and only if the close does not race |
| RaceRun.RaceHappens | wss/proxy_server.go:78-107 | a run over two websockets, with the second Hi after Est and dial, in which Send is launched twice and a close would race |
| RaceRun.OrderBreaks | pipe/queue.go:74-129 | a run of the machine over two websockets that gives a destination bytes out of order |
| RaceRun.DrainUnbounded | pipe/queue.go:87-112 | a run of the machine over two websockets after which no number bounds what the loop receives after its close |
| LostChunk.LossyMerge | pipe/link.go:107-125 | from lanes one of which misses a chunk, every chunk comes out at its place, except that the lane of the lost one is a round ahead, up to where that lane runs out |
| LostChunk.LossLeavesGap | wss/proxy_server.go:135-136 | then the output is a prefix of what was sent if and only if all later chunks of that lane equal the lost one |
| LinkTimeout.LossyStep | pipe/link.go:62-125 | every calm step of a stream that lost a chunk keeps: received, buffered and on the wire make up each lane without that chunk, and the output is what was received |
| LinkTimeout.TimeoutShiftsLane | wss/wssocks_client.go:215-226 | after the timeout of a response chunk the merge receives, in every continuation calm for its stream, each chunk at its place except that the lane of the lost one is a round ahead, and writes their bytes |
| LinkTimeout.LostPlace | wss/wssocks_client.go:219-221 | in what is written, the bytes of the chunk one round later follow directly on the bytes before the lost chunk: a gap |
| LinkHub.MergedStep | pipe/link.go:67-90 | one more receive from the lane under the cursor keeps each lane's share exact |
| LinkHub.MergedIsInterleave | pipe/link.go:62-91 | what the loop received, followed by the merge of what is left, is the merge of what there was |
| LinkHub.Conn.Write | pipe/func.go:116-131 | an end mark half-closes and writes no bytes, data is appended, a failing write puts out a part of its data; each success uses up one write |
| LinkHub.Link.Close | pipe/link.go:133-147 | closes the channel only if the status is not closed yet |
| LinkHub.Link.WriteBuf | pipe/link.go:107-125 | refused exactly after the end of Send, else lost exactly on a closed channel, else waiting exactly when full, else appended; never over capacity |
| LinkHub.LinkHub.Add | pipe/link.go:161-178 | the map becomes AddLink of the old one and Send is launched exactly when the rule holds |
| LinkHub.LinkHub.SetSort | pipe/link.go:212-221 | the map becomes SortLink of the old one |
| LinkHub.LinkHub.TrySend | pipe/link.go:224-245 | the connection is kept if the master exists, and the result is the launch rule |
| LinkHub.LinkHub.Get | pipe/link.go:202-209 | the entry of the id, or none |
| LinkHub.LinkHub.RemoveAll | pipe/link.go:181-199 | the map becomes RemoveGroup of the old one; every link of the group that was in it is closed and says so, and no other link ever created changes |
| LinkHub.LinkHub.TimeoutClose | pipe/link.go:248-266 | only expired links leave, all of them unless there are 101; those are closed and say so, no other link changes |
| LinkHub.LinkHub.Take | pipe/link.go:68-76 | lookup and receive: the first chunk of that link leaves, nothing else changes |
| LinkHub.LinkHub.Merge | pipe/link.go:62-91 | the bytes written are those of the chunks received in the cyclic order, and a part of the last if its write failed; each link gave exactly its share; the reason for leaving is true, and the connection is given up only when no write succeeds any more |
| LinkHub.LinkHub.Send | pipe/link.go:48-92 | turned away exactly when running or done; otherwise as Merge, and done at the end |
| LinkHub.AnyRun | pipe/link.go:133-266 | over every sequence of hub operations and status overwrites by Send, no channel is closed twice and every open link is in the map |
| QueueHub.Queue.Close | pipe/queue.go:121-129 | closes the channel only if the status is not closed yet |
| QueueHub.Queue.WriteBuf | pipe/queue.go:53-71 | refused exactly after the end of Send, else lost exactly on a closed channel, else waiting exactly when full, else appended; never over capacity |
| QueueHub.DrainedStep | pipe/func.go:134-143 | a receive yields the oldest chunk, and zero values only from a closed and empty channel |
| QueueHub.Queue.Put | pipe/queue.go:92-109 | the writer whose turn it is sends the chunk; every writer keeps exactly its share |
| QueueHub.Queue.Deal | pipe/queue.go:87-112 | the writers sent exactly their shares of the channel's contents in order and used up as many writes; the reason for leaving is true; the end mark is passed on, and a chunk not given up, unless the writer in turn can write no more |
| QueueHub.Queue.Send | pipe/queue.go:74-113 | turned away exactly when running or done; otherwise as Deal, and done at the end |
| QueueHub.QueueHub.Add | pipe/queue.go:145-156 | the map and the launch are those of the Add event on values |
| QueueHub.QueueHub.SetSort | pipe/queue.go:181-190 | the map is that of the SetSort event on values |
| QueueHub.QueueHub.TrySend | pipe/queue.go:193-210 | launched exactly when the rule holds |
| QueueHub.QueueHub.Remove | pipe/queue.go:159-168 | the queue is closed, its status says so to a running Send, and it leaves the map; no other queue ever created changes |
| QueueHub.QueueHub.TimeoutClose | pipe/queue.go:213-231 | only expired queues leave, all of them unless there are 101; those are closed and say so, no other queue changes |
| QueueHub.AnyRun | pipe/queue.go:121-231 | over every sequence of hub operations and status overwrites by Send, no channel is closed twice and every open queue is in the map |
| CopyBuffer.Pipe.Write | pipe/queue.go:41-45 | the queue keeps a copy of the slice; earlier chunks keep their bytes |
| CopyBuffer.FillBuffer | pipe/func.go:72-79 | a read into the reused buffer alters no queued chunk |
| CopyBuffer.Copy | pipe/func.go:50-112 | the queue gets, in this order, one chunk for each non-empty read except a failed last write, and the end mark behind them if a read ends the loop and the queue takes it; the count is their bytes; WriteEOF is called once if a read ends the loop and never if a write does |
| CopyBuffer.FlatChunks | pipe/func.go:80-98 | the chunks concatenated are the bytes read |
| CopyBuffer.HandedIsPrefix | pipe/func.go:80-103 | what the queue accepted is a prefix of what was read, and all of it, with nothing behind the mark, if the mark got in |
| BufferedWR.TokenBuffer | wss/buffered_reader_writer.go:18-69 | in every reachable state bytes read are a prefix of bytes written, a waiting reader can go on as soon as there are bytes, nobody sends on a closed channel |
| BufferedWR.TakeIsFull | wss/buffered_reader_writer.go:63-68 | in every reachable state a Read takes as much as was asked for, or all there is; nothing once closed |
| BufferedWR.BlockedWriterIsFreed | wss/buffered_reader_writer.go:34-48 | a writer blocked on the full channel with the mutex held is freed by the reader: no deadlock |
| BufferedWR.EarlyEof | wss/buffered_reader_writer.go:52-69 | over interleaved runs a Read reports EOF without Close if and only if, on entry, the buffer is empty, a token is left and no writer holds the mutex, and no write begins before its critical section; everything written was read by then |
| BufferedWR.EarlyEofHappens | wss/buffered_reader_writer.go:54-68 | a run with such an EOF |
| BufferedWR.Buffered.Close | wss/buffered_reader_writer.go:18-27 | a step of the machine; the channel is closed once |
| BufferedWR.Buffered.Write | wss/buffered_reader_writer.go:34-48 | either blocks, exactly on an empty buffer with a token left, or takes the steps of the machine |
| BufferedWR.Buffered.Read | wss/buffered_reader_writer.go:52-69 | either blocks or takes the steps of the machine; gives as many bytes as were asked for or there are; without a close it reports EOF exactly when a token is left on an empty buffer |
| ConnRecord.ConnRecord.Update | wss/conn_records.go:35-56 | the fatal branch is taken exactly when no connection to that address is open; otherwise the counters stay exact below 2^64 connections, the hub lengths are taken over and OnChange is told |
| ConnRecord.ConnRecord.Exact | wss/conn_records.go:11-14 | the total is the sum of the entries and no entry is zero |
| ConnRecord.SumOfCounts | wss/conn_records.go:11-14 | a map of multiplicities sums to the number of connections |
| ConnRecord.Replay | wss/wssocks_client.go:135-136 | over every run in which each close follows its open, the fatal branch is not reached and the counters are the live connections, in total and by address |
| PrivateRange.CompareIsNumeric | wss/privite.go:57-57 | comparing addresses of one length byte by byte is comparing big-endian numbers, for any length |
| PrivateRange.BlocksArePrefixes | wss/privite.go:24-29 | each range holds exactly the addresses of one prefix of section 3 of RFC 1918, as 32-bit numbers |
| PrivateRange.MappedIff | wss/privite.go:52-55 | the test for an IPv4 address holds exactly for the IPv4-mapped addresses of section 2.5.5.2 of RFC 4291, as 128-bit numbers |
| PrivateRange.CheckIp | wss/privite.go:47-64 | true exactly for the text 127.0.0.1 and IPv4 addresses in the three prefixes |
| PrivateRange.CheckAddr | wss/privite.go:32-44 | true exactly if some looked-up address is private or the number of 127.0.0.1 |
| Socks5.ParseHeader | wss/proxy_client_socks5.go:28-87 | an error if greeting or reading fails or fewer than six bytes came, else the request decoded from the zero-padded buffer |
| Socks5.DecodedIff | wss/proxy_client_socks5.go:44-86 | fewer than six bytes are refused; any other read is decoded to a destination if and only if the encoding of its host of section 5 of RFC 1928 stands behind the header, or the address type is unknown and there is no host, and the last two bytes are its port |
| Socks5.TriggerIff | wss/proxy_client_socks5.go:19-21 | SOCKS5 is spoken exactly to data that begins as a greeting of section 3 of RFC 1928 |
| Socks5.RoundTrip | wss/proxy_client_socks5.go:44-86 | for every IPv4, IPv6 or domain destination and port, one request of sections 4 and 5 of RFC 1928 in one read comes back as it was sent |
| Socks5.DecodeWithExtra | wss/proxy_client_socks5.go:80-86 | with extra bytes in the same read the host is right, and the port is right if and only if the extra bytes are none or end so that the port bytes are last again |

## Left out

- Websocket framing, JSON, base64, KSUID generation, TCP dialing and DNS: library code, taken as FIFO channels, identity encoding, fresh ids and arbitrary results.
- Clocks: deadlines, slow-read logging and `dead.Line` appear only as failures that may happen at any time.
- Full delivery in runs with closes: the finish message on the master socket can overtake data on other sockets, so only calm runs deliver everything.
- LinkTimeout.TimeoutShiftsLane: one timeout of the client's reader, in a stream without closes and failures; several timeouts in one stream, and runs after a timeout of a server's reader, are not modelled.
- SecondLoop.CloseKeepsOrderIff: the breaking half needs two chunks ahead of the sender that no output can confuse; with fewer, or with repeating bytes, an untimely close may go unnoticed.
- Ending of a `Send` that starts after the close: the guard admits it; on the classes it ends only because the writers' credit is finite.
- Leftover hub entries after a failed dial, or when a removal comes before SetSort: the code keeps them and so does the machine; nothing is claimed about them.
- The nil writer in `establish` when the queue was removed before `serverQueueHub.Get`: the machine starts no copy loop then; neither the crash of `Wait` on nil nor copying into an entry that a late Hi left behind, from which nothing is ever sent, is modelled.
- TimeoutClose in the stream machine: no code calls it; it is part of AnyRun on both hubs only.
- The proxy table of `WebSocketClient` (NewProxy, GetProxyById, RemoveProxy): a message for a removed proxy is the silent drop the machine calls Discard.
- Concurrency inside one class method: the classes run whole calls, the interleavings are in the machine; `Merge` and `Deal` see the buffers as they are when they run.
- Counting.Expired: which ids are older than an hour is a parameter, since the clock is not modelled.
- PrivateRange.CheckIp: the textual form of an address is a parameter, as the library prints and parses it.
- Socks5.ParseHeader: joining host and port into text, and the text of an address, are library printers; hosts stay bytes. The two bytes of the method selection are not modelled, only whether they could be written.
- `Hub`, `HubCollection`, the status page, heartbeat, version negotiation, plugins, command line, terminal view and the HTTP proxy front end: shallow branches and plumbing.
- pipe/tcp.go and `localVisit`: a copy loop between two connections without striping.
