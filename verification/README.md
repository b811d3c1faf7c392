# chappe, modelled and verified

chappe is a message broker: a daemon (`include/server.hpp`), client nodes
(`include/node.hpp`), a device-to-device link (`include/link.hpp`), a framed
byte-stream transport (`include/ipc/transport.hpp`) and a lock-free
shared-memory frame ring (`src/shm_ring.c`). This project models those five
files and proves what they are for, over every input, every interleaving and
every reachable state. `dafny verify dfyconfig.toml` checks all of it.

How it is organised:

- **The ring.** `RingModel` is a step machine with one atomic access per step,
  for any number of slots and consumers; `RingInvariant` is what every step
  keeps; `RingRuns` states the guarantees over whole runs; `RingOrder` says when
  successive retains can go back; `RingCode` is the C code itself, as a class whose methods perform those accesses while the other
  threads run in between.
- **Framing and topics.** `Framing` is the frame format as a pair of pure
  functions, `FrameReader` the incremental reader and the partial-write loop over
  sockets that cut the stream anywhere, `Topics` the wildcard matcher, `Wire` which
  frame stands for which request, `Limits` which answers are too long for the reader.
- **The daemon.** `KvStore` says for each verb what store it leaves and which
  frames it sends to whom; `KvRuns` proves locks and counters over any
  interleaving of clients; `Server` is the daemon's object with all of its
  indexes, proved to do what `KvStore` and one matcher say; `DaemonRuns` says by the
  history alone who is sent a publish and what a late subscriber is sent first;
  `Int64` is 64-bit wrap-around.
- **The nodes.** `NodeClient` is the node's object; `Cluster` puts a daemon, FIFO
  connections that may break at any point, and the nodes' caches together;
  `SyncBarrier` is what a node may rely on after sync(), `Answers` what request()
  returns; `Requests` follows
  promises through reply, timeout, failed send and teardown; `Resubscribe` follows
  subscriptions through link drops. The object's methods are proved to take the
  steps of the last two.
- **The link.** `LinkProcess` is the link's object; `LinkDevice` one device with
  its link and expected echoes; `TwoDevices` a pair of them (no ping-pong);
  `Replication` one key with one owner; `TwoWriters` what goes wrong with two,
  `Leftovers` what a key needs besides an owner;
  `LinkPublish` publishes across the pair.

Conventions. A clock reading, a scheduling choice, an order in which a hash map
is walked, and what a socket delivers are parameters of the steps. A handler that
runs under one lock is one step. Bytes are integers 0 to 255 and u32 and u64
fields are little-endian. In the ring, accesses are interleaved in one order, as
sequential consistency gives them (section 7.17.3 of ISO/IEC 9899:2011); the
relaxed pre-filter may return anything except where starvation is concerned.

The echo argument of the link is a counting one. Echoes are recognised by key and
value, not by origin, so the link may swallow another client's write and forward
its own echo in its place; `LinkDevice.Balanced` says that the two cannot be told
apart in number. The measure of `TwoDevices.NoPingPong` gives a frame
weight 4 while it is on its way between the links or waiting to be forwarded,
3 while the link holds it between expecting its echo and sending it on, 2 on its
way to the daemon and 1 on its way back.

Findings about the code, each with the input that shows it and the exact condition:

- Two kinds of answer can be too long to read, and the node that asked then drops its
  link; no other frame that the daemon sends on account of a readable one is
  (`Limits.FramesFitIff`). A value of more than `MAX_FRAME_BYTES` - 5 bytes, though no
  longer than `MAX_FRAME_BYTES`, can be set but not read, the reply to a GET putting five
  bytes in front of it (`Limits.LongValueCannotBeRead`). An INFO whose text is longer than
  `MAX_FRAME_BYTES` - 4 cannot be read, and one subscription to a long topic name makes it so
  (`Limits.LongTopicHidesStatus`).
- Successive retains of the ring can go back by a frame, and `RingOrder.RetainsCanGoBack`
  is a run with two slots in which they do. They do exactly if the first one is ahead of
  last_ready, last_ready has not moved until the second one loads it, and the slot it then
  designates takes no new frame before the second one validates it
  (`RingOrder.RetainsGoBackOnlyWhenAhead`).
- A name held both as a topic and as a pattern has one subscription at the daemon, so
  unsubscribing one of the two silences the other: `Resubscribe.SharedIsLost` is a run
  that ends so, `Resubscribe.UnsubscribeIsCompleteIffUnshared` the exact condition, and
  `Resubscribe.ReconnectIsComplete` holds for every run that never does it.
- A name unsubscribed after the snapshot of a reconnect and before its resend stays
  subscribed at the daemon: `Resubscribe.DroppedIsResent` is a run that ends so,
  `Resubscribe.UnsubscribeIsExactIffNotResent` the exact condition, and
  `Resubscribe.TableIsExact` holds for every run that does neither this nor the above.
- Two devices that write the same key at the same time can end with the values swapped
  for good: `TwoWriters.WritersCanSwap`, for any key and any two values. One owner is not
  enough: if B still holds a value of A's key when the links connect, as after a restart of
  the link, that value is forwarded too, and the two can end swapped without anybody
  writing (`Leftovers.LeftoverIsSwapped`). With one owner the stores agree at rest in every
  run if and only if the other device does not hold the key when the links connect
  (`Leftovers.OwnedStoresAgreeIffAbsent`).

## Model

| member | source | states |
|---|---|---|
| `RingInvariant.StepInv` | src/shm_ring.c:242-374 | every atomic access of every thread keeps the ring's invariant: exact refcounts, WRITING exactly on owned or marked slots, every offered slot a whole published frame, last_ready READY and newest |
| `RingRuns.RetainedFrameIsStable` | src/shm_ring.c:253-302 | from the moment retain returns a slot until it is released, the producer neither owns nor writes it and its payload stays the one published frame it was |
| `RingRuns.RefcountsAreExact` | src/shm_ring.c:352-374 | in every reachable state each refcount is the number of consumers claiming or holding the slot |
| `RingRuns.LastReadyIsReady` | src/shm_ring.c:305-317 | last_ready always designates a READY slot, not the producer's, that holds the newest landed frame |
| `RingRuns.RetainIsFresh` | src/shm_ring.c:338-363 | a retained frame is at least as new as last_ready at the winning load and at most one newer than last_ready at validation |
| `RingRuns.RetainsGoBackByAtMostOne` | src/shm_ring.c:332-366 | a retain that starts after another one validated goes back by at most one frame, whichever consumers made them |
| `RingOrder.AheadIsMidPublish` | src/shm_ring.c:314-316 | a retain is ahead of last_ready only if it validates between the two stores of a publish |
| `RingOrder.RetainReturns` | src/shm_ring.c:338-363 | a retain returns the frame last_ready designated at its winning load, or, if that slot has taken a new frame before the validation, one newer than that |
| `RingOrder.RetainsGoBackOnlyWhenAhead` | src/shm_ring.c:314-366 | a later retain returns an older frame if and only if the earlier one was ahead, last_ready has not moved until the later one loads it, and the slot it then designates takes no new frame before the validation |
| `RingOrder.RetainsCanGoBack` | src/shm_ring.c:314-316 | a run with two slots and two consumers in which a later retain returns frame 1 after an earlier one returned frame 2 |
| `RingRuns.RetainFailsOnlyUnderChurn` | src/shm_ring.c:332-366 | after the first publish a retain fails only if at least SHM_RETAIN_TRIES publishes landed during the call |
| `RingRuns.ScanMeetsEverySlot` | src/shm_ring.c:250-251 | the modular scan visits every slot within its attempts |
| `RingRuns.StarvedIsCrowded` | src/shm_ring.c:250-302 | a scan that runs out has met the published slot, owned slots and at most one slot per consumer: no more slots than those exist |
| `RingRuns.NoStarvation` | src/shm_ring.c:250-302 | with two slots more than consumers and in-flight slots, acquire never returns -1 |
| `RingCode.Ring.PreemptProducer` | src/shm_ring.c:332-374 | whatever consumers do between two accesses of the producer, only refcounts and consumers change |
| `RingCode.Ring.PreemptConsumer` | src/shm_ring.c:242-374 | whatever the others do between two accesses of a consumer, that consumer stands where it stood and frames only accumulate |
| `RingCode.Ring.ReadCount` | src/shm_ring.c:262-265 | the pre-filter: a counted slot ends the attempt, others go on |
| `RingCode.Ring.ReadState` | src/shm_ring.c:267-271 | a slot being written ends the attempt; otherwise its state is remembered and it is not the producer's |
| `RingCode.Ring.StoreWriting` | src/shm_ring.c:283-284 | the mark changes that slot's state and nothing else |
| `RingCode.Ring.ReadCountAgain` | src/shm_ring.c:285-299 | a count of zero after the mark makes the slot the producer's; any other leaves the mark to be undone |
| `RingCode.Ring.StorePrevious` | src/shm_ring.c:292-295 | backing off restores the state the slot had |
| `RingCode.Ring.ClaimOrUndo` | src/shm_ring.c:283-299 | claim and re-check either hand over the slot or leave everything as it was |
| `RingCode.Ring.Visit` | src/shm_ring.c:250-299 | one turn of the scan either acquires a slot that is neither published nor owned or leaves everything as it was |
| `RingCode.Ring.AcquireSlot` | src/shm_ring.c:242-303 | the acquired slot was nobody's: not published, not owned, held by no consumer, and nothing else changed; -1 only if every slot is published, owned or a consumer's |
| `RingCode.Ring.PublishSlot` | src/shm_ring.c:305-317 | the payload becomes the newest frame and the slot is offered and no longer owned |
| `RingCode.Ring.AbandonSlot` | src/shm_ring.c:319-330 | the slot is free again and nothing else changed |
| `RingCode.Ring.TryRetain` | src/shm_ring.c:338-363 | one try either holds a slot fresh enough, fails for want of a published frame, or undoes its claim |
| `RingCode.Ring.RetainLatest` | src/shm_ring.c:332-367 | a returned slot is held, shows one published frame, at least as new as at the call and at most one back from the consumer's last; failure means nothing published yet or SHM_RETAIN_TRIES landings |
| `RingCode.Ring.ReleaseSlot` | src/shm_ring.c:369-374 | exactly the held slot's refcount drops by one |
| `Framing.U32RoundTrip` | include/ipc/transport.hpp:405-409 | an appended u32 reads back as the number modulo 2^32 |
| `Framing.U32Injective` | include/ipc/transport.hpp:463-469 | four bytes are the encoding of the number they read as |
| `Framing.Decode` | include/ipc/transport.hpp:440-460 | what decodes is the emitted frame followed by the rest, and it fits |
| `Framing.RoundTrip` | include/ipc/transport.hpp:413-424 | an emitted frame decodes to itself, whatever follows, if and only if its name and payload fit MAX_FRAME_BYTES |
| `Framing.TruncatedIsNothing` | include/ipc/transport.hpp:440-460 | a proper prefix of a fitting frame decodes to nothing |
| `Framing.OversizedIsRefused` | include/ipc/transport.hpp:451-453 | a frame whose payload is longer than the limit decodes to nothing, whatever follows |
| `Framing.MoreInput` | include/ipc/transport.hpp:440-460 | more input never changes a frame that is already there |
| `Framing.StreamRoundTrip` | include/ipc/transport.hpp:413-460 | any stream of fitting frames, with an undecodable tail or none, yields exactly those frames in order |
| `Framing.TruncatedStream` | include/ipc/transport.hpp:440-460 | the same for a stream cut anywhere inside its last frame |
| `FrameReader.Socket.Recv` | include/ipc/transport.hpp:492-498 | recv as the reader sees it: some of the pending bytes in order, a retry, or the end for good |
| `FrameReader.Reader.Fill` | include/ipc/transport.hpp:479-499 | compacting, growing and receiving never lose or reorder a byte; the new buffer size is as stated |
| `FrameReader.Reader.Require` | include/ipc/transport.hpp:471-477 | true exactly when that many bytes are still to come; 0 <= pos_ <= end_ <= size and 4096 <= size <= MAX_FRAME_BYTES are kept |
| `FrameReader.Reader.Take` | include/ipc/transport.hpp:441-443 | takes exactly the next bytes of the stream, if there are enough |
| `FrameReader.Reader.ReadField` | include/ipc/transport.hpp:444-457 | takes exactly the field the plain decoder takes, if it does |
| `FrameReader.Reader.Next` | include/ipc/transport.hpp:440-460 | returns the frame the plain decoder finds on the unread stream and leaves what the decoder leaves; false exactly when the decoder finds none |
| `FrameReader.ReadAll` | include/server.hpp:162-168 | the frames a read loop sees are those of the plain decoder on the whole stream, whatever the chunking |
| `FrameReader.Sink.WriteFull` | include/ipc/transport.hpp:389-403 | true exactly when all bytes were written, in order, over any sequence of partial writes and interruptions; otherwise a proper prefix was |
| `Topics.LevelsJoin` | include/ipc/transport.hpp:205-218 | joining the levels of a name gives the name, and no level holds a slash |
| `Topics.LevelsUnique` | include/ipc/transport.hpp:205-218 | slash-free levels are the levels of their join |
| `Topics.LevelsInjective` | include/ipc/transport.hpp:205-218 | names with equal levels are equal |
| `Topics.TopicLevels` | include/ipc/transport.hpp:205-218 | the splitting loop computes the levels |
| `Topics.TopicMatches` | include/ipc/transport.hpp:224-239 | the matching loop decides the match that the next three rows say the meaning of |
| `Topics.MatchesIff` | include/ipc/transport.hpp:198-203 | for any mix of wildcards: up to the first star, or else up to the end of both, each level of the pattern is a plus or the level of the topic |
| `Topics.PlusIsAnyLevel` | include/ipc/transport.hpp:233-234 | a plus between plain levels matches exactly the topics with one level, whatever it is, in its place |
| `Topics.StarIsTheRest` | include/ipc/transport.hpp:229-230 | a star after plain levels matches exactly the topics that begin with those levels, with any number more or none |
| `Topics.PlainMatchesOnlyItself` | include/ipc/transport.hpp:220-239 | a wildcard-free name matches a topic if and only if they are equal |
| `Int64.WrapAdd` | include/server.hpp:314-316 | wrapping after each addition is wrapping the sum |
| `Wire.RequestRoundTrip` | include/server.hpp:170-342 | the daemon reads back exactly the request a client encoded |
| `Wire.PushRoundTrip` | include/node.hpp:653-706 | a node reads back exactly the push the daemon encoded |
| `Limits.FramesFitIff` | include/server.hpp:170-355 | for every frame a node can send: all frames it makes the daemon send to anybody can be read, if and only if it is neither a GET that finds a value longer than the limit less five nor an INFO whose text is longer than the limit less four |
| `Limits.HandledSendsCaused` | include/server.hpp:170-355 | those are the frames a handled frame makes the daemon send: each client gets exactly them, or of a publish it does not want nothing |
| `Limits.ClusterSendsCaused` | include/server.hpp:239-351 | and of a verb, a PING or an INFO those that the daemon of `Cluster` sends |
| `Limits.RetainedStillFits` | include/server.hpp:228-238 | what is retained came in a frame that fits, so its replay fits |
| `Limits.LongTopicHidesStatus` | include/server.hpp:343-351 | for every topic name of nearly the greatest length: subscribing to it and asking for INFO fit, and no reader decodes an answer that names it, nor anything after it |
| `Limits.LongValueCannotBeRead` | include/server.hpp:281-289 | for every such value: the SET and the GET fit, the GET is answered with the value, and no reader decodes the answer or anything after it |
| `KvStore.DeadlinesKept` | include/server.hpp:383-411 | only stored keys have deadlines, after every verb, sweep and departure |
| `KvStore.VanishesOnlyWhenDue` | include/server.hpp:396-411 | a verb makes a key vanish only by deleting it or by finding its deadline passed |
| `KvStore.GetSeesOnlyLiveKeys` | include/server.hpp:269-291 | GET answers with the value exactly if it is stored and its deadline has not passed |
| `KvStore.IncrSeesOnlyLiveKeys` | include/server.hpp:292-324 | INCR counts from a live value or from zero, wrapped to signed 64 bits, and refuses exactly a live value of another size |
| `KvStore.SetNxSeesOnlyLiveKeys` | include/server.hpp:325-339 | SETNX answers yes exactly if no live value is stored |
| `KvStore.SweepIsExact` | include/server.hpp:418-433 | after a sweep no deadline up to its time remains, and exactly the due keys are gone |
| `KvStore.SweepSendsEachOnce` | include/server.hpp:425-431 | each watcher is sent exactly one KV_DEL per expired key and nothing else, in any order of the sweep |
| `KvStore.PushesTellAll` | include/server.hpp:239-411 | a watcher that knew a key's value knows it again after handling what a verb of anybody sent it |
| `KvStore.SweepTellsAll` | include/server.hpp:418-433 | the same for a sweep |
| `KvStore.OnlyWatchersHear` | include/server.hpp:369-381 | only a watcher of a key is told its value |
| `KvStore.WatchesStay` | include/server.hpp:278-279 | a verb adds at most the asking client to a key's watchers and removes nobody |
| `KvRuns.DeadlinesAlwaysKept` | include/server.hpp:394-400 | in every reachable state only stored keys have deadlines |
| `KvRuns.ValueLastsUntilDue` | include/server.hpp:383-433 | no key expires early: until rewritten, a value and its deadline stay as long as the clock has not reached the deadline, and for good without one |
| `KvRuns.SweepLeavesNothingDue` | include/server.hpp:418-433 | after a sweep every deadline it found passed is gone with its key, and those left are later |
| `KvRuns.FoundForItsTtl` | include/server.hpp:383-392 | a value set, or won by SETNX, with a ttl is found by a GET if and only if it comes before that ttl is over, as long as nobody overwrites it; set without one it is found for good, whatever deadline the key had |
| `KvRuns.DeletedIsNotFound` | include/server.hpp:264-268 | a deleted key is found by no GET until it is set again |
| `KvRuns.IncrKeepsTtl` | include/server.hpp:319-320 | increments before a key's ttl is over neither prolong nor end it |
| `KvRuns.IncrOfNothing` | include/server.hpp:304-320 | an increment that finds nothing alive leaves its delta, without a deadline |
| `KvRuns.HeldUntilReleased` | include/server.hpp:325-339 | a key won by SETNX stays until it is deleted or expires |
| `KvRuns.LockIsExclusive` | include/server.hpp:325-339 | between two successful SETNX on one key it is deleted or expires |
| `KvRuns.LockLastsItsTtl` | include/server.hpp:325-339 | with no DEL or SETEX on it in between, the second win comes no sooner than the first one's ttl, and never if that ttl is 0 |
| `KvRuns.TallyIsWrappedSum` | include/server.hpp:314-318 | wrapping the number at every increment is wrapping the sum of all deltas once |
| `KvRuns.NoLostIncrement` | include/server.hpp:292-324 | a key only incremented and not expiring holds its initial number plus all deltas, wrapped, under any interleaving |
| `KvRuns.EveryAnswerIsAPrefixSum` | include/server.hpp:314-323 | each INCR is answered with the sum up to and including its own delta |
| `Answers.OwnAnswer` | include/node.hpp:488-504 | with ids that do not repeat on a connection, the frame that sets the promise under a request's id is the daemon's answer to that very request |
| `Answers.AnsweredOnce` | include/node.hpp:506-512 | and the only one: a promise is never offered two answers on one connection |
| `Answers.IncrReturnsItsSum` | include/node.hpp:335-345 | of a key that all nodes only increment, incr() returns the sum of all deltas so far, its own included, wrapped to signed 64 bits |
| `Answers.IncrReturnsNothingIff` | include/node.hpp:335-345 | incr() returns nothing if and only if the key holds, alive, a value that is not eight bytes long |
| `Answers.GetReturns` | include/node.hpp:376-383 | a cold get() returns what the store holds right after its GET was handled |
| `Answers.ColdGetReturns` | include/node.hpp:376-383 | set(k, v), with or without a ttl, then a cold get(k): it returns v or the result of an operation in between |
| `Answers.SetNxReturns` | include/node.hpp:351-360 | setnx() returns true if and only if it won the key |
| `Answers.WinnersAreApart` | include/node.hpp:347-360 | between two setnx() of one key that both return true, whoever calls them, the key was deleted or expired |
| `Answers.InfoAndSyncReturn` | include/node.hpp:180-195 | info() returns the text rendered when its request was handled; sync() returns nothing but that its PING was answered |
| `Server.Server.Accept` | include/server.hpp:154-158 | a new client joins with nothing listed and the bookkeeping intact |
| `Server.Server.SendTo` | include/server.hpp:548-560 | exactly the addressed client gets the frame, if it is still there |
| `Server.Server.SendEach` | include/server.hpp:369-374 | each target gets exactly one copy, nobody else any |
| `Server.Server.PushUpdate` | include/server.hpp:369-374 | every watcher of the key is told the value once |
| `Server.Server.PushDel` | include/server.hpp:376-381 | every watcher of the key is told once that it is gone |
| `Server.Server.StoreKey` | include/server.hpp:383-392 | value stored, deadline set or cleared, watchers told |
| `Server.Server.DropKey` | include/server.hpp:396-400 | key and deadline gone, watchers told |
| `Server.Server.DropIfExpired` | include/server.hpp:404-411 | drops exactly a key whose deadline has passed, telling its watchers, and says whether it did |
| `Server.Server.KvSet` | include/server.hpp:239-254 | leaves the store and sends every client the frames the specification of SET says |
| `Server.Server.KvSetEx` | include/server.hpp:255-263 | the same for SETEX |
| `Server.Server.KvDel` | include/server.hpp:264-268 | the same for DEL |
| `Server.Server.KvGet` | include/server.hpp:269-291 | the same for GET, which also lists the key under the client |
| `Server.Server.KvIncr` | include/server.hpp:292-324 | the same for INCR, including a value of the wrong size |
| `Server.Server.KvSetNx` | include/server.hpp:325-339 | the same for SETNX |
| `Server.Server.CollectDue` | include/server.hpp:424-429 | collects exactly the keys whose deadline has passed, each once |
| `Server.Server.Sweep` | include/server.hpp:418-433 | leaves the swept store and sends every client exactly the sweep's frames in its order |
| `Server.Server.SubscribePattern` | include/server.hpp:173-178 | index and client list gain the pattern together; no replay |
| `Server.Server.SubscribeTopic` | include/server.hpp:179-203 | index and client list gain the topic together; the retained value, if any, follows |
| `Server.Server.UnsubscribePattern` | include/server.hpp:204-213 | index and client list lose the pattern together, without leaving an empty entry |
| `Server.Server.UnsubscribeTopic` | include/server.hpp:214-224 | the same for a topic |
| `Server.Server.CollectTargets` | include/server.hpp:533-542 | the targets from the two indexes are exactly the clients with some subscribed name that matches |
| `Server.Server.ExactOrPattern` | include/server.hpp:532-542 | looking up exact names and scanning patterns is the same as asking one matcher about every subscribed name |
| `Server.Server.RoutePublish` | include/server.hpp:532-546 | exactly one copy to each client other than the sender with a matching name, none to anybody else |
| `Server.Server.PublishRetained` | include/server.hpp:228-238 | routes like a publish; the payload is kept as the topic's last value, or clears it if empty |
| `DaemonRuns.SubscribeReplaysLast` | include/server.hpp:184-202 | over any run: a SUBSCRIBE to a name without wildcards is followed by exactly the payload last published there to be retained, unless that was empty |
| `DaemonRuns.SubscribeReplaysNothing` | include/server.hpp:173-178 | and by nothing if none ever was, or if the name is a pattern |
| `DaemonRuns.NamesAreHistory` | include/server.hpp:172-224 | a client has a name listed if and only if it has subscribed to it and since then neither unsubscribed nor left |
| `DaemonRuns.PublishReachesSubscribers` | include/server.hpp:532-546 | over any run: a publish is sent once to every other connected client that has so subscribed to a matching name, and to nobody else |
| `Server.Server.EraseAll` | include/server.hpp:482-500 | erasing a client from the entries it lists erases it from the whole index, leaving no empty entry |
| `Server.Server.RemoveClient` | include/server.hpp:479-525 | afterwards no index mentions the client, the indexes are still exact inverses of the other clients' lists, and values and deadlines are untouched |
| `Server.Server.HandleFrame` | include/server.hpp:170-355 | for every frame of any kind or length: the store, the retained values, the subscriptions and the frames sent are what that request says, the PONG with its name and the INFO answer included, and the bookkeeping stays exact |
| `NodeClient.Node.RegisterPending` | include/node.hpp:506-512 | a new promise is pending; the step Register of `Requests` |
| `NodeClient.Node.TakePromise` | include/node.hpp:579-588 | under the lock the promise goes to at most one thread; the step TakeReply or GiveUp of `Requests` |
| `NodeClient.Node.SetValue` | include/node.hpp:589 | a promise taken out is set, never a second time; the step ReaderSets or CallerSets |
| `NodeClient.Node.InHandIsUnset` | include/node.hpp:586-589 | a promise in some thread's hands is neither pending nor set, whoever else runs |
| `NodeClient.Node.Fulfill` | include/node.hpp:579-590 | both: sets the promise exactly if it was still pending, for the reader and for a caller that gives up |
| `NodeClient.Node.FailPending` | include/node.hpp:592-597 | every pending promise is set to nothing and no other is touched; the step FailPending |
| `NodeClient.Node.HandlePush` | include/node.hpp:653-706 | cache, watch marks and the answered promise after each kind of push; a RESULT never touches the cache; the promise goes by the steps of `Requests` |
| `NodeClient.Node.TakeFrame` | include/node.hpp:656-657 | one turn of the read loop takes the decoder's next frame into the cache |
| `NodeClient.Node.ReadUntilClosed` | include/node.hpp:653-706 | when the link ends, what is cached and watched is exactly what the pushes of the whole stream say, however its bytes were cut up |
| `NodeClient.BytesCarryThePushes` | include/node.hpp:653-706 | a stream of encoded pushes, cut anywhere inside its last one, decodes to exactly the pushes before it, up to the first that is too long to be read |
| `NodeClient.Node.Teardown` | include/node.hpp:609-625 | afterwards nothing is cached, watched or pending and the fd is gone; the steps LinkDown and FailPending of `Requests`, and Close of `Resubscribe` |
| `NodeClient.Node.Reconnect` | include/node.hpp:641-648 | a new link starts with nothing written on it; the steps Reconnect of `Requests` and Connect of `Resubscribe` |
| `NodeClient.Node.Send` | include/node.hpp:444-451 | true exactly if the link is up and the socket takes the frame, and only then is it written; the step Send of `Requests` with that outcome |
| `NodeClient.Node.GetWarm` | include/node.hpp:369-375 | a key is answered locally exactly if the frames read on this link told of it, and with what they said last |
| `NodeClient.Node.Subscribe` | include/node.hpp:453-471 | one more handler; the step Subscribe of `Resubscribe`, and its send for the first handler |
| `NodeClient.Node.SubscribePattern` | include/node.hpp:111-121 | the same for a pattern |
| `NodeClient.Node.Unsubscribe` | include/node.hpp:126-137 | every handler goes; the step Unsubscribe, and its send if there was one |
| `NodeClient.Node.UnsubscribePattern` | include/node.hpp:140-147 | the same for a pattern |
| `NodeClient.Node.Connect` | include/node.hpp:79-96 | the first link, and one SUBSCRIBE for everything registered before; the step FirstConnect of `Resubscribe`, and its sends to the end of the list |
| `NodeClient.Node.Resubscribe` | include/node.hpp:733-744 | after a reconnect, one SUBSCRIBE for every topic and every pattern with a handler; the steps Snapshot and Resend, to the end of the list |
| `Cluster.StepInv` | include/node.hpp:553-651 | every step of the daemon, the nodes, their connections and the sweep keeps: what was sent on a live connection says what the store holds of every key it watches, and a node knows just what it has read on one connection |
| `Cluster.CachesAreCoherent` | include/server.hpp:239-339 | for every live connection that watches a key, replaying the frames in flight on the node's cached value gives the daemon's present value; a locally watched key is watched at the daemon |
| `Cluster.SettledCacheIsTheStore` | include/node.hpp:369-375 | with nothing about the key in flight, a warm get reads the daemon's own value |
| `Cluster.NothingOutlivesItsLink` | include/node.hpp:602-651 | what is served is what the frames read on one connection say, from nothing: the one whose fd the node holds or has just closed; between connections nothing is served |
| `SyncBarrier.HandledBy` | include/server.hpp:162-168 | every handled request was handled by one step of the run |
| `SyncBarrier.ReadIsRecent` | include/server.hpp:239-339 | whoever has read some frames of a connection knows, of every key told in them, a value it had no earlier than when only so many frames had been sent, or its absence in the middle of a verb that found it expired |
| `SyncBarrier.ServedSince` | include/node.hpp:602-651 | what a node serves at any time after the PONG, on that connection or on any later one, is a value the key had after the PING was answered |
| `SyncBarrier.SyncIsABarrier` | include/node.hpp:176-183 | at any time after the PONG of a sync has been handled: every request written before the PING had been applied, and every key the node serves, on whatever connection, is served with a value it had after the PING was answered |
| `SyncBarrier.WarmGetAfterSync` | include/node.hpp:369-375 | set(k, v), with or without a ttl, then sync(): any later warm get(k), on whatever connection, reads v or the result of a later operation on k |
| `SyncBarrier.LaterGetAnswers` | include/server.hpp:269-291 | a GET of anybody on any connection handled after k was set to v is answered with v or the result of an operation in between |
| `SyncBarrier.ColdGetAfterSet` | include/node.hpp:376-383 | the same for a key the node has not asked for before: the GET it writes after the set is handled after it and answered so |
| `Requests.SetAtMostOnce` | include/node.hpp:488-512 | no promise is ever set twice across reply, timeout, failed send and teardown; it is set exactly when nobody keeps it; ids may come round again once nothing is outstanding under them |
| `Requests.TeardownCompletes` | include/node.hpp:609-625 | once teardown finishes, no request written on the dead link is pending: its promise is set, or in the hands of the thread setting it |
| `Requests.DoneMeansUnregistered` | include/node.hpp:497-503 | a finished request leaves nothing in pending_ |
| `Resubscribe.ReconnectIsComplete` | include/node.hpp:733-744 | under any interleaving of subscribe and unsubscribe with link drops and resubscription, of any names, in which no name is unsubscribed from one map while the other holds it: with nothing mid-flight on a live link every name with a handler is subscribed at the daemon |
| `Resubscribe.UnsubscribeIsCompleteIffUnshared` | include/node.hpp:126-147 | unsubscribing a name leaves every handler served if and only if the other kind of subscription does not hold that name too |
| `Resubscribe.SharedIsLost` | include/node.hpp:126-147 | for every name: a run that comes to rest with the name held as a pattern and not subscribed at the daemon |
| `Resubscribe.TableIsExact` | include/node.hpp:733-744 | with nothing mid-flight the daemon has no name without a handler, in every run in which no name is unsubscribed while still to be resent; and exactly those with one, if none is unsubscribed from one map while the other holds it |
| `Resubscribe.UnsubscribeIsExactIffNotResent` | include/node.hpp:126-147 | a name unsubscribed in the middle of a resubscription that would end exact leaves it exact if and only if it was not still to be resent |
| `Resubscribe.DroppedIsResent` | include/node.hpp:733-744 | for every name: a run that comes to rest with the name subscribed at the daemon and no handler for it |
| `LinkProcess.EventRoundTrip` | include/link.hpp:164-188 | what one link forwards, the other reads as the same event and its daemon as the same change |
| `LinkProcess.Link.constructor` | include/link.hpp:66-75 | the startup frames: every pattern subscribed, then one get per key under its index; no echo expected |
| `LinkProcess.Link.ForwardsTopic` | include/link.hpp:114-119 | true exactly if some configured pattern matches |
| `LinkProcess.Link.ForwardsKey` | include/link.hpp:121-126 | true exactly for a configured key |
| `LinkProcess.Link.ExpectEcho` | include/link.hpp:134-137 | one more echo of this event expected, of no other |
| `LinkProcess.Link.ConsumeEcho` | include/link.hpp:139-156 | succeeds exactly if an echo of this event is expected, and then expects one fewer |
| `LinkProcess.Link.Forward` | include/link.hpp:161-188 | an expected event is swallowed, any other is sent to the peer |
| `LinkProcess.Link.LocalKvFrame` | include/link.hpp:177-188 | a key frame from the daemon takes the step of the device model, and sends the peer what that step sends |
| `LinkProcess.Link.LocalPublish` | include/link.hpp:171-176 | a publish from the daemon is relayed exactly if a pattern covers it |
| `LinkProcess.Link.PeerKvFrame` | include/link.hpp:233-246 | a change from the peer takes the device model's steps: dropped for a foreign key, otherwise its echo is expected and it is sent to the daemon |
| `LinkProcess.Link.PeerPublish` | include/link.hpp:228-232 | a publish from the peer reaches the daemon exactly if a pattern covers it |
| `LinkDevice.OwnWriteEchoes` | include/server.hpp:369-400 | a write of the link comes back to it as exactly one frame of the same event |
| `LinkDevice.StepInv` | include/link.hpp:134-188 | every step keeps, for every event, forwards + in flight = arrivals + expected echoes, and every expected echo in flight |
| `LinkDevice.InternalLightens` | include/link.hpp:161-246 | a step that only moves traffic along takes weight off the device, counting what it sends at the weight it has on the other side |
| `TwoDevices.MoveInv` | include/link.hpp:161-246 | every move of the pair keeps both devices' conservation, and what one received of a key is what the other forwarded of it, in order |
| `TwoDevices.ForwardsAreArrivals` | include/link.hpp:128-165 | at every point of every run forwards of an event never exceed its arrivals that were not the link's own doing; at rest no echo is expected and they are equal |
| `TwoDevices.EveryChangeArrivesOnce` | include/link.hpp:161-246 | at rest every change on one device has been applied on the other exactly as often as it happened, if its link carries the key |
| `TwoDevices.NoPingPong` | include/link.hpp:128-165 | over any run the traffic moves number at most the initial weight plus five per frame other clients, expiries and startup gets made the daemons send |
| `TwoDevices.TrafficEnds` | include/link.hpp:128-165 | with nobody else moving, traffic ends within the weight it has |
| `TwoDevices.NothingIsStuck` | include/link.hpp:166-250 | while anything is on its way some traffic move or a startup get can be made |
| `Replication.NeverSentBack` | include/link.hpp:161-188 | of a key only A writes, absent on B at the start, B's link never forwards anything and nothing reaches A |
| `Replication.ReplicaFollowsOwner` | include/link.hpp:233-246 | what B applied of that key is a prefix of A's changes in A's order, and each store holds the latest of its own |
| `Replication.NeverGoesBack` | include/link.hpp:233-246 | both histories only grow |
| `Replication.EveryChangeWasAValue` | include/server.hpp:269-290 | the value after each change in A's history was k's value on A: at the end of the move that made the change, or in the middle of one that found k expired |
| `Replication.ReplicaHoldsPastValues` | include/link.hpp:233-246 | once B has applied anything for k it holds a value k had on A, and later ones no earlier |
| `Replication.SettledStoresAgree` | include/link.hpp:161-188 | at rest both stores agree on k, through writes, deletes and expiry |
| `TwoWriters.WritersCanSwap` | include/link.hpp:128-165 | for any key and any two values written on the two devices at once, a run that comes to rest with each device holding the other's |
| `Leftovers.LeftoverIsSwapped` | include/link.hpp:66-75 | for any two devices that both hold a carried key when their links connect: a run in which no client writes anything and which comes to rest with each holding the other's value |
| `Leftovers.OwnedStoresAgreeIffAbsent` | include/link.hpp:66-75 | from any two devices whose links connect: the stores of a key that only A writes agree at rest in every run if and only if B does not hold it then |
| `LinkPublish.RouteIsRouted` | include/server.hpp:532-546 | the routing of the two-device model is exactly what the daemon's route_publish is proved to do |
| `LinkPublish.MoveInv` | include/link.hpp:171-176 | every move keeps: the link was sent just its device's own publishes on its patterns, and what arrived is what crossed and the receiver agreed to carry |
| `LinkPublish.PublishesCrossExactly` | include/link.hpp:228-232 | what a daemon routes for its link is, in order and without repetition, what the other device's own clients published on topics both links carry, so nothing returns; at rest it is all of it |
| `LinkPublish.ClientsGetWhatTheyAreOwed` | include/server.hpp:532-546 | a client whose subscriptions stand still gets exactly what is routed meanwhile on its names, its own publishes excepted, in order |
| `LinkPublish.CrossedMeanwhile` | include/link.hpp:228-232 | between any two moments at rest, what crossed is what the other device's clients published meanwhile on topics both links carry, in order |
| `LinkPublish.OneCopyEach` | include/link.hpp:171-176 | between any two moments at rest through which a client of B other than the link kept its subscriptions, it was sent exactly one copy of each publish of A's clients that both links carry and it wants, one of each of B's other clients' that it wants, and no other |

## Left out

- Sockets, TCP tuning, accept and its uid check, thread start and stop, signals, mmap, flock and shm_open: a channel is a FIFO that may break, its reader then seeing a prefix and the end.
- Weak-memory reordering in the ring: accesses are interleaved in one sequentially consistent order.
- Reclaiming an orphaned ring (src/shm_ring.c:126-179): one producer lifetime from a fresh create; refcounts are unbounded rather than u32.
- Retained replay racing a retained publish: each handler is one step here, while the source takes a second lock for the retained value; in `LinkPublish` nothing is retained.
- The daemon's handlers are one step each, so routing racing a disconnect, and sends to a client between the phases of remove_client, are not modelled.
- Concurrent subscribe and unsubscribe of one name from several application threads: the map update and the send are not atomic together.
- The link's handshake (MSG_LINK_HELLO and the ABI check), its shutdown, and retained replay to a link whose topics are wildcard-free.
- What build_info writes (the text of an INFO answer is a parameter), delivery to local handlers, and the typed codecs: easy members.
- Reuse of a request id while its last use is outstanding.
- A frame that write_full breaks off half-way: it counts as not sent, and the link as lost.
- Native byte order other than little-endian.
- Python client, Redis and GStreamer bridges, ThreadPool, ttl_to_wire, backoff timing, examples and benchmarks.
- Client records are values in the daemon's table rather than shared objects: aliasing between the table and the indexes is not modelled.
