# Verified model of the jet peer

A jet peer talks to a jet daemon over a length-prefixed byte stream that carries
JSON-RPC 2.0 messages. It owns states and methods, sets and calls those of other
peers, and fetches states that match a filter. This project models that peer in
Dafny and proves what its parts guarantee over all inputs and all runs.

| file | what it models |
|---|---|
| `Framing.dfy` | the frame format and the reference decoder of a whole stream |
| `Sending.dfy` | concurrent senders writing piecewise under the send mutex |
| `Receiving.dfy` | the resumable receive loop, buffers and reconnect |
| `Transfer.dfy` | senders and receive loop together |
| `Requests.dfy` | the process-wide registry of open requests, all thread interleavings |
| `Ownership.dfy` | registration of states and methods by calls that interleave at every step, rollback, loss and reconnect |
| `Discipline.dfy` | the rules of `Ownership.dfy` are exact: after breaking one a registration can get lost without any further mistake |
| `Causality.dfy` | many peers, the daemon and FIFO channels: what a caller has seen when its set is answered |
| `Settlement.dfy` | the same system: each set is carried by one message at a time, its change is accepted or refused once, and when it cannot be refused |
| `Provenance.dfy` | the same system from its steps: where results, notes and messages come from, and read your writes about calls and deliveries alone |
| `Lifecycle.dfy` | fetch tables over `addFetchAsync`, `removeFetchAsync`, `stop()` and `start()` |
| `Replica.dfy` | the cache of tool/cache.cpp against the daemon's states |
| `Dispatch.dfy` | `receiveCallback` and `handleMessage` with arbitrary user callbacks |
| `Errors.dfy` | exceptions and warnings from a state callback to the remote setter |
| `Matching.dfy` | match rules: meaning, encoding, text |
| `Json.dfy`, `Common.dfy` | JSON values, shared datatypes |

`dafny verify dfyconfig.toml` checks everything.

## How the code is modelled

- `receive()`, the registry, `handleMessage`, `stop()`/`start()`, the cache and the
  loops of the matcher and the exceptions are classes and methods in the form of the
  source, each proved equal to a specification function. Properties over runs are
  lemmas about those functions, or about step relations where several threads or
  several parties interleave. A method of a class runs without interference; a call
  that other threads can interrupt is several steps of the relations.
- The socket is a script of chunks, would-block returns, end of stream and errors.
  Parsing is an arbitrary predicate on payloads. User callbacks are arbitrary
  functions of the user's state that may change the peer's tables, return anything
  and throw anything.
- The daemon is an environment that follows lib/README.md:15-34. It reads each peer's
  messages in order and sends in order.

Assumptions, where a stronger claim is not true of the code:

- The registry is static, so `stop()` of any peer cancels the requests of all peers
  of the process. No lock spans an add, a removal or `stop()`, so their parts are
  steps of their own. `Ownership.Disciplined` says which steps are harmless, and
  `Ownership.Cautious` gives rules a caller can check. An add counts as unanswered
  until its result callback has run or its synchronous call has returned.
- The error path of `execute` (lib/asyncrequest.cpp:86-88) runs without the lock. It
  is one atomic step here that may re-create a cleared entry with an empty callback;
  the request id is treated as captured by value.
- Callbacks run by `clear()` do not use the registry, and callbacks do not call
  `resume()` from inside `receive()` or `stop()`.
- `response[RESULT] = callback(params)` (lib/peerasync.cpp:853) evaluates its right
  hand side first. C++17 guarantees this, C++11, which lib/CMakeLists.txt:67 selects,
  does not.
- Message objects have an object or nothing under `params`, reply ids are absent or
  unsigned 32-bit, and fetch ids in notifications are within the int range.
- A disconnected socket reports an error on every read.
- Fetch ids passed to `removeFetchAsync` come from `addFetchAsync`.
- The daemon may refuse a fetch that has a result callback or comes from a synchronous
  call, and the refusal stands for the connection. It accepts the others, also those
  that `start()` re-issues, since nothing would roll them back.

Where the code does less than one may expect:

- A send that fails after writing part of its frame leaves the receiver out of step,
  since the connection stays in use (`Sending.ReceiverRecoversLog`,
  `Sending.TornSendMisleadsReceiver`).
- `receive()` called again after an oversize length hands one empty payload to the
  parser before it reports the error (`Receiving.Receiver.Receive`).
- After 2^32 requests an id is reused, and the older callback is lost if it is still
  open (`Requests.StepKeepsOnce`, `Requests.WrapAroundLosesCallback`).
- A failed duplicate add removes the callback of the first registration
  (`Discipline.DuplicateAddOrphans`, `Discipline.ReAddSurfaces`), and a REMOVE that
  cannot be sent leaves the path with the daemon (`Discipline.DisciplineExact`).
- Between registering a path (lib/peerasync.cpp:483) and sending its ADD
  (lib/asyncrequest.cpp:70) nothing protects the registration: if this peer stops and
  starts again, or another peer of the process stops once the callback is stored, the
  daemon gets a path the peer no longer knows (`Discipline.OwnStopOrphans`,
  `Discipline.ForeignStopOrphans`). A removal in that interval has the same effect.
- The text of a warning never reaches the synchronous setter
  (`Dispatch.SetterSeesOutcome`), although include/jet/defines.h:153-154 declares it.
- A batch is answered by separate responses, not by one array as section 6 of
  JSON-RPC 2.0 asks, and null inside a batch counts as a reply with id 0
  (`Dispatch.NullInBatch`).
- A set may succeed and carry a change that a registered, matching, earlier fetch does
  not see. `Settlement.SetSeenUnlessRefused` gives the exact condition: the daemon
  refused the change or the fetch.
  - It refuses the change if it takes the owner's REMOVE first. The lock around the
    state registry rules this out unless a set callback removes its own state or a path
    is added again after its removal on the same connection
    (`Settlement.GivenUpChangeIsMissed`).
  - A refused fetch stays registered until the thread in `addFetch` wakes up and
    unregisters it (lib/peer.cpp:331-336), and the set may complete before
    (`Settlement.RefusedFetchMisses`). An asynchronous fetch is unregistered when the
    refusal arrives, so only fetches whose synchronous call has not returned can miss
    the change (`Settlement.CarefulSetsAreSeen`, `Provenance.ReadYourWrites`).
- After a reconnect the cache may keep paths that were removed meanwhile
  (`Replica.RemovedMeanwhileStays`; `Replica.DrainedReplica` says exactly when it does
  not).

## Model

| member | source | states |
|---|---|---|
| `Framing.Htonl` | lib/peerasync.cpp:709-713 | every accepted length fits the four byte field and is read back by the receiver |
| `Framing.DecodeConserves` | lib/peerasync.cpp:227-315 | every received byte is in exactly one decoded frame or pending |
| `Framing.DecodeUnique` | lib/peerasync.cpp:227-315 | any cut of a stream into whole frames and an unfinished or oversize tail is the one the decoder finds |
| `Framing.DecodeResume` | include/jet/peerasync.hpp:254-259 | decoding continues from the pending bytes alone, so it does not depend on chunk boundaries |
| `Framing.DecodeAfterReject` | lib/peerasync.cpp:255-259 | nothing after an oversize length changes what was decoded before it |
| `Sending.WireIsWholeFrames` | lib/peerasync.cpp:715-719 | in every interleaving the wire is whole frames in lock order plus a prefix of the holder's frame, iff no send failed half way |
| `Sending.CompletedSendIsLogged` | lib/peerasync.cpp:715-719 | a send that is not aborted adds exactly its message to the completed ones, whatever other threads do |
| `Sending.ReceiverRecoversLog` | lib/peerasync.cpp:696-726 | the receiver decodes exactly the messages in lock order and accepts every length the sender accepts, iff no send failed half way |
| `Sending.TornSendMisleadsReceiver` | lib/peerasync.cpp:720-725 | a run in which a half-written frame makes the receiver read a message nobody sent |
| `Receiving.StreamByCalls` | lib/peerasync.cpp:222-316 | the stream of a connection is what its successive receive calls consume |
| `Receiving.Receiver.Start` | lib/peerasync.cpp:116-121 | from any state nothing of the old connection is left in the buffers |
| `Receiving.Receiver.ReadSocket` | lib/peerasync.cpp:232-249 | a read yields between one and n bytes of the stream, or reports how the supply ends |
| `Receiving.Receiver.StoreHeader` | lib/peerasync.cpp:231-250 | read bytes extend the pending header in place |
| `Receiving.Receiver.HeaderStep` | lib/peerasync.cpp:229-263 | each read of the header loop makes progress or ends the call as specified |
| `Receiving.Receiver.ReadBody` | lib/peerasync.cpp:265-285 | the payload is completed across any number of calls, indices in range |
| `Receiving.Receiver.HandOver` | lib/peerasync.cpp:287-314 | exactly the payload is handed to the parser, the buffer never exceeds the maximum plus one, state is reset |
| `Receiving.Receiver.Parse` | lib/peerasync.cpp:291-311 | unparsable payloads are dropped and do not affect later ones |
| `Receiving.Receiver.Receive` | lib/peerasync.cpp:222-316 | terminates; payloads handed over are the reference decoding of everything received, return code and connection state are exact, also after oversize lengths and on dead connections |
| `Receiving.Receiver.Connection` | lib/peerasync.cpp:116-316 | a whole connection from any earlier state delivers the reference decoding of its byte stream, whatever the chunks and would-block returns |
| `Transfer.Transmit` | lib/peerasync.cpp:696-726 | concurrent senders to receive loop: the messages arrive in lock order |
| `Requests.StepKeepsOnce` | lib/asyncrequest.cpp:57-145 | every step keeps each callback in exactly one place (stored, taken, run once) iff it does not reuse or erase an id that still holds a callback |
| `Requests.InTimeNeverDrops` | lib/asyncrequest.cpp:62-64 | no callback is overwritten or erased while no request outlives a whole id space |
| `Requests.ExactlyOnce` | lib/asyncrequest.cpp:57-145 | in every interleaving of issue, send failure, reply, deferred error, cancel-all and sync destruction each callback is in exactly one place |
| `Requests.ReplyReachesItsRequest` | lib/asyncrequest.cpp:102-121 | requests whose callback has neither run nor been taken have pairwise distinct ids, and a reply takes the callback of the request that sent its id, or none if that is no longer open |
| `Requests.FailureStaysPending` | lib/asyncrequest.cpp:75-89 | after a failed send the deferred error may fire until something settles the id, also if the entry was gone or its id is in use again |
| `Requests.FailureReachesItsCaller` | lib/asyncrequest.cpp:80-88 | as long as the request is stored the deferred error takes exactly its callback |
| `Requests.NoFailureNoError` | lib/asyncrequest.cpp:86-88 | a request entered under a free id whose send did not fail is never reported as failed |
| `Requests.RanIsFinal` | lib/asyncrequest.cpp:107-121 | a callback that ran is never stored, taken or run again, so late replies invoke nothing |
| `Requests.ClearRunsAllOpen` | lib/asyncrequest.cpp:123-145 | cancelling runs every open callback once and empties the map |
| `Requests.WrapAroundLosesCallback` | lib/asyncrequest.h:78-83 | the time limit is needed: a run in which a request that stays open for a whole id space loses its callback |
| `Requests.Registry.Issue` | lib/asyncrequest.cpp:59-67 | a fresh wrapping id and the callback stored under it |
| `Requests.Registry.SendFailed` | lib/asyncrequest.cpp:75-89 | the error path marks the entry, re-creating it with an empty callback if it is gone |
| `Requests.Registry.HandleResult` | lib/asyncrequest.cpp:102-121 | the entry is removed and its callback runs once; unknown ids change nothing |
| `Requests.Registry.RunAll` | lib/asyncrequest.cpp:129-142 | the cancel loop runs exactly the stored callbacks, each once |
| `Requests.Registry.Clear` | lib/asyncrequest.cpp:123-145 | the map is empty afterwards and the count is the number of entries removed |
| `Requests.Registry.Erase` | lib/syncrequest.cpp:38-44 | the destructor removes one entry |
| `Ownership.StepKeepsInv` | lib/peerasync.cpp:397-432 | every disciplined step of any interleaving of registering, storing, sending, removing, completion, rollback, send failure, disconnect, stop and reconnect keeps this: whatever gives the daemon a path, some registration of the path survives |
| `Ownership.PathsAccounted` | lib/peerasync.cpp:474-526 | in every reachable state each path the daemon attributes to the peer is registered locally or has a REMOVE in flight or about to be sent |
| `Ownership.AnsweredStaysClosed` | lib/asyncrequest.cpp:102-121 | over all runs an answered request is never open again, and one answered without an error is never undone |
| `Ownership.AcceptedAddStays` | lib/asyncrequest.cpp:123-145 | once an add is answered well and no other one is unanswered, only the user and the peer's own stop take the registration out, not another peer's stop, a late error or a reconnect |
| `Ownership.ReplyOrigin` | lib/peerasync.cpp:116-121 | a reply is what the daemon decided on this connection; nothing of an old one is delivered |
| `Ownership.FailureOrigin` | lib/asyncrequest.cpp:75-89 | a deferred error belongs to a send that failed, and a cancellation takes it away |
| `Ownership.CautiousPathsAccounted` | lib/peerasync.cpp:542-570 | the same under rules a caller can check |
| `Discipline.SafeIffInv` | lib/asyncrequest.cpp:57-145 | the states from which no path can get lost are exactly those that satisfy the invariant |
| `Discipline.DisciplineExact` | lib/asyncrequest.cpp:57-91 | a step respects the discipline iff no path can become attributed and unregistered while calls under way, daemon and event loop go on and the connection may be set up again, until somebody calls the peer, a REMOVE fails to be sent or a peer is stopped |
| `Discipline.ReAddSurfaces` | lib/peer.cpp:265-272 | adding a path again that the daemon has or will get, with a result, can lose its only registration whether the request is sent or not |
| `Discipline.DuplicateAddOrphans` | lib/peer.cpp:265-272 | a run in which a refused duplicate add unregisters the first registration |
| `Discipline.ForeignStopOrphans` | lib/asyncrequest.cpp:123-145 | a run in which another peer's stop between storing and sending orphans the path |
| `Discipline.OwnStopOrphans` | lib/peerasync.cpp:173-210 | a run in which a stop and start between registering and sending orphans the path |
| `Causality.StepKeepsInv` | lib/peerasync.cpp:777-843 | every step of peers and daemon keeps fetches ahead of sets, changes ahead of answers, notes and refusals ahead of results, and refused fetches registered only until their rollback |
| `Causality.SetSeenBeforeResult` | lib/peerasync.cpp:796-840 | when a successful set result with an unrefused change arrives, every still registered matching fetch sent earlier on the connection has run with it, or was refused and its synchronous call has not returned |
| `Causality.RefusedMeansGivenUp` | lib/README.md:29-34 | a change is refused only if the daemon no longer attributed the path to the owner |
| `Settlement.StepKeepsExact` | lib/peerasync.cpp:777-843 | every step of peers and daemon keeps at most one message carrying a set, settles its change at most once, and notifies only accepted changes |
| `Settlement.AcceptedXorRefused` | lib/README.md:29-34 | in every run what a set causes is accepted or refused, never both |
| `Settlement.RunHeard` | lib/peerasync.cpp:757-776 | in every run a registered fetch is notified of what the peer's open sets cause only if the daemon has established it |
| `Settlement.SetSeenUnlessRefused` | lib/peerasync.cpp:796-840 | when a successful set result that carried a change arrives, a still registered matching fetch sent earlier has run with it iff the daemon refused neither the change nor the fetch |
| `Settlement.StepKeepsAttributed` | lib/peerasync.cpp:781-843 | routed sets are handled only while the path is registered, so with careful owners every change under way is of a path the daemon attributes to its sender |
| `Settlement.CarefulSetsAreSeen` | lib/peerasync.cpp:796-840 | read your writes for every fetch that is asynchronous or whose call has returned, while no set callback removes its own state and no path is added again after its removal on the same connection |
| `Settlement.RefusedFetchMisses` | lib/peer.cpp:331-336 | the condition on synchronous calls is needed: a run in which nothing is wrong with the change and the set succeeds before the refused fetch is unregistered |
| `Settlement.GivenUpChangeIsMissed` | lib/peerasync.cpp:499-512 | both conditions are needed: for each a run in which the set succeeds and the fetch has not seen its change |
| `Provenance.ResultTellsOutcome` | lib/peerasync.cpp:795-840 | a result goes back to its set: success to the owner's callback that got the value and returned, with exactly the change it returned, failure to one that threw or to an unknown path |
| `Provenance.ReadYourWrites` | lib/peerasync.cpp:796-840 | add a fetch, send it, set a state: when the successful result arrives the fetch callback has run with the change, stated over the steps of the run alone |
| `Provenance.ResultEndsRequest` | lib/asyncrequest.cpp:102-121 | a result ends its request for good |
| `Provenance.RemovedStaysRemoved` | lib/peerasync.cpp:685-694 | a removed fetch is never registered again |
| `Provenance.SentMessagesArrive` | lib/peerasync.cpp:696-726 | whatever a peer sends is on its way or taken by the daemon, unless the connection is lost |
| `Provenance.UnfetchTakesEffect` | lib/peerasync.cpp:685-694 | after an UNFETCH the daemon drops the fetch once it has read that far |
| `Provenance.ChangeHolds` | include/jet/peerasync.hpp:365-382 | a notified change is the daemon's value until the next message about the path |
| `Provenance.RegisteredOrigin` | lib/peerasync.cpp:781-785 | a set is handled only by a peer that has added the path and not given it up since |
| `Lifecycle.RemovedFetchIsSilent` | lib/peerasync.cpp:685-694 | removal sends UNFETCH, and after it no later step of any run invokes the fetch's callback |
| `Lifecycle.FetchStays` | lib/peerasync.cpp:536-558 | a fetch stays registered with its matcher exactly until it is removed or its request fails, while its id has not come round again |
| `Lifecycle.NotificationReachesItsFetch` | lib/peerasync.cpp:757-776 | a notification runs the callback of its fetch once iff the fetch has been neither removed nor undone, and no other callback |
| `Lifecycle.RestoredAsFirstSent` | lib/peerasync.cpp:156-170 | `start()` sends its configuration and re-issues exactly the fetches left, each once and as it was first sent |
| `Lifecycle.UndoneExactly` | lib/peerasync.cpp:514-533 | exactly the fetches, states and methods named by the failed requests are undone, everything else is as before |
| `Lifecycle.EachToldOnce` | lib/peerasync.cpp:180-193 | `stop()` tells every registered fetch exactly once |
| `Lifecycle.Process.Execute` | lib/asyncrequest.cpp:57-91 | the callback is stored before the request is sent; a failed send only marks it |
| `Lifecycle.Process.AddFetchAsync` | lib/peerasync.cpp:647-673 | the fetch is registered under a fresh id; with a result callback its request is open, so a stop would remove it, otherwise nothing can roll it back |
| `Lifecycle.Process.RemoveFetchAsync` | lib/peerasync.cpp:685-694 | the entry is gone before UNFETCH is sent, with or without a result callback |
| `Lifecycle.Process.HandleNotification` | lib/peerasync.cpp:757-776 | only a registered fetch is called |
| `Lifecycle.Process.Complete` | lib/peerasync.cpp:514-533 | an error completion undoes exactly what its request registered |
| `Lifecycle.Process.CancelAll` | lib/asyncrequest.cpp:123-145 | every open callback runs once and undoes exactly what it awaited, in the tables of all peers |
| `Lifecycle.Process.Stop` | lib/peerasync.cpp:173-210 | states, methods and open requests are gone, each fetch is told once, and exactly the fetches whose result was awaited leave the tables of all peers |
| `Lifecycle.Process.Start` | lib/peerasync.cpp:156-170 | one FETCH per known fetch, with unchanged id and matcher, where a failing send skips only its own fetch |
| `Lifecycle.Process.Reconnect` | lib/peerasync.cpp:156-210 | stop and start together: the remaining fetches are those not awaited, and exactly they are re-issued |
| `Replica.Cache.FetchCb` | tool/cache.cpp:80-114 | add and change store, remove erases, everything else leaves the cache alone |
| `Replica.Cache.GetEntry` | tool/cache.cpp:70-78 | the cached value or an empty value |
| `Replica.NotedApplies` | tool/cache.cpp:85-111 | a delivered notification does to the cache what it did to the daemon |
| `Replica.NotedIgnores` | tool/cache.cpp:80-114 | a lost connection, parameters that are no object and unknown events leave the cache alone |
| `Replica.ReplicaTracksDaemon` | tool/cache.cpp:80-114 | at every step, replaying the undelivered notifications gives the matching states plus exactly the earlier cached paths not notified on this connection |
| `Replica.FirstConnectionExact` | lib/README.md:19-19 | starting empty, the replay is exactly the matching states |
| `Replica.DrainedReplica` | lib/peerasync.cpp:156-170 | reconnected and drained, the cache agrees on all matching states, and equals them iff every earlier cached path was notified again |
| `Replica.RemovedMeanwhileStays` | tool/cache.cpp:80-114 | for every matching path a run in which the reconnected, drained cache keeps it although the daemon has removed it |
| `Replica.StalePathsMissedRemoval` | tool/cache.cpp:104-107 | a surplus path is one whose removal was never delivered |
| `Dispatch.BatchIsSequence` | lib/peerasync.cpp:728-746 | a batch of objects does what its elements do as separate frames: same tables, callbacks and messages |
| `Dispatch.NullInBatch` | lib/peerasync.cpp:732-744 | null in a batch differs from null as a frame iff request 0 is open |
| `Dispatch.OneResponse` | lib/peerasync.cpp:777-880 | a call or non-null set with an id gets exactly one response with that id and exactly one of result and error, anything else none |
| `Dispatch.FramesAreMessages` | lib/peerasync.cpp:728-746 | any stream of batches, objects and ignored values does what its messages do one after the other |
| `Dispatch.EveryRequestAnswered` | lib/peerasync.cpp:777-880 | over any stream of frames the responses are exactly those owed, in order, although callbacks may change the tables |
| `Dispatch.SetterSeesOutcome` | lib/peerasync.cpp:795-840 | end to end: the state's callback gets the value, a set with an id sends its change, then one response, and the remote setter raises the code, message and data thrown, or an error for a read-only state or an unsendable change, or returns the warning code unchanged, 0 without a warning, and never a text |
| `Dispatch.ChangeFields` | lib/peerasync.cpp:799-806 | the change notification names the path and carries the new value |
| `Dispatch.CallerSeesAnswer` | lib/peerasync.cpp:845-880 | a call with an id gives the parameters to the method's callback and sends one response with its answer as the result, or with the code, message and data it threw |
| `Dispatch.NotificationDispatched` | lib/peerasync.cpp:757-776 | a notification runs the callback of its fetch with the parameters and nothing else |
| `Dispatch.ReplyDispatched` | lib/peerasync.cpp:750-756 | a reply closes its request and runs its callback with the whole reply, or nothing happens |
| `Dispatch.EntriesReachSetter` | lib/jsoncpprpc_exception.cpp:35-114 | nested entries thrown by the owner's callback are read out unchanged by the remote setter |
| `Dispatch.Peer.HandleSet` | lib/peerasync.cpp:786-830 | read-only states, every exception class, changes and warnings as specified |
| `Dispatch.Peer.HandleCall` | lib/peerasync.cpp:845-865 | result or caught exception |
| `Dispatch.Peer.HandleMessage` | lib/peerasync.cpp:748-884 | replies, notifications, sets and calls are told apart and handled as specified |
| `Dispatch.Peer.ReceiveCallback` | lib/peerasync.cpp:728-746 | batch, single message or nothing |
| `Errors.FromEntries` | lib/jsoncpprpc_exception.cpp:62-72 | the loop builds the data object of all entries |
| `Errors.DataEntries` | lib/jsoncpprpc_exception.cpp:103-114 | the loop reads every entry of a data object, the elements of an array under their index |
| `Errors.ArrayEntries` | lib/jsoncpprpc_exception.cpp:103-114 | every element of an array is an entry of its own, since different indices have different names, and there are no others |
| `Errors.ErrorFields` | lib/jsoncpprpc_exception.cpp:62-81 | the members of an error and of an entry on the wire |
| `Errors.WarningFields` | lib/peerasync.cpp:809-817 | a warning's code, and its text unless empty, on the wire |
| `Errors.EntriesRoundTrip` | lib/jsoncpprpc_exception.cpp:62-114 | entries survive the trip, also when there are none |
| `Errors.DecodeSetResponse` | lib/peer.cpp:364-374 | the setter raises or returns a warning code as specified |
| `Matching.AddListRule` | lib/peerasync.cpp:628-632 | the loop appends the list in order |
| `Matching.AddPathInformation` | lib/peerasync.cpp:611-636 | the request describes exactly the non-empty rules |
| `Matching.RuleFields` | lib/peerasync.cpp:611-636 | each rule under its name, and nothing for an empty one |
| `Matching.MatcherRoundTrip` | lib/peerasync.cpp:611-636 | decoding the path object returns the same matcher |
| `Matching.DescriptionInjective` | lib/peerasync.cpp:611-636 | different matchers are described differently |
| `Matching.PrintItems` | include/jet/defines.h:296-301 | append and pop equals joining the items |
| `Matching.RuleTextsAre` | include/jet/defines.h:249-306 | the texts printed: every present rule under its name, in order, and nothing else |
| `Matching.Print` | include/jet/defines.h:249-306 | the text is the present rules joined by ", " |

## Left out

- Sockets, event loop, notifier and timers: foreign code; a script of events and a deferred step stand for them.
- JSON text parsing and printing, number ranges of the JSON library and its exceptions on wrongly typed members: foreign code.
- The daemon's internals, timeouts, access groups and authentication: not in this repository.
- Deadlock freedom and object lifetime, such as a callback that destroys the entry being executed.
- The simulation library, the mock, the command line tools other than the cache, logging, `what()` texts and Windows branches: they would only add easy members.
- `Peer::addMethodPrivate` wraps the whole response as data of its exception; only the state and fetch variants of the synchronous calls are followed.
- `executeSync`'s promise: a synchronous request is an issued callback whose destruction is enabled once the callback has run.
- Registration, the multi-peer protocol and the cache's environment are step relations on values; the tables they update in place are fields of the classes in Lifecycle.dfy, Dispatch.dfy and Replica.dfy.
- Receiver.Connection: does not model a `receive()` that runs concurrently with `start()`, because the receive mutex does not cover `start()`.
