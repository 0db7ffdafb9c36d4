# Synk, modelled and verified in Dafny

Synk replicates objects from a server to browsers. One process owns each object and changes it through
setters; `Modify` turns the pending changes into a versioned diff, writes the store and publishes on the
object's subscription key, and on the old and the new key when the object moves. Each connected client
should hold exactly the objects whose key it subscribes to. The project models that protocol, its two
stores, the tracked objects and the teardown of a client, and proves:

- **Replication** (`Replication`, `Convergence`, `WholeRuns`). In every run of creations, setters,
  modifications, moves, deletions, connections, subscription changes, loads and writes, over any objects and any
  clients, replaying what is pending over what a browser holds gives the committed view of its subscriptions,
  except on exactly two sets of objects: the *blind* ones, which it is not going to hold though it should, and
  the *ghosts*, which it is going to hold in a version, or at all, though it should not. Both sets are history
  variables: a change of subscriptions creates them by a condition on its queue and its keys, and mutations and
  loads remove them by conditions on keys alone. A subscription change may be made at any time, with anything
  pending. A client converges exactly when no object escapes the change and its load, and the ways to escape
  are listed and each is reached by a run. A fresh client always converges, and so does one that changes its
  subscriptions only with nothing pending and loads at once. Every copy a browser ever holds was committed.
- **Stores** (`MongoRuns`, `RedisRuns`, `Refinement`, and the classes `MongoSynk` and `RedisSynk`). The stored
  `sub` field and Redis's sets agree with the keys computed from the objects in every run, and RedisSynk
  publishes and loads what MongoSynk does.
- **Tracked objects** (`Objects`, `TrackedObjects`, `HeapRuns`). Diffs are the difference of two full states,
  replay to the committed state, and a diff handed out is frozen on the heap for good exactly when no field of it
  is as Init left it; a copy and its original are independent exactly when that holds of the diff at the copy.
- **Teardown** (`Shutdown`). No interleaving panics or closes a channel twice, and teardown completes.

## How it is built

`Objects` and `Mutations` are functions on values. `TrackedObjects.TrackedObject`, `MongoStore.MongoSynk`,
`RedisStore.RedisSynk` and `ClientSide.SynkClient` are classes that update their fields step by step, as the
Go types do; their methods are proved equal to those functions. Runs are sequences of the functions' steps,
and the theorems are about all runs. Human and Orc come from one generator, so their setters, `Resolve`,
`Init` and the rest are written once, for any field; the two field lists are in `Objects.FieldOrder`.
Pointers in a diff are modelled as pointers, to a setter's variable or into an object.

The browser is not in the repository. `Replicas.Apply` takes it to be a fold over messages, as the comments
on the message types (MongoSynk.go:288-339) and on `Tag.V` describe them: an add inserts unless an equal or
newer version is held; a mod applies to the version just before it and drops the object when `nsKey` is not
subscribed; a rem removes. Unsubscribing drops what is held under the removed keys.

## Hypotheses

They are the `Enabled` predicates of the run modules.

- One process owns an object and resolves it only through `Create` and `Modify` (README.md:30); the agreement
  of memory and store is then proved. An ID is not used again after a deletion, and drawn IDs are fresh.
- A write and its publishes are one step, and a publish reaches the queues of the subscribed clients in that
  step. RedisSynk.go:317-323 has this by MULTI/EXEC; MongoSynk.go:165-169 makes separate calls, so there it
  is an assumption.
- A subscription change is one step for map and pub/sub alike (Client.go:275-282), and the browser forgets the
  removed keys in that step, whatever is pending. The load is a separate step, with any steps by others in
  between; the main loop takes nothing from the queue before the load is written (Client.go:273-313).
- No object moves to the empty key, which `omitempty` hides from the browser, or out of a key that holds
  `{`, which breaks the header. `Replicas.ModifyUpdatesView` and `Framing.FrameRoundTrip` say exactly when.
- For RedisSynk, an object comes to `Create` with its ID set, without `:`, and `OnCreate` leaves its subscription
  key alone. `RedisRuns.CreateKeepsInvIff` and `RedisKeys.KeyRoundTrip` say exactly when. The JSON of a Human
  loses its tag (stest/char.go:12) and that of an Orc keeps it; both are in the theorems, and
  `Refinement.SameLoads` says what a load then returns.
- `OnCreate` uses the object's own methods. JSON and BSON are lossless on exported fields, and an encoded
  message starts with `{`.

## Where the code and its comments differ

The model follows the code.

- Client.go:187-194 says a client misses no mod between snapshot and subscription. An object that moves from
  a key being loaded to one already watched is missed for good (`Limits.WindowMoveLosesObject`), and messages
  queued before the change can lose an object or leave one for good (`Limits.QueuedAddLeavesGhost`,
  `Limits.QueuedMoveLosesObject`, `Limits.QueuedMoveLeavesGhost`).
- Client.go:321-341 calls Close safe for concurrent calls and says no subscription request can follow the
  drained channel. With a second caller, the main loop may still be inside `updateSubscription` when the
  agent is removed, and may register it again (`Shutdown.ConcurrentCloseAllowsLateWatch`,
  `Shutdown.LateWatchCrashes`). The repository's only caller is the main loop.
- Init (stest/setters.go:64-68) is said to take the current values. It takes the committed ones and drops
  whatever was pending (`Objects.DoRefinesPair`).
- RedisSynk.go:194-196 says an unresolved object is stored unresolved. `redisNewObject` resolves it.

## Model

| member | source | states |
|---|---|---|
| WholeRuns.AlwaysConverges | Client.go:98-319 | In every run with any number of subscription changes, if no object escapes any change of a client's, the client holds exactly the committed objects it subscribes to whenever it has nothing pending |
| WholeRuns.IdlePromptConverges | Client.go:273-313 | A client that changes its subscriptions only with nothing pending, and loads at once, holds exactly the committed objects it subscribes to whenever it has nothing pending, in every run |
| WholeRuns.PromptConverges | Client.go:273-313 | With loads that follow at once, only messages pending at a change can make a client go wrong, as the conditions on its queue say |
| Convergence.ReplicaIsView | Client.go:98-319 | In every run, a client with nothing pending differs from what it should hold on exactly its blind objects, which it misses, and its ghosts, which it holds wrongly |
| Convergence.CopiesWereCommitted | Tag.go:29-31 | At every moment of every run, each copy a browser holds is the object as it was committed at some moment, key, fields and version alike |
| Convergence.WindowConvergesIff | Client.go:273-313 | Whatever a client held, missed or had pending before a subscription change, it holds all it should after the load exactly when no object escaped |
| Convergence.SubscribeWindowConverges | Client.go:273-313 | Any client, with anything pending, converges after a subscription change if no object escapes between the change and the load, whatever runs afterwards |
| Convergence.FreshClientConverges | Client.go:57 | The first subscription of a client converges whatever happens before it, in the window before its load and afterwards |
| Convergence.WholeLoadConverges | Client.go:187-194 | A client whose added keys are all it then watches converges whatever happens in the window, if the change leaves no ghost |
| Convergence.WrongIffEscaped | Client.go:282-294 | After a load a client is wrong on exactly the objects that escaped: lost by the change and watched since, or left as a ghost and not announced since, and in either case under none of the loaded keys |
| Convergence.ChangeAndLoadIff | Client.go:273-313 | With anything pending, a client is wrong after a change and its load on exactly the objects the change loses or leaves as ghosts and the load does not find; for an object it was right about and does not hold under a removed key, exactly if the object passed through a removed key to a kept one, a queued add is what put it under a removed key, or its last queued move is into an added key where the load does not find it |
| Convergence.GoesWrongIff | Client.go:275-280 | The same three cases for the change itself, with or without added keys |
| Convergence.HeldUnderRemoved | Client.go:275-280 | An object held under a removed key, with no add of it queued, goes wrong exactly when by now it is under a key the client keeps and does not load |
| Limits.WindowMoveLosesObject | Client.go:116-124 | A run in which an object moves during the window and is never received |
| Limits.QueuedAddLeavesGhost | Client.go:275-280 | A run in which unsubscribing with an add queued leaves an object under no watched key |
| Limits.QueuedMoveLosesObject | Client.go:275-280 | A run in which unsubscribing with a move to a kept key queued loses the object |
| Limits.QueuedMoveLeavesGhost | Client.go:275-294 | A run in which subscribing to a key that a queued mod moves an object into, which has left it since, leaves the object there |
| Replication.NextKeepsInv | Client.go:160-200 | Every step of every actor keeps the replication invariant of all clients |
| Replication.MutationMeets | MongoSynk.go:80-193 | Replayed over any copy that was once committed, what a mutation delivers leaves a right copy right, a missing object missing while it is watched, and an outdated copy outdated unless an add or a rem comes |
| Replication.LoadSettles | Client.go:294-313 | A snapshot of any watched keys written ahead of an arbitrary queue gives those objects their committed state, whatever stale messages follow and however wrong the copy was, and touches no other object |
| Replication.SnapshotSays | Client.go:301-312 | In every run, what is written for a loaded object has its document's state and version, its stored `sub` and type, and no previous key |
| Replication.SubscribeOutcome | Client.go:273-282 | With anything pending, what a client ends with on an object after a change is what its queue leads to if every key the object moved to since it was last added is then watched, and nothing otherwise |
| Replication.SubscribeKeepsClient | Client.go:273-282 | A subscription change with anything pending goes wrong on exactly the objects it loses and those it leaves as ghosts |
| Replication.HandOverKeepsClient | Client.go:160-173 | Handing the browser the next pending message keeps the invariant |
| Replicas.FollowTells | Client.go:160-173 | Replaying a queue in version order depends on the subscriptions only in whether all keys a copy moved to since it was last added are watched |
| Replicas.ModifyOfOutdated | Tag.go:29-31 | A Modify puts an outdated copy right exactly when the object comes into sight, or was missing and goes out of sight; else the copy stays as it is |
| Replicas.ModifyUpdatesView | MongoSynk.go:117-173 | A Modify brings an up-to-date replica to the new view, in all four cases of old and new key watched, exactly when it is not a move to the empty key out of a watched one |
| Replicas.ModifyKeepsMissing | Client.go:116-124 | A client that misses an object keeps missing it when it is modified or moves from a key the client watches |
| Replicas.StaleIgnored | Tag.go:29-31 | Messages no newer than the held version change nothing |
| Mutations.ModifyReachesOnce | MongoSynk.go:136-170 | A Modify reaches a client at most once: the diff if it watches the old key, the full state if only the new one, never both |
| Mutations.ReceiverAdmits | Client.go:98-130 | On published text, the receiver's filter is the one of the protocol |
| Mutations.CreateCommits | MongoSynk.go:81-98 | Create commits the state the object shows after every setter made before it and in OnCreate, stores that state's key, and counts each Resolve in the version |
| MongoRuns.StoredSubAgrees | MongoSynk.go:41-46 | In every run, the query on the stored `sub` field finds exactly the objects whose computed key matches |
| MongoRuns.PerformKeepsInv | MongoSynk.go:80-193 | Memory and store agree on every object, and its `sub` is its committed key, after every operation |
| MongoRuns.PublishedVersionsConsecutive | MongoSynk.go:129-161 | In every run, the versions announced for an object are consecutive, up to the stored one |
| MongoRuns.PublishedAddressed | MongoSynk.go:124-170 | In every run, each message names its channel, and a move's add directly follows its mod with the same object and version, each naming the other's key |
| MongoRuns.EveryStepAnnounces | MongoSynk.go:80-193 | In every run, each step publishes exactly what its documents before and after say, under their stored `sub` and with their stored type: a created or moved object in full, a modified one as a diff between its two states, a deleted one as it was stored |
| MongoRuns.PublishedDiffIsExact | MongoSynk.go:129-131 | In every run, unless Init ran on the object since its last Modify, a published diff has exactly the fields in which the stored object changes, at their new values |
| MongoStore.MongoSynk.Create | MongoSynk.go:80-114 | Creates the object with the state its pending setters and OnCreate give it, files its document and announces it under its committed key; fails without effect on the store if the ID is taken |
| MongoStore.MongoSynk.Modify | MongoSynk.go:117-173 | Resolves the object, replaces its document and publishes the diff, and on a move the full state |
| MongoStore.MongoSynk.Delete | MongoSynk.go:176-193 | Removes the document and announces it under the previous key, with its ID and the type key of its kind |
| MongoStore.MongoSynk.Load | MongoSynk.go:41-71 | One object per matching document whose type has a container, equal to it, with nothing pending |
| MongoStore.RunsLoadView | MongoSynk.go:41-71 | In every run, a load skips nothing and returns the view by computed key |
| MongoStore.LoadedCanBeModified | MongoSynk.go:41-71 | In every run, an object that is loaded, set and modified is filed with the state its setters made of the stored one, its tag kept but for version and key, where a later load by that state's key finds it |
| MongoStore.WithContainerSkips | MongoSynk.go:57-61 | A load skips exactly the documents whose type is neither `c:h` nor `c:o`, and keeps the others in order |
| RedisRuns.IndexAgrees | RedisScripts.go:6-13 | In every run, the union of the sets of any keys, repeats allowed, is exactly the stored objects whose committed key is among them |
| RedisRuns.DeleteKeepsInv | RedisSynk.go:328-354 | Deleting an object, a move pending or not, leaves store and index in agreement |
| RedisRuns.ModifyKeepsIndexed | RedisSynk.go:284-323 | A Modify, simple or a move, leaves each key's set exact |
| RedisRuns.CreateKeepsInvIff | RedisSynk.go:197-246 | Create leaves store and index in order exactly when the object has its ID and OnCreate keeps its subscription key |
| RedisRuns.LoadedIsOwnedIff | stest/char.go:11-52 | In every run, an object loaded from Redis is fit to be modified exactly if it is an Orc, which has its whole tag back; a Human has its fields but an empty ID |
| RedisRuns.SubIsNotRefreshed | RedisSynk.go:256-282 | A Modify leaves the stored `sub` at the key the object was created under, move or not |
| RedisRuns.SetsAreOfLiveKeys | RedisSynk.go:315-354 | In every run, there is a set for exactly the keys under which some object is stored |
| RedisStore.RedisSynk.Create | RedisSynk.go:197-246 | Stores the object, with the state its pending setters and OnCreate give it, indexes and announces it under the keys taken before TagInit and OnCreate, unless the Redis key is taken; an Orc is stored with its tag, a Human without |
| RedisStore.RedisSynk.Modify | RedisSynk.go:252-326 | Leaves store, index and published messages as the specification of a Modify does; an Orc is stored with its tag, a Human without |
| RedisStore.RedisSynk.Delete | RedisSynk.go:328-354 | Leaves store, index and published messages as the specification of a Delete does, with the object's ID and the type key of its kind announced |
| RedisStore.RedisSynk.SetAndPublish | RedisScripts.go:21-29 | Sets, indexes and publishes and answers "OK", or does nothing and answers "NO" if the key is taken |
| RedisStore.RedisSynk.RequestByteSlices | RedisSynk.go:102-135 | Each member of the union once, beside what is stored there; fails exactly for no keys |
| RedisStore.RedisSynk.RequestObjects | RedisSynk.go:141-177 | One object per stored object with a matching key, equal to it; fails exactly for no keys or on a type without a container |
| RedisStore.ContainersFit | RedisSynk.go:156-162 | In every run, the container picked from a Redis key is the one of the object stored there |
| RedisKeys.KeyRoundTrip | RedisSynk.go:180-192 | Type and ID are recovered from a Redis key exactly when the ID holds no colon, whatever the type key |
| RedisKeys.KeyInjective | RedisSynk.go:180-192 | Distinct (type, ID) pairs never share a Redis key |
| RedisKeys.PartsRejoin | RedisSynk.go:184-192 | Any key with a colon is put together again from its two parts, the second without a colon; a key without one is type and ID alike; the container goes by the first part |
| Refinement.RunMatches | RedisSynk.go:197-354 | Every run of MongoSynk whose creations RedisSynk can take, of objects of either kind, is one of RedisSynk and keeps the two stores matched |
| Refinement.SameMessages | RedisSynk.go:214-323 | For objects of either kind, both publish the same messages on the same channels in the same order |
| Refinement.SameLoads | RedisScripts.go:6-13 | For every list of keys both stores find the same objects, each once, with the same kind and fields; what RedisSynk holds for an Orc has the ID, type and version of MongoSynk's document, and what it holds for a Human has the zero tag |
| Refinement.AnswersPair | RedisSynk.go:141-177 | Whatever the order, what MongoSynk's query answers and what RedisSynk's union and lookup answer for the same keys pair off one to one as the same objects, an Orc with the same ID, type and version, a Human with the zero tag (for no keys RedisSynk's script fails, see RequestObjects) |
| Framing.FrameRoundTrip | RedisSynk.go:315 | The receiver recovers previous key and object from framed text exactly when the key holds no `{` |
| Framing.UnframedPasses | Client.go:98-104 | A JSON object without header passes unchanged |
| Framing.HeaderDecides | Client.go:98-130 | Whatever stands before the object decides: after `from ` it is forwarded unless the named key is subscribed to, after any other header to everybody |
| ClientSide.SynkClient.Receive | Client.go:98-130 | Queues what the header and the subscriptions let through |
| ClientSide.SynkClient.ChangeSubscriptions | Client.go:273-282 | Removes, then adds, in the map and in the pub/sub membership alike |
| ClientSide.SynkClient.WriteSnapshot | Client.go:301-315 | Writes the add message of each loaded object past the queue |
| ClientSide.SynkClient.UpdateSubscription | Client.go:273-319 | Changes the subscriptions and writes the objects found under the added keys, and leaves the queue alone |
| ClientSide.TextsAreDelivered | Client.go:98-130 | The queue of texts is the encoding of the protocol's queue of messages |
| ClientSide.RunTextsAreDelivered | Client.go:98-130 | In every run, what a client makes of all the published texts is the encoding of what the protocol delivers |
| ClientSide.AnswersAreLists | Client.go:287 | What the store answers is a load as the protocol has it |
| Objects.DiffLogReplays | stest/setters.go:29-40 | Folding all diffs of a run over the first state gives the committed one, and the version counts them, Init included |
| Objects.RefinesPair | stest/setters.go:29-85 | Any run moves committed and effective state as a pair of plain records would |
| Objects.PendingIsDifference | stest/setters.go:43-76 | Unless Init ran since the last Resolve, a field is in the diff exactly when its two values differ, and Changed says whether any does |
| Objects.SettingBackCancels | stest/setters.go:70-76 | Setting a field back to its committed value cancels the change |
| Objects.HumanKeyReads | stest/char.go:31-33 | A Human's key reads back as (m, x, y) exactly when its fields MapID, CX and CY hold m, x and y |
| Objects.OrcKeyReads | stest/setters.go:262-270 | An Orc's key is the value of its SubKey field |
| Objects.FieldsAsDeclared | stest/char.go:11-52 | The fields of the two kinds and their Go types are those declared |
| Objects.HumanKeyChanges | stest/char.go:31-38 | A Human's key changes, and its Modify is a move, exactly when map name, CX or CY changes |
| ChunkKeys.ParseInvertsChunkKey | stest/char.go:31-33 | Reading a chunk key from the right gives back map name, CX and CY, whatever the map name holds |
| ChunkKeys.ChunkKeyInjective | stest/char.go:31-38 | Chunks share a key exactly when they are the same |
| ChunkKeys.DecimalIs | stest/char.go:31-33 | A coordinate prints as the one numeral without leading zeros that reads back as it, with a sign exactly when it is negative |
| TrackedObjects.TrackedObject.Set | stest/setters.go:70-76 | Puts the value in a new variable, or cancels; writes no existing variable |
| TrackedObjects.TrackedObject.Resolve | stest/setters.go:29-40 | Applies the diff field by field, counts the version, hands out the same pointers |
| TrackedObjects.TrackedObject.Init | stest/setters.go:66-68 | Points the whole diff at the committed fields |
| TrackedObjects.TrackedObject.Copy | stest/setters.go:60-63 | A new object of equal value whose diff has the same pointers |
| TrackedObjects.TrackedObject.Get | stest/setters.go:80-85 | The getter gives the effective value |
| TrackedObjects.TrackedObject.TagInit | Tag.go:35-44 | Sets type and ID where unset |
| HeapRuns.RunAll | stest/setters.go:29-76 | After any run of setters, Resolve, Init and Copy over any objects, the heap's objects and handed-out diffs have the values of a world of plain values in which only Init shares; a diff that points to variables only keeps its values |
| HeapRuns.FrozenIff | stest/setters.go:29-40 | A diff shows the same values however a run goes on exactly when none of its pointers leads into an object |
| HeapRuns.HandedOutFrozenIff | stest/setters.go:29-68 | After any run, the diff that Resolve hands out is frozen for good exactly when no field of it is as Init left it, which is so whenever Init has not run since the object's last Resolve |
| HeapRuns.EvolvesAlone | stest/setters.go:60-76 | An object whose diff refers to no other object ends as its own edits make it, Init included, whatever others do |
| HeapRuns.IndependentIff | stest/setters.go:60-76 | An object is independent of what all others do exactly when its diff refers to none of them |
| HeapRuns.CopyIndependentIff | stest/setters.go:60-63 | A copy and its original are independent from then on exactly when the original's diff leads into no object at that time |
| HeapRuns.InitSharesFields | stest/setters.go:66-68 | After Init, a diff already handed out is rewritten by the next Resolve |
| HeapRuns.CopyAfterInitShares | stest/setters.go:60-68 | After Init, a copy sees a change that only its original was given |
| Shutdown.ShutdownSafe | Client.go:323-346 | With the main loop as only caller of Close, in every interleaving nothing panics, and toWebSocket is closed at most once, after Close finished and off agents and pool |
| Shutdown.ServerSafe | ClientPool.go:23-42 | With any clients coming and going, neither broadcast nor publish meets a closed channel |
| Shutdown.NextKeepsSafeIff | Client.go:336-346 | The one step that can spoil safety is a subscription made after the agent is removed |
| Shutdown.SharedCloseSafe | Client.go:321-346 | Whoever calls Close, a run without such a step is safe |
| Shutdown.LateWatchCrashes | Handler.go:60-62 | From such a step on, a run leads to a send on the closed channel |
| Shutdown.ConcurrentCloseAllowsLateWatch | Client.go:321-346 | A second caller of Close can bring about such a step |
| Shutdown.NeverStuck | Client.go:217-250 | Reader, drain loop and the rest never wait on each other for good, full 64-slot buffer or not |
| Shutdown.ShutdownCompletes | Client.go:323-346 | After the socket is closed a run has boundedly many productive steps, and one that can take none has closed and emptied fromWebSocket and closed toWebSocket once |
| Shutdown.FramesConserved | Client.go:225-249 | In every interleaving, what is received from fromWebSocket is, in order and with nothing lost, made up or doubled, what parses of the frames read, and it is the main loop that receives it until the socket is closed |
| Shutdown.EndComesLast | Client.go:179-184 | The main loop sees the end of fromWebSocket only after every message of the frames read was received |
| Shutdown.BroadcastReachesPool | ClientPool.go:32-41 | A broadcast panics on exactly the pool members whose channel is closed |

## Left out

- Connections, dialling, deadlines, pings, logging and environment variables (Node.go, most of Interfaces.go).
- JSON and BSON as text: an abstract lossless encoding; `MessageFromBytes` with it.
- The pubsub library: an abstract membership with in-order delivery; its locking is not guessed.
- Blocking of `Receive` on a full queue, dropped broadcasts on overrun, and store errors other than a taken or missing ID, no keys, and a type without container.
- MongoSynk's write and two publishes interleaved with subscription changes; they are one step.
- Versions wrap around at the width of Go's uint; here they are natural numbers.
- Shutdown: the contents of toWebSocket, messages from custom clients, and a `Receive` already blocked when the agent is removed.
- Custom callbacks (`OnConnect`, `OnMessage`, `OnSubscribe`), and an `OnCreate` that does more than call the object's methods.
- Pipe.go, which the source calls unsupported, `redisHandleMessage`, the deprecated `getID` and ID generation.
