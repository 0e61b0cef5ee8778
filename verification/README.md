# Verified model of the keyed channels, the priority channel and their synchronisation

The crate `pa_queue_and_chan` offers channels whose messages carry keys: a message may be handed
to the receiver only while no other outstanding message holds one of its keys. Dropping a message
gives its keys back. Beside them it has an asynchronous channel with priorities, the atomic waker
that this channel sleeps on, a parker with a timeout and a queue with one sub-queue per thread.
This project models that code in Dafny and proves what it keeps in every run.

| files | what they model |
|---|---|
| `ConflictSpec`, `ConflictManager` | the conflict manager: as a mathematical object with its invariant, and as the objects of the source (shared key states, weak handles, the two tables) proved to compute the same |
| `ReceiverLoop`, `ReceiverSpec`, `MultiKeyChannel` | the receiver's turns, and `sync_pop` with other threads pushing during the call |
| `CallOrder` | the order of a call of `sync_pop`, of either channel, told by what was popped and what was found empty |
| `KeyLedger`, `MultiKeySystem`, `MultiKeyTheorems`, `MultiKeyRepeats`, `MultiKeyDeadHandle`, `MultiKeyDrain` | runs of the multi-key channel, interleaved at every queue operation, and the theorems about them: who owns how many copies of a key, exclusion, refinement, exactly when it panics, draining |
| `MultiKeyCalls` | calls of `sync_pop` as parts of those runs |
| `SingleKeyChannel`, `SingleKeySystem`, `SingleKeyTheorems`, `SingleKeyCalls` | the same for the single-key channel |
| `AbstractChannel` | what both refine: pending messages, held keys, a delivery that is enabled exactly when the keys are free |
| `ListenerProtocol`, `MultiKeyBlocking`, `SingleKeyBlocking` | how both channels block on the event listener, by itself and joined with each channel |
| `AtomicWaker` | the two-bit lock around the waker cell, as atomic steps and as the source's methods with other threads let in between |
| `PriorityQueue`, `PriorityRace` | the priority map as a stably sorted list, and its pushes and walks interleaved |
| `PriorityChannel`, `PriorityAnswers`, `PriorityClosing`, `PriorityOrder` | the whole priority channel on top of the waker: wakes, what `recv` answers and when, what `Ready(None)` leaves behind, the order of items |
| `Parker`, `PerThreadQueue` | the parker and the per-thread queue, each as steps and as methods |
| `Util`, `Keys`, `Runs`, `SegQueue` | shared vocabulary: sequences, the type parameters, runs and invariants, the queue contract |

Concurrent code is modelled twice over: a transition system whose steps are single atomic
operations or lock sections, with an inductive invariant over all runs; and, where the source is
a method on shared state, a Dafny method that lets any number of the other threads' steps happen
after each of its own (`OthersRun` and its kin, whose bodies are one possible behaviour and whose
contracts are all that callers use; the `Rely` lemmas show that the
others' steps keep within them). `Moved` ties each assignment to the machine's step.

Where code and expectation part, the model follows the code:

- A message freed through one key stays listed, dead, at its other keys
  (`kv_mpsc_multik.rs` lines 153-156), and a later search there panics (line 151). Panics are
  outcomes of the model. If no message repeats a key, a run that comes to rest has met this one if
  and only if a message with two keys has ever waited (`RestsOnDeadHandleExactly`, and
  `RestsInPanicExactly` for all messages); `ReleasePanicsExactly` says it of a single release,
  `EveryOrderPanicsExactly` and `SomeOrderPanicsExactly` of draining, and `DeadHandleHappens` shows a run.
- Nothing keeps a sender from repeating a key inside one message. A new one that conflicts with
  none fails an assertion (`kv_mpsc_multik.rs` lines 119-122). One that has waited does so only if
  it repeats another key than the one through which it is found: `try_set_use` skips that one
  (lines 111-117), so the message is handed out, gives the key back twice, and exclusion is gone
  without a panic. `MutualExclusion` and `RepeatedHandedOutExactly` say exactly when,
  `RepeatedKeyBreaksExclusion` shows a run. The runs of this model send whatever they like.
- `Closed` and `Ready(None)` are decided by reading a flag after the queue was found empty, so a
  message can be left behind; `ClosedLeavesMessage` and `ClosedLeavesExactly` say exactly when.
- The first push of a priority does not look again under the write lock
  (`priotity_async_mpsc_chan.rs` lines 33-38); see `EveryTrace` and `RacingFirstPushesLose`.
- Dropping the last priority sender does not wake the receiver (lines 117-120):
  `DropSendersWakesNobody` and `SleepsThroughTheEnd`. The wake theorems are about messages.
- `lib.rs` lines 112-115 leave the two keyed channels out of the build, although the repository's README documents them.

## Model

| member | source | states |
|---|---|---|
| `MultiKeyTheorems.MutualExclusion` | rust/pa_queue_and_chan/src/kv_mpsc_multik.rs:209-281 | In every state of every run, whatever the senders send, each key in use has exactly one owner (a living message or the drop queue) and nobody else has one, if and only if no message handed out so far repeats a key. Then no two living messages share a key, a key sitting in the drop queue belongs to no living message, and the keys in use are exactly those of both, even half-way through the drop of a message. |
| `MultiKeyRepeats.RepeatedKeyBreaksExclusion` | rust/pa_queue_and_chan/src/kv_mpsc_multik.rs:110-122 | For any key and value there is a run, with one message that carries the key twice, after which two living messages hold the key and nothing has panicked. |
| `MultiKeyTheorems.RepeatedHandedOutExactly` | rust/pa_queue_and_chan/src/kv_mpsc_multik.rs:133-159 | A message that repeats a key is handed out exactly when it waited and a search through a released key frees it that is the only one it repeats. |
| `KeyLedgers.OwnedExactly` | rust/pa_queue_and_chan/src/kv_mpsc_multik.rs:209-281 | From the ledger - of each key, the copies given back and held are the one in use and the surplus copies of delivered messages - exclusive ownership holds if and only if no delivered message repeats a key. |
| `KeyLedgers.HeldHasOwner` | rust/pa_queue_and_chan/src/kv_mpsc_multik.rs:209-281 | A key in use is always in the drop queue or held by a living message, whatever messages repeat. |
| `MultiKeyTheorems.DeliveredOnceAsSent` | rust/pa_queue_and_chan/src/kv_mpsc_multik.rs:245-281 | In every run each accepted message is queued, waits or was delivered; none is delivered twice, and each comes out with its keys in the order sent, whether or not it waited. |
| `MultiKeyTheorems.NoneStranded` | rust/pa_queue_and_chan/src/kv_mpsc_multik.rs:209-224 | In every run each waiting message needs a key that a living message holds or that is still in the drop queue, so some later release searches for it. |
| `MultiKeyTheorems.ReleasePanicsExactly` | rust/pa_queue_and_chan/src/kv_mpsc_multik.rs:133-159 | Releasing a key can panic if and only if it is not in use, an earlier message that waited for it was freed through another of its keys, or a message that it frees repeats another key; it must panic if and only if it is not in use, or something is found and every message that it frees repeats another key. Without repeated keys only the departed message is left of these. |
| `MultiKeyTheorems.NewPanicsExactly` | rust/pa_queue_and_chan/src/kv_mpsc_multik.rs:245-281 | A new message panics if and only if it conflicts and the next waiting id is the largest `i32`, or it conflicts with none and repeats a key. |
| `MultiKeyTheorems.IdsLastExactly` | rust/pa_queue_and_chan/src/kv_mpsc_multik.rs:233-242 | In every run, a message that conflicts waits without a panic if fewer than 2147483647 messages have begun to wait before it, and panics with the overflow if as many have; more never do. |
| `MultiKeyTheorems.DistinctRunIsClean` | rust/pa_queue_and_chan/src/kv_mpsc_multik.rs:105-127 | In every run in which no message sent so far repeats a key, the only panics are the dead handle and the id overflow. |
| `MultiKeyTheorems.OneKeyNeverDead` | rust/pa_queue_and_chan/src/kv_mpsc_multik.rs:133-159 | In a run whose messages carry at most one key each no dead handle exists, so the search never panics. |
| `MultiKeyTheorems.BlockingJustified` | rust/pa_queue_and_chan/src/kv_mpsc_multik.rs:324-377 | When both queues are empty, every undelivered message shares a key with a message that is still alive, so waiting is justified. |
| `MultiKeyTheorems.Refines` | rust/pa_queue_and_chan/src/kv_mpsc_multik.rs:209-281 | Every event is a sequence of enabled actions of the abstract channel: a message is handed out only when its keys miss the held ones, and only a held key is released. |
| `MultiKeyTheorems.EveryRun` | rust/pa_queue_and_chan/src/kv_mpsc_multik.rs:209-281 | The whole invariant - ledger of key copies, table against index, no stranded message, place of every message - holds in every state of every run of sends, turns and drops, whatever is sent. |
| `MultiKeySystem.StepKeepsInv` | rust/pa_queue_and_chan/src/kv_mpsc_multik.rs:324-377 | Every single push, key drop and receiver turn keeps that invariant. |
| `MultiKeySystem.DropPanics` | rust/pa_queue_and_chan/src/kv_mpsc_multik.rs:105-127 | Without repeated keys the release of a dropped key panics if and only if the search meets a dead handle; the other assertions (double use, release of an unused or unknown key) are unreachable. |
| `KeyLedgers.IsHandedOut` | rust/pa_queue_and_chan/src/kv_mpsc_multik.rs:271-275 | Handing out a message that meets no key in use keeps the ledger, surplus copies included. |
| `KeyLedgers.GivesBack` | rust/pa_queue_and_chan/src/kv_mpsc_multik.rs:524-533 | One step of a message's drop loop moves one copy of a key from the message to the drop queue and keeps the ledger. |
| `KeyLedgers.IsReleased` | rust/pa_queue_and_chan/src/kv_mpsc_multik.rs:209-213 | Releasing the head of the drop queue, a key in use, keeps the ledger. |
| `MultiKeySystem.FoundHandsOutNew` | rust/pa_queue_and_chan/src/kv_mpsc_multik.rs:133-159 | The message that a search frees is an accepted, undelivered one, with the keys it was sent with. |
| `MultiKeySystem.TurnKeepsRemembered` | rust/pa_queue_and_chan/src/kv_mpsc_multik.rs:153-156 | The dead ids in the indices are exactly those that messages freed through another key left behind. |
| `MultiKeyDrain.RunDry` | rust/pa_queue_and_chan/src/kv_mpsc_multik.rs:324-377 | Once nothing is sent, any schedule of turns and drops comes to rest; unless it panics, everything accepted has been delivered and every key is free. With an empty send queue it panics if and only if the start is doomed (a message with two keys waits or has waited, or a delivered one repeats a key). |
| `MultiKeyDrain.EveryOrderPanicsExactly` | rust/pa_queue_and_chan/src/kv_mpsc_multik.rs:324-377 | With ids enough, every schedule from a reachable state ends in a panic if and only if that state is doomed or a message in its queue repeats a key. |
| `MultiKeyDrain.SomeOrderPanicsExactly` | rust/pa_queue_and_chan/src/kv_mpsc_multik.rs:324-377 | Some schedule ends in a panic if and only if every one does, or a queued message with two keys meets a key in use or shares one with a message ahead of it in the queue. |
| `MultiKeyDeadHandle.RestsInPanicExactly` | rust/pa_queue_and_chan/src/kv_mpsc_multik.rs:133-159 | In every run that comes to rest before the ids are used up, whatever is sent, there has been a panic if and only if a message with two keys has waited at some point, or at the end the receiver took one that repeats a key and conflicts with none. |
| `MultiKeyDeadHandle.RestsOnDeadHandleExactly` | rust/pa_queue_and_chan/src/kv_mpsc_multik.rs:133-159 | If no message repeats a key, that panic is the dead handle, and it has struck if and only if a message with two keys has waited. |
| `MultiKeyDeadHandle.PanicsOnlyDoomed` | rust/pa_queue_and_chan/src/kv_mpsc_multik.rs:105-159 | A panic other than the id overflow strikes only a doomed channel, or a message that repeats a key and conflicts with none. |
| `MultiKeyDeadHandle.QuietPanicsExactly` | rust/pa_queue_and_chan/src/kv_mpsc_multik.rs:133-159 | At rest, a doomed channel has panicked; if no message repeats a key, the panic has struck if and only if a message with two keys waits or a departed one is still listed. |
| `MultiKeyDeadHandle.EveryRunDeadHeld` | rust/pa_queue_and_chan/src/kv_mpsc_multik.rs:209-224 | In every run, a key whose index lists a departed message is in use. |
| `MultiKeyDeadHandle.StepKeepsDeadHeld` | rust/pa_queue_and_chan/src/kv_mpsc_multik.rs:133-159 | Every step keeps that: a search whose index lists a departed message cannot end without a result, and a found message takes the key again. |
| `MultiKeyDeadHandle.StepStaysDoomed` | rust/pa_queue_and_chan/src/kv_mpsc_multik.rs:153-156 | Once a message with two keys has waited, no step undoes the coming panic: leaving the table, it keeps its id listed at one of its keys or is delivered with a copy too many. |
| `MultiKeyDeadHandle.OnlyNewDooms` | rust/pa_queue_and_chan/src/kv_mpsc_multik.rs:245-281 | Only the handling of a new message can bring such a state about. |
| `MultiKeyDrain.NotStuck` | rust/pa_queue_and_chan/src/kv_mpsc_multik.rs:324-377 | Until both queues are empty and all message objects are gone, or a panic has happened, some turn or drop is possible. |
| `MultiKeyDrain.Shrinks` | rust/pa_queue_and_chan/src/kv_mpsc_multik.rs:324-377 | Every such event makes the work left smaller in a lexicographic order: undelivered messages, queue length, keys not given back, message objects, drop queue length. |
| `MultiKeyDrain.DeadHandleHappens` | rust/pa_queue_and_chan/src/kv_mpsc_multik.rs:133-159 | For any two keys and any value there is a run of two sends, drops and turns that ends in the dead-handle panic. |
| `ConflictSpec.ScansAreChoices` | rust/pa_queue_and_chan/src/kv_mpsc_multik.rs:133-152 | What the search may return, as described without an order, is exactly what scanning the index returns in some iteration order of the hash map. |
| `ConflictSpec.HandleNewKeepsInv` | rust/pa_queue_and_chan/src/kv_mpsc_multik.rs:245-281 | A new message keeps table and index in agreement, ids distinct and below the next one, no message stranded and no idle entry in the key table; it makes no handle dead. |
| `ConflictSpec.ReleaseKeepsInv` | rust/pa_queue_and_chan/src/kv_mpsc_multik.rs:209-224 | One turn of the drop loop keeps the same; in particular, after a search of the released key's waiters alone, no message in the whole waiting table is free. |
| `ConflictSpec.FoundKeepsInv` | rust/pa_queue_and_chan/src/kv_mpsc_multik.rs:214-218 | Taking out the found message, whose keys become used, leaves every other waiting message with a key in use. |
| `ConflictSpec.NoneFreeKeepsInv` | rust/pa_queue_and_chan/src/kv_mpsc_multik.rs:219-221 | When no waiter of the released key is free, removing its entry exactly when its index is empty leaves no idle entry and no stranded message. |
| `ConflictManagers.ConflictManager.HandleNewMsg` | rust/pa_queue_and_chan/src/kv_mpsc_multik.rs:245-281 | On the objects (shared key states, weak handles), the call returns and leaves behind what the specification says, keeping table and handles coherent; the panics it can raise are id overflow and a repeated key. |
| `ConflictManagers.ConflictManager.ReleaseKey` | rust/pa_queue_and_chan/src/kv_mpsc_multik.rs:210-221 | One turn of the drop loop on the objects is the specification's release with an outcome the search may have. |
| `ConflictManagers.ConflictManager.UnuseAllDropedKey` | rust/pa_queue_and_chan/src/kv_mpsc_multik.rs:209-224 | With other threads pushing between its turns, the loop is a sequence of such turns that ends at the first that frees a message or panics, or when it finds the drop queue empty. |
| `ConflictManagers.ConflictManager.OneStatePerKey` | rust/pa_queue_and_chan/src/kv_mpsc_multik.rs:257-266 | Two waiting messages that need the same key hold the very same key state object, it is the one in the key table, and its weak handles upgrade to both. |
| `ConflictManagers.ConflictManager.BuildWaiting` | rust/pa_queue_and_chan/src/kv_mpsc_multik.rs:257-266 | Popping the keys from the back enters the message with fresh id under every key, creating missing key states. |
| `ConflictManagers.ConflictManager.NewWaitingMsg` | rust/pa_queue_and_chan/src/kv_mpsc_multik.rs:233-242 | The new message has the next id, which no message ever made has. |
| `ConflictManagers.ConflictManager.MeetsUsed` | rust/pa_queue_and_chan/src/kv_mpsc_multik.rs:248-255 | The loop finds a key in use exactly if there is one. |
| `ConflictManagers.ConflictManager.Activate` | rust/pa_queue_and_chan/src/kv_mpsc_multik.rs:271-275 | All keys become used; the assertion in `set_use` fails exactly if a key is repeated. |
| `ConflictManagers.ConflictManager.TakeOut` | rust/pa_queue_and_chan/src/kv_mpsc_multik.rs:214-218 | The found message leaves the table and is returned with its value and its keys in the order sent; its weak handles stop upgrading. |
| `ConflictManagers.ConflictManager.RemoveIdle` | rust/pa_queue_and_chan/src/kv_mpsc_multik.rs:219-221 | The key's entry is removed exactly if its index is empty. |
| `ConflictManagers.ConflictManager.WaitingmsgsExist` | rust/pa_queue_and_chan/src/kv_mpsc_multik.rs:228-230 | True exactly if a message waits. |
| `ConflictManagers.ConflictManager.HandleByKey` | rust/pa_queue_and_chan/src/kv_mpsc_multik.rs:96-108 | A key state of the table is among a waiting message's handles exactly if its key is among the message's keys. |
| `ConflictManagers.KeyState.TryGetStopWaitingMsg` | rust/pa_queue_and_chan/src/kv_mpsc_multik.rs:133-159 | The search returns a message none of whose keys is used, marks its keys and drops it from this index only; or reports a departed message; or every waiter has a key in use and nothing changes. |
| `ConflictManagers.KeyState.MarkOthers` | rust/pa_queue_and_chan/src/kv_mpsc_multik.rs:111-117 | All handles but the borrowed one are marked; the assertion fails exactly if another handle is repeated. |
| `ConflictManagers.KeyState.AllUnused` | rust/pa_queue_and_chan/src/kv_mpsc_multik.rs:138-142 | True exactly if no handle is used. |
| `ConflictManagers.WaitingMsg.TakeKv` | rust/pa_queue_and_chan/src/kv_mpsc_multik.rs:48-60 | Value and keys are taken once; popping the handles reverses their order back to the one sent. |
| `ConflictManagers.AttachedUpToIsPark` | rust/pa_queue_and_chan/src/kv_mpsc_multik.rs:257-266 | Attaching the handles one by one amounts to entering the whole message at once. |
| `MultiKeyChannels.Channel.SyncPop` | rust/pa_queue_and_chan/src/kv_mpsc_multik.rs:318-378 | With other threads pushing between all its tests and pops: before a new message is taken, at least as many dropped keys were released as there were when the call began, and after any earlier turn as many as there were then; the drop queue was found empty since the last turn or restart. A message or a panic comes from the last turn. The call ends without one only after the drop queue, the send queue, the send queue and the drop queue again were found empty with no turn in between, so that both were empty at once, and are in the end if nobody pushed; it is closed if nothing waits and the senders are gone, waiting otherwise. Its moves are those of the loop. |
| `CallOrder.OrderOfCall` | rust/pa_queue_and_chan/src/kv_mpsc_multik.rs:324-377 | Whatever other threads push, a call of either channel takes messages only when no dropped key was left, and decides only after it found keys, messages, messages and keys gone, in this order. |
| `CallOrder.PresentKeysGo` | rust/pa_queue_and_chan/src/kv_mpsc_multik.rs:324-330 | If messages are taken only from an empty drop queue, then before each of them as many keys were dealt with since the beginning, or since any earlier turn, as there were then. |
| `CallOrder.EmptyAtOnce` | rust/pa_queue_and_chan/src/kv_mpsc_multik.rs:330-343 | If both queues were found empty twice in that order, both were empty at once, and with no push of other threads they are empty in the end. |
| `MultiKeyCalls.CallIsRun` | rust/pa_queue_and_chan/src/kv_mpsc_multik.rs:318-378 | Whatever a call does, pushes of other threads included, is a run of the system on tags: each of its turns is a possible event there, and queues, tables and what is handed out agree. |
| `MultiKeyCalls.TurnsAgree` | rust/pa_queue_and_chan/src/kv_mpsc_multik.rs:209-281 | A turn on messages with values is possible exactly if it is with tags for values, and does the same. |
| `MultiKeyBlocking.SleepsOnlyForKeys` | rust/pa_queue_and_chan/src/kv_mpsc_multik.rs:330-352 | In every run of the channel joined with its way of blocking: a receiver that sleeps un-notified, with nobody about to notify it, faces empty queues, every undelivered message shares a key with a living one, and if the senders are gone a message waits. |
| `MultiKeyBlocking.ClosedLeavesOnlyQueued` | rust/pa_queue_and_chan/src/kv_mpsc_multik.rs:339-342 | In every run of the joined system, when `recv` has answered `Closed` the senders are gone, no message waits, and every accepted message was delivered or is still in the send queue. |
| `MultiKeyBlocking.ReturnsWhatIsHandedOut` | rust/pa_queue_and_chan/src/kv_mpsc_multik.rs:324-377 | A call comes back with a message exactly when one is handed out, and no step between calls hands out any. |
| `MultiKeyBlocking.StepKeepsInv` | rust/pa_queue_and_chan/src/kv_mpsc_multik.rs:324-377 | Every step of the joined system keeps both invariants and the queue lengths in agreement. |
| `MultiKeyChannels.Channel.DropMessage` | rust/pa_queue_and_chan/src/kv_mpsc_multik.rs:524-533 | All keys of the message go to the drop queue, last key first, and the receiver is notified once. |
| `MultiKeyChannels.Channel.DropSenders` | rust/pa_queue_and_chan/src/kv_mpsc_multik.rs:438-444 | The flag is set and the receiver notified. |
| `MultiKeyChannels.Channel.DropReceiver` | rust/pa_queue_and_chan/src/kv_mpsc_multik.rs:486-492 | The flag is set and the event notified. |
| `MultiKeyChannels.Channel.Send` | rust/pa_queue_and_chan/src/kv_mpsc_multik.rs:429-435 | Refused exactly if the receiver is gone; otherwise pushed at the end, with one notification. |
| `SingleKeySystem.EveryRun` | rust/pa_queue_and_chan/src/kv_mpsc.rs:54-110 | In every run: per key, what was delivered, then what waits, then what is queued is what was accepted, in order; keys in use are the disjoint union of those of living messages and of the drop queue; the missing-key panic is never reached. |
| `SingleKeySystem.StepKeepsInv` | rust/pa_queue_and_chan/src/kv_mpsc.rs:54-110 | Every push, drop and receiver turn keeps that. |
| `SingleKeySystem.NewKeepsLined` | rust/pa_queue_and_chan/src/kv_mpsc.rs:97-107 | Taking a message from the queue keeps each key's messages in order, whether it waits or is handed out. |
| `SingleKeySystem.DropKeepsLined` | rust/pa_queue_and_chan/src/kv_mpsc.rs:61-72 | Releasing a key hands out the first of its waiting messages, and keeps each key's messages in order. |
| `SingleKeySystem.DropKeepsOwned` | rust/pa_queue_and_chan/src/kv_mpsc.rs:61-72 | The released key passes to the message handed out or stops being used; the key is always there. |
| `SingleKeySystem.NotYetDelivered` | rust/pa_queue_and_chan/src/kv_mpsc.rs:54-110 | A waiting or queued message was accepted and never delivered. |
| `SingleKeySystem.BlockingJustified` | rust/pa_queue_and_chan/src/kv_mpsc.rs:74-96 | When both queues are empty, the key of every undelivered message is held by a living message. |
| `SingleKeyTheorems.Refines` | rust/pa_queue_and_chan/src/kv_mpsc.rs:59-109 | Every event is a sequence of enabled actions of the same abstract channel as for many keys. |
| `SingleKeyTheorems.RunDry` | rust/pa_queue_and_chan/src/kv_mpsc.rs:59-109 | Once nothing is sent, any schedule of turns and drops comes to rest with everything accepted delivered and no key in use. |
| `SingleKeyTheorems.DrainedInOrder` | rust/pa_queue_and_chan/src/kv_mpsc.rs:59-109 | At rest, the messages of each key were delivered exactly in the order in which they were accepted. |
| `SingleKeyTheorems.NotStuck` | rust/pa_queue_and_chan/src/kv_mpsc.rs:59-109 | Until then some turn or drop is possible. |
| `SingleKeyChannels.Channel.SyncPop` | rust/pa_queue_and_chan/src/kv_mpsc.rs:54-110 | The same order for the nested loops: no new message before the dropped keys that were there at the beginning, or after any earlier turn, were released; no end without a message before both queues were found empty twice and were empty at once; closed if no key is used and the senders are gone, waiting otherwise. |
| `SingleKeyCalls.CallIsRun` | rust/pa_queue_and_chan/src/kv_mpsc.rs:54-110 | Whatever a call does, pushes of other threads included, is a run of the system on tags: each of its turns is a possible event there, it never panics, and queues, table and what is handed out agree. |
| `SingleKeyBlocking.SleepsOnlyForKeys` | rust/pa_queue_and_chan/src/kv_mpsc.rs:74-96 | In every run of the channel joined with its way of blocking: a receiver that sleeps un-notified, with nobody about to notify it, faces empty queues, the key of every undelivered message is held by a living one, and if the senders are gone there is a living message. |
| `SingleKeyBlocking.ClosedLeavesOnlyQueued` | rust/pa_queue_and_chan/src/kv_mpsc.rs:81-86 | In every run of the joined system, when `recv` has answered `Closed` the senders are gone, no key is in use, no message waits or lives, no dropped key is left, and every accepted message was delivered or is still in the send queue. |
| `SingleKeyBlocking.ReturnsWhatIsHandedOut` | rust/pa_queue_and_chan/src/kv_mpsc.rs:59-109 | A call comes back with a message exactly when one is handed out, and no step between calls hands out any. |
| `SingleKeyBlocking.StepKeepsInv` | rust/pa_queue_and_chan/src/kv_mpsc.rs:54-110 | Every step of the joined system keeps both invariants and the queue lengths in agreement. |
| `SingleKeyChannels.Channel.ReleaseDropped` | rust/pa_queue_and_chan/src/kv_mpsc.rs:60-73 | With other threads pushing between its turns, the inner loop hands out the first message freed by a dropped key, or finds the drop queue empty. |
| `SingleKeyChannels.Channel.Send` | rust/pa_queue_and_chan/src/kv_mpsc.rs:161-167 | Refused exactly if the receiver is gone; otherwise pushed at the end, with one notification. |
| `SingleKeyChannels.Channel.DropMessage` | rust/pa_queue_and_chan/src/kv_mpsc.rs:257-269 | The key goes to the end of the drop queue and the receiver is notified. |
| `SingleKeyChannels.Channel.DropSenders` | rust/pa_queue_and_chan/src/kv_mpsc.rs:170-177 | The flag is set and the receiver notified. |
| `SingleKeyChannels.Channel.DropReceiver` | rust/pa_queue_and_chan/src/kv_mpsc.rs:217-222 | The flag is set; unlike in the multi-key channel, nobody is notified. |
| `ListenerProtocol.NoLostWake` | rust/pa_queue_and_chan/src/kv_mpsc.rs:74-96 | In every run, a receiver that blocks with work at hand (a queued message, a dropped key, or all senders gone and nothing in its table) was notified or some producer is still to notify; the listener slot is never empty when it is taken. The multi-key channel blocks in the same way. |
| `ListenerProtocol.ClosedOnlyWhenGone` | rust/pa_queue_and_chan/src/kv_mpsc.rs:81-86 | In every run, `Closed` is answered only when the flag is set, no sender is left and the receiver's table is empty. |
| `ListenerProtocol.LooksInOrder` | rust/pa_queue_and_chan/src/kv_mpsc.rs:59-80 | In every run, the receiver comes to the messages only from an empty drop queue, and to the decision only from an empty send queue, seen twice, and then an empty drop queue. |
| `ListenerProtocol.WokenByNotification` | rust/pa_queue_and_chan/src/kv_mpsc.rs:88-93 | A listener is notified only by a notification that came after it was registered, so the receiver never wakes by itself. |
| `ListenerProtocol.ClosedLeavesMessage` | rust/pa_queue_and_chan/src/kv_mpsc.rs:74-86 | After the send queue was found empty, `Closed` can still leave a message behind if and only if some sender was alive at that moment: the flag is read later. |
| `ListenerProtocol.StepKeepsInv` | rust/pa_queue_and_chan/src/kv_mpsc_multik.rs:330-352 | Every step of the receiver, the senders and the droppers keeps the invariant behind it. |
| `AtomicWakers.CellExclusion` | rust/pa_queue_and_chan/src/tokio_transplant/atomic_waker.rs:182-296 | In every run of any number of registering and waking threads, at most one is in a critical section of the waker cell, the word tells which kind, and it is WAITING exactly when there is none. |
| `AtomicWakers.ReleasesUnlock` | rust/pa_queue_and_chan/src/tokio_transplant/atomic_waker.rs:215-240 | Only the thread inside touches the cell, and every way out - with or without a missed wake, and after a panicking clone - leaves the word WAITING and nobody inside. The failed exchange finds exactly REGISTERING and WAKING. |
| `AtomicWakers.KeptUntilReplaced` | rust/pa_queue_and_chan/src/tokio_transplant/atomic_waker.rs:182-296 | A waker that was called more than a given number of times, or is in the cell or in the hands of a thread that will call it, stays so under every step but the storing of another one. |
| `AtomicWakers.ClaimedForGood` | rust/pa_queue_and_chan/src/tokio_transplant/atomic_waker.rs:182-340 | Once a wake has reached a waker, no step of any thread, registering ones included, loses that call again; calls are counted, so an earlier call of the same waker does not stand in for it. |
| `AtomicWakers.WakeClaims` | rust/pa_queue_and_chan/src/tokio_transplant/atomic_waker.rs:312-340 | The `fetch_or` of a wake reaches the waker that is in the cell at that moment. |
| `AtomicWakers.WakeIsNeverLost` | rust/pa_queue_and_chan/src/tokio_transplant/atomic_waker.rs:299-340 | In every run, the waker that is in the cell when a wake does its `fetch_or` has been called at least once more when all threads are done, however many registered and woke around it. |
| `AtomicWakers.NoWakeNoCall` | rust/pa_queue_and_chan/src/tokio_transplant/atomic_waker.rs:174-297 | In every run, as long as no thread has begun a wake no waker is called, however many register and displace each other's wakers. |
| `AtomicWakers.CallsHaveCauses` | rust/pa_queue_and_chan/src/tokio_transplant/atomic_waker.rs:174-340 | In every run, the calls made and still due are at most one for every wake that found nobody inside, two for every wake that met a registration, and one for every registration that met a wake; a registration that no wake meets gives none. |
| `AtomicWakers.CalledOncePerRegistration` | rust/pa_queue_and_chan/src/tokio_transplant/atomic_waker.rs:174-340 | In every run, each waker is called at most as often as its registration was begun, the copy in the cell counted. |
| `AtomicWakers.CallsWhatItHolds` | rust/pa_queue_and_chan/src/tokio_transplant/atomic_waker.rs:248-308 | One atomic step calls at most one waker, and only one that the thread holds to be called. |
| `AtomicWakers.WakeAlone` | rust/pa_queue_and_chan/src/tokio_transplant/atomic_waker.rs:302-340 | A wake with no other thread in between calls the waker of the cell exactly once and no other, and leaves cell and word empty; if another thread is inside it sets the bit and calls nobody. |
| `AtomicWakers.RegisterAlone` | rust/pa_queue_and_chan/src/tokio_transplant/atomic_waker.rs:174-297 | A registration with no other thread in between stores its waker, drops the one that was there and calls nobody; it calls its own waker only if a wake is under way. |
| `AtomicWakers.EntersAndLeaves` | rust/pa_queue_and_chan/src/tokio_transplant/atomic_waker.rs:182-340 | A thread enters a critical section only from WAITING and leaves it only to WAITING. |
| `AtomicWakers.StepKeepsInv` | rust/pa_queue_and_chan/src/tokio_transplant/atomic_waker.rs:182-340 | Every atomic step keeps the exclusion invariant. |
| `AtomicWakers.OthersRely` | rust/pa_queue_and_chan/src/tokio_transplant/atomic_waker.rs:182-340 | What the methods below assume of the other threads holds after any number of those threads' atomic steps; in particular nobody touches the cell while this thread is inside, and only a wake changes the word then. |
| `AtomicWakers.AtomicWaker.DoRegister` | rust/pa_queue_and_chan/src/tokio_transplant/atomic_waker.rs:174-297 | With other threads running in between all atomic steps, the assertions hold, a panic is handed on only if the clone panicked, and, if nobody else registers, the waker is in the cell, called since the registration began, or going to be called. The thread itself calls nobody if it found the word WAITING and no wake came meanwhile; if one came, at most the waker it displaced and its own, each once; if a wake was under way, its own once; and nobody if another thread registers. |
| `AtomicWakers.AtomicWaker.Locked` | rust/pa_queue_and_chan/src/tokio_transplant/atomic_waker.rs:187-273 | The branch that got the lock always gives it back, and keeps the stored waker unless the clone panicked; it calls nobody unless a wake came, and then the displaced waker and the stored one, each once. |
| `AtomicWakers.AtomicWaker.HandOver` | rust/pa_queue_and_chan/src/tokio_transplant/atomic_waker.rs:227-265 | The handover of a missed wake unlocks and calls the displaced waker and the taken one, after a panic the old one, each exactly once, and no other. |
| `AtomicWakers.AtomicWaker.Unlock` | rust/pa_queue_and_chan/src/tokio_transplant/atomic_waker.rs:215-265 | The releasing exchange that finds REGISTERING calls nobody; one that finds the WAKING bit calls exactly the displaced waker and the one in the cell. |
| `AtomicWakers.AtomicWaker.TakeWaker` | rust/pa_queue_and_chan/src/tokio_transplant/atomic_waker.rs:312-340 | The thread ends up with the waker of the cell if nobody was inside, with nothing otherwise, and calls nobody; either way the waker found in the cell has been reached by a wake. |
| `AtomicWakers.AtomicWaker.Wake` | rust/pa_queue_and_chan/src/tokio_transplant/atomic_waker.rs:302-308 | Whatever others do, the waker found in the cell has been called once more or is going to be; this thread calls exactly that one, exactly once, if nobody was inside, and none otherwise. |
| `PriorityQueues.SortsStably` | rust/pa_queue_and_chan/src/priotity_async_mpsc_chan.rs:31-51 | Pushing any list and popping until nothing comes gives the stable sort of the list by priority, and nothing else is one, although emptied queues stay in the map. |
| `PriorityQueues.SortedIsDetermined` | rust/pa_queue_and_chan/src/priotity_async_mpsc_chan.rs:43-50 | A list has only one stable sort. |
| `PriorityQueues.PushIsLastOfItsPriority` | rust/pa_queue_and_chan/src/priotity_async_mpsc_chan.rs:31-42 | A push leaves the flattened map sorted, with the new item last in its priority and all other priorities as they were. |
| `PriorityQueues.PopTakesFirst` | rust/pa_queue_and_chan/src/priotity_async_mpsc_chan.rs:43-51 | A pop removes the head of the flattened map, and finds nothing exactly if that is empty; no key leaves the map. |
| `PriorityQueues.FlattenSorted` | rust/pa_queue_and_chan/src/priotity_async_mpsc_chan.rs:43-51 | The flattened map is sorted and lists each priority's queue in order. |
| `PriorityQueues.DrainIsFlatten` | rust/pa_queue_and_chan/src/priotity_async_mpsc_chan.rs:43-51 | Popping until nothing comes yields the flattened map. |
| `PriorityQueues.PriorityQueue.Push` | rust/pa_queue_and_chan/src/priotity_async_mpsc_chan.rs:31-42 | The method, alone, adds its item as the last of its priority. |
| `PriorityQueues.PriorityQueue.Pop` | rust/pa_queue_and_chan/src/priotity_async_mpsc_chan.rs:43-51 | The loop over the map returns the first item of the lowest priority that has one, and removes just that. |
| `PriorityRaces.EveryTrace` | rust/pa_queue_and_chan/src/priotity_async_mpsc_chan.rs:31-51 | With pushes and the queue-by-queue walk of `pop` interleaved, every priority is lossless and first-in first-out if and only if no insert under the write lock met a non-empty queue; what was lost never comes back. |
| `PriorityRaces.PopsLowest` | rust/pa_queue_and_chan/src/priotity_async_mpsc_chan.rs:43-50 | With other threads appending during its walk, `pop` returns an item whose priority is at most that of every item queued when the walk began, and the oldest of its own priority. |
| `PriorityRaces.PopsNothingOnlyFromEmpty` | rust/pa_queue_and_chan/src/priotity_async_mpsc_chan.rs:43-50 | It returns nothing only if nothing was queued when the walk began. |
| `PriorityRaces.NoRaceNoLoss` | rust/pa_queue_and_chan/src/priotity_async_mpsc_chan.rs:33-38 | While no two threads are about to create the queue of the same priority, no insert overwrites and nothing is lost. |
| `PriorityRaces.RacingFirstPushesLose` | rust/pa_queue_and_chan/src/priotity_async_mpsc_chan.rs:33-38 | For any two items of one priority there is a run in which both first pushes find it absent and the first item is thrown away. |
| `PriorityChannels.NoLostWake` | rust/pa_queue_and_chan/src/priotity_async_mpsc_chan.rs:80-108 | In every run of the receiver with any number of senders: if `recv` returned `Pending`, its waker has not been called and the queue has something, then the waker is in the cell and some sender has pushed and is about to do its `fetch_or`, or is about to take the waker out, or some thread holds the waker and will call it. |
| `PriorityChannels.WokenInTheEnd` | rust/pa_queue_and_chan/src/priotity_async_mpsc_chan.rs:139-147 | So once all calls of the senders have returned, a pending receiver with a message in the queue has been woken. |
| `PriorityChannels.PollStartsUnnotified` | rust/pa_queue_and_chan/src/priotity_async_mpsc_chan.rs:80-108 | The waker of a new poll is in nobody's hands and was never called: being notified means since that poll began. |
| `PriorityChannels.StepKeepsInv` | rust/pa_queue_and_chan/src/priotity_async_mpsc_chan.rs:80-147 | Every step of the scan, the registration, the pushes and the wakes keeps the invariant behind it. |
| `PriorityChannels.RegisterStores` | rust/pa_queue_and_chan/src/tokio_transplant/atomic_waker.rs:182-296 | The receiver's registration stores its waker, or calls it because a wake is under way; it is never dropped. |
| `PriorityChannels.SendNeverRefuses` | rust/pa_queue_and_chan/src/priotity_async_mpsc_chan.rs:139-142 | A sender never finds the end flag set, so `send_sync` never returns an error. |
| `PriorityAnswers.NoneOnlyAfterTheEnd` | rust/pa_queue_and_chan/src/priotity_async_mpsc_chan.rs:83-89 | In every run, `Ready(None)` is answered only when the senders are gone, after a scan that began on an empty queue and found nothing, with nothing but the flag read since. |
| `PriorityAnswers.GonePollAnswers` | rust/pa_queue_and_chan/src/priotity_async_mpsc_chan.rs:80-108 | A poll that begins after the senders were gone never registers and is never pending: it answers the first queued item, or `None` if there is none. |
| `PriorityAnswers.PendingOnlyWhileOpen` | rust/pa_queue_and_chan/src/priotity_async_mpsc_chan.rs:94-107 | In every run, `Pending` is answered only after a second scan of that poll, and only if the senders were not yet gone when that scan began. |
| `PriorityAnswers.DrainsInOrder` | rust/pa_queue_and_chan/src/priotity_async_mpsc_chan.rs:80-108 | Once a scan has begun after the senders were gone, `recv` never registers or is pending again, and over all later polls the answers are the queued items in the order of their stable sort, with `Ready(None)` only after the last. |
| `PriorityAnswers.AnswersWhatItTakes` | rust/pa_queue_and_chan/src/priotity_async_mpsc_chan.rs:80-108 | A poll that answers `Ready(Some(x))` has taken `x` out of the queue and nothing else; a poll with any other outcome has taken nothing. |
| `PriorityAnswers.ScanRemembers` | rust/pa_queue_and_chan/src/priotity_async_mpsc_chan.rs:43-51 | What the model records of a scan's beginning is what there was then: whether the senders were gone, and what was queued. |
| `PriorityClosing.ClosedMeansEmpty` | rust/pa_queue_and_chan/src/priotity_async_mpsc_chan.rs:83-89 | In every run, if `Ready(None)` has been answered and a value is in the queue, no scan so far began after the senders were gone. |
| `PriorityClosing.ClosedLeavesExactly` | rust/pa_queue_and_chan/src/priotity_async_mpsc_chan.rs:83-89 | When a scan has found nothing and the flag is about to be read, the senders can still bring it about that the answer is `Ready(None)` and a value stays in the queue if and only if some sender is still there or a value is in the queue already. |
| `PriorityClosing.ClosedMayLeaveMessage` | rust/pa_queue_and_chan/src/priotity_async_mpsc_chan.rs:83-89 | For any item there is a run from the start in which the last sender pushes it, wakes nobody and leaves between the scan and the reading of the flag, so that the answer is `Ready(None)` and the item is left. |
| `PriorityClosing.DropSendersWakesNobody` | rust/pa_queue_and_chan/src/priotity_async_mpsc_chan.rs:117-120 | When the last sender goes while `recv` is pending, nothing happens any more short of another poll: the receiver is asleep afterwards if and only if it was before. |
| `PriorityClosing.SleepsThroughTheEnd` | rust/pa_queue_and_chan/src/priotity_async_mpsc_chan.rs:117-120 | There is a run from the start that ends with the senders gone, the flag set and the receiver asleep with its waker in the cell. |
| `PriorityOrder.ReceivesLowest` | rust/pa_queue_and_chan/src/priotity_async_mpsc_chan.rs:80-108 | In every run of the channel, the item that `recv` takes and answers has a priority at most that of every item queued when its scan began, and is the oldest of its own priority. |
| `PriorityOrder.FindsNothingOnlyInEmpty` | rust/pa_queue_and_chan/src/priotity_async_mpsc_chan.rs:80-108 | A scan that finds nothing began on an empty queue. |
| `PriorityOrder.FifoExactly` | rust/pa_queue_and_chan/src/priotity_async_mpsc_chan.rs:31-51 | In every run of the channel, every priority is lossless and first-in first-out if and only if no step has put a new queue in the place of one with values in it. |
| `PriorityOrder.FifoPerPriority` | rust/pa_queue_and_chan/src/priotity_async_mpsc_chan.rs:33-38 | In particular so while no two first pushes of one priority race. |
| `PriorityOrder.EventProjects` | rust/pa_queue_and_chan/src/priotity_async_mpsc_chan.rs:31-51 | As far as the queue goes, every event of the channel is an event of the racing pushes and walks, or none. |
| `Parkers.NoLostNotification` | rust/pa_queue_and_chan/src/timeout_parker.rs:90-125 | In every run with any number of unparkers, timeouts and spurious wakes: if the word is NOTIFIED while the parker holds the mutex on its way to wait, some unparker has yet to get the mutex; while it waits unsignalled, some unparker has its `notify_one` still to come. |
| `Parkers.SilentMeansUnnotified` | rust/pa_queue_and_chan/src/timeout_parker.rs:119-157 | With every `unpark` returned, a parker that waits unsignalled was not notified since it committed. |
| `Parkers.NeverPanics` | rust/pa_queue_and_chan/src/timeout_parker.rs:97-138 | Neither inconsistent-state panic is reachable, and the assertion after the swap holds. |
| `Parkers.TakenOnlyByReturning` | rust/pa_queue_and_chan/src/timeout_parker.rs:71-125 | A notification stays until a `park` takes it that waits no further, and no `park` begins to wait before. |
| `Parkers.NotifiedParkReturns` | rust/pa_queue_and_chan/src/timeout_parker.rs:71-125 | In every run, a parker that is notified while not waiting does not wait before a `park` has returned with the notification. |
| `Parkers.UsedUp` | rust/pa_queue_and_chan/src/timeout_parker.rs:71-125 | In every run, if a `park` has still to take or reset the word (asleep or just woken included), later no `park` is under way, and no unparker set the word in between, then the word is EMPTY: the notification that woke it does not serve the next `park`. |
| `Parkers.OneParkPerUnpark` | rust/pa_queue_and_chan/src/timeout_parker.rs:71-138 | Counted from the beginning, or from where a `park` took or reset the word, no more `park`s return without waiting than `unpark`s set the word. |
| `Parkers.NoIdleSignal` | rust/pa_queue_and_chan/src/timeout_parker.rs:128-157 | An unparker signals only if its `swap` found the parker committed to wait and not yet reset. |
| `Parkers.LooksThreeTimes` | rust/pa_queue_and_chan/src/timeout_parker.rs:71-86 | A `park` goes for the mutex only after it has looked for a notification exactly three times in vain. |
| `Parkers.NeverStuck` | rust/pa_queue_and_chan/src/timeout_parker.rs:90-157 | Whoever is kept from the mutex, the parker or an unparker, waits for a thread that can go on: unless all unparkers are done and the parker rests or sleeps, some thread can take its next step. |
| `Parkers.StepKeepsInv` | rust/pa_queue_and_chan/src/timeout_parker.rs:71-157 | Every atomic step keeps the invariant behind these. |
| `Parkers.UnparkersRely` | rust/pa_queue_and_chan/src/timeout_parker.rs:128-157 | What `park` assumes of the unparkers holds after any number of their atomic steps. |
| `Parkers.OthersRely` | rust/pa_queue_and_chan/src/timeout_parker.rs:71-157 | What `unpark` assumes of the parker and the other unparkers holds after any number of their atomic steps. |
| `Parkers.Inner.Park` | rust/pa_queue_and_chan/src/timeout_parker.rs:71-88 | With the unparkers running in between all steps, a `park` that finds a notification returns without waiting and takes it; one that does not wait took a notification. Every notification from before the call is used up when it returns, the word is NOTIFIED only if it was set since it was cleared, and a call that begins with EMPTY and sees no `unpark` waits. |
| `Parkers.Inner.ParkCondvar` | rust/pa_queue_and_chan/src/timeout_parker.rs:90-125 | Always comes back with the mutex released, and without waiting only if it took a notification; notifications from before the call are used up, and the word is NOTIFIED only if it was set since it was cleared. |
| `Parkers.Inner.WakeUp` | rust/pa_queue_and_chan/src/timeout_parker.rs:119-122 | Whatever woke it, the parker clears every notification that had been given by then. |
| `Parkers.Inner.Unpark` | rust/pa_queue_and_chan/src/timeout_parker.rs:128-139 | When it returns, the notification is there or a `park` has taken it; and if the parker still waits unsignalled for it, another unparker is about to signal. |
| `Parkers.Inner.UnparkCondvar` | rust/pa_queue_and_chan/src/timeout_parker.rs:142-157 | Passes through the mutex and signals; the notification is not lost on the way. |
| `PerThreadQueues.NothingLostOrReordered` | rust/pa_queue_and_chan/src/mpsc_no_order_queue.rs:37-56 | In every run of any number of producers with ids of their own, for each of them what was popped and then what is queued is what it pushed, in order. |
| `PerThreadQueues.InsertNeverOverwrites` | rust/pa_queue_and_chan/src/mpsc_no_order_queue.rs:40-45 | The insert never meets a queue although the check is not repeated under the write lock, and the queue is always there at the push. |
| `PerThreadQueues.NoneMeansDrained` | rust/pa_queue_and_chan/src/mpsc_no_order_queue.rs:48-56 | When `try_pop` finds nothing, all that was pushed before it began has been popped. |
| `PerThreadQueues.StepKeepsInv` | rust/pa_queue_and_chan/src/mpsc_no_order_queue.rs:37-56 | Every lock section keeps the invariant behind these. |
| `PerThreadQueues.OthersRelyProducer` | rust/pa_queue_and_chan/src/mpsc_no_order_queue.rs:37-56 | What a push assumes of the consumer and the other producers holds after any number of their lock sections. |
| `PerThreadQueues.ProducersRely` | rust/pa_queue_and_chan/src/mpsc_no_order_queue.rs:37-46 | What a pop assumes of the producers holds after any number of their lock sections. |
| `PerThreadQueues.MpscNoOrderQueue.Push` | rust/pa_queue_and_chan/src/mpsc_no_order_queue.rs:37-46 | Whatever runs between its lock sections, the value is added at the end of what the thread has pushed. |
| `PerThreadQueues.MpscNoOrderQueue.TryPop` | rust/pa_queue_and_chan/src/mpsc_no_order_queue.rs:48-56 | Returns the oldest value of one producer, or nothing, when all that had been pushed before was popped. |

## Left out

- `lockfree_link_queue.rs`, `lightsync.rs`, `future/*`, `loom/*`, `macro_cfg.rs`: not part of this model; the two queues and the barrier promise nothing that holds in every interleaving, the rest is glue.
- Memory orderings and `unsafe` cells: atomics are sequentially consistent steps, and the waker cell is a plain field guarded by the proved exclusion.
- `RefCell` borrows: only the borrow that `try_set_use` runs into is modelled, as skipping the state that is being searched.
- `Rc` and `Weak` counts: a flag on the waiting message says whether its strong reference is still there.
- `SegQueue`, `BTreeMap`, `HashMap`, `RwLock`, `Mutex`, `Condvar` and `Event` are taken by their contracts; a hash map iterates in an arbitrary order, and a wait may end at any time.
- Waiting ids: the overflow of `i32` is modelled as the panic of a debug build; wrap-around in a release build is not.
- Keys and values are abstract types without references into the heap; in runs a value is represented by the position of its message in the order of acceptance (`MultiKeyCalls` and `SingleKeyCalls` tie the two).
- Priorities are integers in place of an arbitrary ordered type; wakers, and the values of the queues that are interleaved, are numbers.
- Fields of `SmallVec` type are sequences; its layout and the iteration of its inline part are not modelled.
- A repaired search that forgets a freed message at all of its keys is not modelled; draining is proved for the code as it is, with the exact condition of the dead-handle panic.
- `ListenerProtocol.NoLostWake`: counts the queues' elements and leaves what the receiver finds in its table arbitrary, which allows more runs than the channels have; `MultiKeyBlocking` and `SingleKeyBlocking` tie both to the channels.
- Calls of `sync_pop` on objects: other threads push finitely many messages and keys during one call; blocking on the listener ends the modelled call.
- `PriorityChannels`: `recv` and `send_sync` are modelled as steps and not as methods, because each would need the waker's and the queue's interference at once; the methods they are made of are modelled as methods.
- Waiting for a mutex or a lock ends in the methods of `Parkers.Inner` and `PerThreadQueues.MpscNoOrderQueue`: fairness of the scheduler is assumed there, while the transition systems leave it open.
- Wake guarantees for several threads that register at once, which the source disclaims, beyond the waker that a wake found in the cell.
- Real time, benches, printing and the tests' timing.
