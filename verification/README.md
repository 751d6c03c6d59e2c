# Runtime and link layer of limero

Dafny models and proofs for the part of limero that everything else stands on: the queues that carry
messages between threads, the timers and the event loop that drive them, and the serial link (frames,
frame check sequence, streaming receiver, connection watchdog).

| file | models | main results |
|---|---|---|
| `LockFreeQueue.dfy`, `LockFreeTheorems.dfy` | the lock-free `ArrayQueue` as a transition system: any number of threads, every load, check, compare-and-swap, copied word and version store a step of its own | in every interleaving the queue is an atomic first-in first-out queue, copying is free of races, and each refusal is explained exactly |
| `QueueFlow.dfy`, `RefusedToken.dfy`, `StrandedItem.dfy` | the asynchronous `QueueFlow` over that queue, and the tokens in the thread's pipe | conservation of messages and an exact account of tokens in every run; without `request()`, no run strands an item if and only if nobody pushes, or one thread only and the pipe has a place for every slot of the queue |
| `RingQueue.dfy` | the Arduino `ArrayQueue` | any sequence of calls is a bounded first-in first-out queue |
| `Millis.dfy`, `Timers.dfy`, `TimerRate.dfy`, `EventLoop.dfy` | `TimerSource`, `Thread::run`, `Thread::loop` | rate and drift of a timer; which timer a turn fires; no ripe timer starves |
| `Cache.dfy` | `Cache` | pacing, freshness and a bound on the emissions in any window, in every run |
| `Fcs.dfy`, `FcsDetection.dfy` | the table-driven FCS-16 | it is the bit-serial register; every burst of up to 16 bits and every odd number of flipped bits is detected, at any length |
| `PppFrame.dfy` | `ppp_frame`, `ppp_deframe` | exactly which bodies are accepted and what they yield; round trip |
| `LinkIntegrity.dfy`, `EscapeErrors.dfy`, `WireErrors.dfy` | `ppp_deframe` and the receiver on a frame corrupted between its flags | nothing is emitted for a frame with a burst of up to 16 bits, or an odd number of bits, flipped, if its escapes stay where they are and no flag is made; one octet in place of another is noticed in every frame if and only if neither is an escape and the new one is no flag |
| `Deframer.dfy` | `BytesToFrame` | every emission comes from a place of its own in the stream, whatever is dropped; what is emitted does not depend on how the stream is cut; frames are delivered in order; a frame anywhere in the stream gets through unless a chunk end inside it is late; resynchronisation |
| `Watchdog.dfy` | `BrokerSerial`'s connection watchdog | `connected` holds exactly when some loopback arrived and nothing has ended the connection since; the loop takes the link down within a bounded number of turns |

Objects whose methods update their fields are classes here too. A method states what it does as a
function of the old state, and the lemmas are about that function over whole runs. The lock-free queue
is the exception: its methods interleave inside one call, so it is a transition system from the start.
Clock readings are parameters; subscribers are modelled by the list of what they received.

Where the code and what it promises part:

- The empty payload does not come back: `ppp_deframe` wants three octets and its body has two
  (`PppFrame.RoundTripIffNonEmpty`, `PppFrame.EmptyBody`).
- `ppp_deframe` removes two octets from a vector that may hold fewer. It does so exactly on flag-free
  bodies of three octets or more in which at most one octet is not an escape
  (`PppFrame.PopsFromEmptyExactly`, `PppFrame.ThreeEscapesPopFromEmpty`).
- The lock-free queue keeps its bound in every run exactly from two slots on; with one slot a second push
  overwrites the first item (`LockFreeTheorems.NeverOverfullIff`, `LockFreeTheorems.OneSlotLosesItem`).
- With two threads pushing, the consumer being one of them or not, a token can be spent on a ticket that is
  still being written; at rest an item is then left without a token, although none was lost
  (`StrandedItem.StrandedItem`). With one thread pushing, an item is left without a token when the pipe refuses
  it, and nobody is told. Without `request()`, the pipe never refuses a token if and only if it has a place for
  every slot of the queue, or nobody pushes (`RefusedToken.NeverRefusesIff`), and no item is ever stranded if
  and only if, besides, at most one thread pushes (`StrandedItem.NeverStrandsIff`). At rest, whoever pushes,
  draining emits everything if and only if no token was refused and none spent in vain
  (`QueueFlow.DrainsAllIff`). The Arduino work queue of ten slots holds nine tokens
  (`RingQueue.ArrayQueue.CapacityNeverReached`), for all the flows of its thread together.
- A single flipped bit of a frame between its flags can pass unnoticed: if it makes an escape or unmakes one, a
  wrong payload may be accepted (`EscapeErrors.OneBitMissed`); if it makes a flag, the receiver cuts the frame
  there and may emit the front part (`WireErrors.OneBitMakesFlag`). For which octets,
  `WireErrors.AlwaysNoticedIff` says exactly.
- Before its first input a `Cache` emits a value that was never set: for every request, and for a tick once the
  maximum has passed since the last emission, the first of which is an uninitialised time
  (`CacheFlow.UnsetValueEmitted`).
- `waitTime` is a 32-bit signed number. It has the sign of the wait unless the timer is late by more than
  2^31 ms, modulo 2^32 (`EventLoop.WaitSign`, `EventLoop.VeryLateTimerWaits`);
  a timer that late is then not served (`EventLoop.VeryLateTimerNotFired`).
- The ring's `size()` is the number of items exactly when there is one, and its `capacity()` is never
  reached (`RingQueue.ArrayQueue.SizeExactly`, `RingQueue.ArrayQueue.CapacityNeverReached`).
- On Linux a timer is served at its deadline, on Arduino only once it is past (`EventLoop.Serves`).
- A repeating timer keeps its phase exactly when no firing is more than one interval late; otherwise it
  slips (`TimerRate.NoDriftIffPunctual`).

## Model

| member | source | states |
|---|---|---|
| LockFreeQueue.StepKeepsInv | common/src/limero.h:307-357 | every step of every thread keeps the queue's invariant: counters, versions, slot contents, the claims of all threads in flight and what was returned agree |
| LockFreeQueue.SwapTailKeeps | common/src/limero.h:317-321 | taking a tail ticket claims a slot nobody else holds |
| LockFreeQueue.SwapHeadKeeps | common/src/limero.h:345-349 | taking a head ticket claims a filled slot nobody else holds |
| LockFreeQueue.CopyInKeeps | common/src/limero.h:323 | a partly copied value disturbs no other ticket |
| LockFreeQueue.PublishPushKeeps | common/src/limero.h:328-329 | storing version tail + 1 turns a written slot into a filled one and affects no other ticket |
| LockFreeQueue.PublishPopKeeps | common/src/limero.h:354-355 | storing version head + capacity frees the slot for the ticket one round later, and the pop returns the whole value pushed with its ticket |
| LockFreeQueue.TailIsFree | common/src/limero.h:311-315 | a version equal to the current tail means the queue is not full and the slot is unclaimed |
| LockFreeQueue.HeadIsFilled | common/src/limero.h:339-343 | a version equal to head + 1 means the slot holds the value pushed with ticket head, and is unclaimed |
| LockFreeTheorems.InitInv | common/src/limero.h:280-297 | the constructed queue meets the invariant when it has at least two slots |
| LockFreeTheorems.RunInv | common/src/limero.h:280-357 | every reachable state meets the invariant |
| LockFreeTheorems.VersionTells | common/src/limero.h:280-357 | in every reachable state head <= tail <= head + capacity, and the version of a slot says exactly whether its ticket is free, in flight or filled |
| LockFreeTheorems.RaceFree | common/src/limero.h:317-329 | in every reachable state no two threads are between compare-and-swap and version store on the same slot |
| LockFreeTheorems.VersionsGrow | common/src/limero.h:328-355 | the version of a slot changes exactly when a thread publishes on that slot, and then strictly rises: by one for a push, by capacity - 1 for a pop |
| LockFreeTheorems.VersionsNeverFall | common/src/limero.h:328-355 | over a whole run the version of a slot never falls |
| LockFreeTheorems.StepRefinesFifo | common/src/limero.h:307-357 | the two successful compare-and-swaps are exactly the enqueue and the dequeue of a bounded first-in first-out queue; every other step leaves it unchanged |
| LockFreeTheorems.StepKeepsHistory | common/src/limero.h:350-356 | what was pushed or returned stays so, and a returning pop returns the value of its ticket |
| LockFreeTheorems.PoppedIsPushed | common/src/limero.h:307-357 | in every run the pop holding ticket h returns the value pushed with ticket h; a popped ticket not yet returned belongs to a pop under way |
| LockFreeTheorems.PoppedPrefix | common/src/limero.h:307-357 | when no pop is under way, the values popped in ticket order are a prefix of the values pushed |
| LockFreeTheorems.PushRefusedExactly | common/src/limero.h:309-315 | at its check, a push whose ticket is current is refused exactly when capacity items are held or the pop of one round earlier still reads the slot; one whose ticket is stale, unless that ticket is still being written |
| LockFreeTheorems.PopRefusedExactly | common/src/limero.h:335-343 | at its check, a pop whose ticket is current is refused exactly when nothing is held or the push of its ticket has not published; one whose ticket is stale, unless that ticket is still being read |
| LockFreeTheorems.SwapRefusedExactly | common/src/limero.h:317-349 | past the check, a call is refused exactly when the counter has moved past the loaded value |
| LockFreeTheorems.LonePush | common/src/limero.h:307-331 | with the other threads paused anywhere in their calls, a push takes the current ticket, and changes nothing exactly when capacity items are held or the slot at the tail is still being read one round back; otherwise it appends |
| LockFreeTheorems.LonePop | common/src/limero.h:333-357 | with the other threads paused anywhere, a pop takes the current ticket, and changes nothing exactly when nothing is held or the item at the head is still being written; otherwise it removes and returns the oldest item |
| LockFreeTheorems.SoloPush | common/src/limero.h:307-331 | alone, a push appends, and is refused without any change exactly when capacity items are held |
| LockFreeTheorems.SoloPop | common/src/limero.h:333-357 | alone, a pop removes and returns the oldest item, and is refused without any change exactly when nothing is held |
| LockFreeTheorems.OneSlotLosesItem | common/src/limero.h:307-331 | on one slot there is a run in which two pushes succeed, the first item is overwritten and its pop is refused |
| LockFreeTheorems.NeverOverfullIff | common/src/limero.h:280-331 | tail <= head + capacity holds in all runs if and only if the capacity is at least two |
| QueueFlow.FlowStepKeeps | common/src/limero.h:679-702 | every step of pushing, posting, taking and popping keeps the account of items and tokens, and emissions equal to what was pushed |
| QueueFlow.FlowRunInv | common/src/limero.h:671-705 | the same in every reachable state |
| QueueFlow.Conservation | common/src/limero.h:679-702 | in every run the accepted items are those emitted, the one being handed over and those held, in this order; and items held balance tokens posted, pending, lost and spent in vain |
| QueueFlow.TokensBounded | linux/src/limero.cpp:128-137 | without `request()` the pipe never holds more tokens than the queue holds items |
| QueueFlow.QuietAccount | linux/src/limero.cpp:60-101 | at rest, items held and requests made equal tokens pending, lost and spent in vain, and accepted items are those emitted followed by those held |
| QueueFlow.PostingFindsRoom | common/src/limero.h:683-684 | without `request()`, whoever is about to post a token finds fewer in the pipe than the queue has slots |
| QueueFlow.AmpleRoomLosesNothing | linux/src/limero.cpp:128-137 | with a place in the pipe for every slot of the queue, or nobody pushing, no token is refused in any run without `request()` |
| QueueFlow.SoleProducerNeverEmpty | common/src/limero.h:694-701 | with at most one thread pushing, the consumer or another, and no `request()`, the branch "no data" is never reached in any run |
| QueueFlow.ServeOne | linux/src/limero.cpp:77-80 | at rest, one token served emits the oldest item |
| QueueFlow.RequestEmits | common/src/limero.h:693-701 | at rest with an item held, `request()` emits the oldest item and leaves the tokens alone |
| QueueFlow.RequestFindsNothing | common/src/limero.h:693-701 | at rest with nothing held, `request()` changes nothing but the count of pops in vain |
| QueueFlow.DrainEmits | linux/src/limero.cpp:60-101 | serving all tokens emits that many items, oldest first |
| QueueFlow.DrainsAllIff | common/src/limero.h:679-702 | in every run without `request()`, at rest and whoever pushes, draining the thread emits everything accepted, in order, if and only if no token was refused and none spent in vain |
| QueueFlow.SoleProducerDrains | common/src/limero.h:679-702 | with at most one thread pushing, ample room in the pipe and no `request()`, draining the thread at rest emits everything accepted, in order |
| RefusedToken.PushMany | common/src/limero.h:679-692 | with nobody popping, any number of pushes up to the capacity can be made; the first tokens find room, the others are refused |
| RefusedToken.NeverRefusesIff | linux/src/limero.cpp:128-137 | over all runs without `request()`, no token is ever refused if and only if the pipe has a place for every slot of the queue, or nobody pushes |
| StrandedItem.StrandedItem | common/src/limero.h:679-702 | whichever two threads among however many push, and whatever the size of queue and pipe, there is a run, without refused tokens, after which draining the thread leaves an item behind |
| StrandedItem.NeverStrandsIff | common/src/limero.h:679-702 | over all runs without `request()`, draining at rest always emits everything accepted if and only if nobody pushes, or one thread only and the pipe has a place for every slot of the queue |
| RingQueue.WriteAppends | common/src/limero.h:207-208 | writing the slot after the newest item appends to the contents, wrapping included |
| RingQueue.ArrayQueue.constructor | common/src/limero.h:189-193 | a new ring of any size from one up is empty |
| RingQueue.ArrayQueue.Push | common/src/limero.h:194-211 | refuses exactly when size - 1 items are held, without a change; otherwise appends |
| RingQueue.ArrayQueue.Pop | common/src/limero.h:213-227 | refuses exactly when empty, without a change; otherwise removes and returns the oldest item |
| RingQueue.ArrayQueue.SizeExactly | common/src/limero.h:229-235 | `size()` equals the number of items if and only if there is one; of an empty ring it is the number of slots |
| RingQueue.ArrayQueue.CapacityNeverReached | common/src/limero.h:228 | at most capacity() - 1 items are ever held |
| RingQueue.Perform | common/src/limero.h:194-227 | any sequence of calls answers and ends as a first-in first-out queue bounded by size - 1 does |
| RingQueue.ReplayConserves | common/src/limero.h:194-227 | over any calls, what came out followed by what is left is what was there followed by what was accepted |
| RingQueue.OutcomesExactly | common/src/limero.h:194-227 | over any calls, each push is accepted exactly if the items in so far less those out are below the bound; each pop answers exactly if they are above zero, with the next item in order |
| Millis.Plain | common/src/limero.h:636-652 | the 64-bit sums and differences of clock readings in plain integers, wrapped or not |
| Timers.TimerSource.constructor | common/src/limero.h:485-494 | a repeating timer starts at once; a one-shot one is stopped |
| Timers.TimerSource.SetNewExpireTime | common/src/limero.h:476-482 | the deadline keeps its phase unless a repeating timer is already past the next one |
| Timers.TimerSource.Request | common/src/limero.h:511-522 | fires exactly when the deadline is reached, and then sets the next one |
| TimerRate.RateBound | common/src/limero.h:476-522 | under any polling and resets the k-th firing, from zero, is no earlier than the first deadline + k intervals, and the deadline is never more than an interval ahead |
| TimerRate.ResetOnlyDelays | common/src/limero.h:502-503 | in every run a reset never brings the deadline forward |
| TimerRate.NoDriftIffPunctual | common/src/limero.h:476-482 | without resets, the deadline after n firings is the first deadline + n intervals if and only if no firing was more than an interval late |
| TimerRate.NextFiring | common/src/limero.h:476-522 | in every run, after a reset, or a firing more than an interval late, a repeating timer is due an interval later, after any other firing an interval after the deadline met; nothing fires before, and the first poll from then on does |
| TimerRate.LateRestarts | common/src/limero.h:476-482 | in every run, after a firing more than an interval late nothing fires for an interval, and the first poll after it does |
| TimerRate.OneShotRests | common/src/limero.h:517-518 | a one-shot timer that fired and is not reset fires again only from 2^32 - 1 ms later on |
| TimerRate.FiringsRecorded | common/src/limero.h:511-522 | the firings of a run are the polls at or past the deadline, at their readings |
| EventLoop.ChooseIsEarliest | linux/src/limero.cpp:145-153 | the scan finds the first timer with the least deadline, or none if no deadline is within five seconds |
| EventLoop.Thread.FindExpiring | arduino_client/src/limero.cpp:42-53 | the loop over the timers computes that choice |
| EventLoop.WaitSign | linux/src/limero.cpp:154-155 | the truncated wait has the right sign if and only if the timer is not due, or late by at most 2^31 ms modulo 2^32 |
| EventLoop.VeryLateTimerWaits | linux/src/limero.cpp:154-155 | a timer 2^31 + 1 ms late is taken for one in the future |
| EventLoop.TurnFiresExactly | linux/src/limero.cpp:143-168 | a turn fires a timer if and only if it is the first with the least deadline and the platform's conditions on that deadline, the truncated wait included, hold; no other timer changes |
| EventLoop.VeryLateTimerNotFired | linux/src/limero.cpp:154-166 | a turn at which the least deadline is more than 2^31 ms late, and less than 2^32, fires nothing unless, on Linux, it waits in vain |
| EventLoop.Thread.RunOnce | arduino_client/src/limero.cpp:40-82 | one turn, on either platform, does to the timers what the choice and its request do, and reports who fired |
| EventLoop.TurnSpendsWeight | linux/src/limero.cpp:143-168 | while a timer is ripe, each turn that fires another one brings the others closer to being behind it |
| EventLoop.WaitingSpends | linux/src/limero.cpp:143-168 | over any number of turns every firing of another timer uses up one of its two chances |
| EventLoop.NoStarvation | linux/src/limero.cpp:140-169 | once a timer is ripe and keeps its deadline, every other timer fires at most twice before it does, and it waits at most 2(n - 1) turns |
| CacheFlow.Cache.constructor | common/src/limero.h:622-630 | nothing unsent, the one-shot timer running for the minimum; the time of the last emission is arbitrary |
| CacheFlow.Cache.On | common/src/limero.h:631-642 | keeps the value, and emits it at once if the last emission is more than the minimum ago |
| CacheFlow.Cache.OnTimer | common/src/limero.h:643-659 | emits an unsent value, or an old one after the maximum, and restarts the timer |
| CacheFlow.Cache.PollTimer | common/src/limero.h:511-522 | the loop's request of the cache's timer does to the cache what the event of a run does: nothing before the deadline, a tick from then on |
| CacheFlow.InputKeeps | common/src/limero.h:631-642 | an input keeps pacing, freshness and the record of what is unsent |
| CacheFlow.TickKeeps | common/src/limero.h:643-659 | a tick keeps them, emits at most once and leaves nothing unsent |
| CacheFlow.RunInv | common/src/limero.h:612-667 | every run of inputs, ticks and requests keeps them |
| CacheFlow.EmissionsPaced | common/src/limero.h:636-641 | in every run a value-triggered emission comes more than the minimum after any earlier one, and emitting ticks are at least the minimum apart, requests aside |
| CacheFlow.EmissionsAreLatest | common/src/limero.h:631-660 | in every run, whatever is emitted after the first input is the latest input |
| CacheFlow.TimerDue | common/src/limero.h:622-658 | in every run the cache's timer is due a minimum after the last tick, or the start; inputs and requests do not move it |
| CacheFlow.EmittedExactly | common/src/limero.h:631-660 | in every run, exactly what each input, request and tick emits, told from what arrived and was emitted before; a tick emits the latest value if and only if that was not sent yet or the maximum has passed |
| CacheFlow.UnsetValueEmitted | common/src/limero.h:643-660 | before the first input, a request always and a tick exactly when the maximum has passed since the last emission, or since the uninitialised time before any, emits the value that was never set; nothing else is emitted |
| CacheFlow.TickSendsAll | common/src/limero.h:643-659 | in every run a tick emits at most once, after it the latest input has been emitted, and the next tick is a minimum away |
| CacheFlow.InputPassesAtOnce | common/src/limero.h:631-642 | in every run the next input is emitted at once exactly when it comes more than the minimum after everything sent, or, before anything is sent, after the uninitialised time of the last emission; otherwise it is kept |
| CacheFlow.SilenceBounded | common/src/limero.h:652-657 | after a tick the last emission is at most the maximum old, once anything was sent |
| CacheFlow.WindowBound | common/src/limero.h:631-659 | any window of L ms holds at most 2 * (L / minimum + 1) emissions, requests aside |
| Fcs.TableIsSerial | common/src/ppp_frame.cpp:9-38 | each of the 256 table entries is eight shifts of its index through the polynomial 0x8408 |
| Fcs.TableStepIsSerial | common/src/ppp_frame.cpp:46-49 | one table lookup does what eight bit-serial shifts do, for every register and octet |
| Fcs.FcsRegister.Write | common/src/ppp_frame.cpp:46-49 | the object's step is the bit-serial one |
| Fcs.TrailerLeavesResidue | common/src/ppp_frame.cpp:73-74 | the complemented register, least significant octet first, always leaves the residue |
| Fcs.OnlyTrailerLeavesResidue | common/src/ppp_frame.cpp:120 | no other two octets do |
| Fcs.PassesIffTrailer | common/src/ppp_frame.cpp:120 | octets pass the check against 0x0F47 if and only if their last two are the trailer of the others |
| Fcs.ShortNeverPasses | common/src/ppp_frame.cpp:120 | fewer than two octets never pass |
| FcsDetection.FcsReadsBits | common/src/ppp_frame.cpp:9-53 | on messages of every length the register is the one that reads the message bit by bit, least significant first |
| FcsDetection.WindowIsDifference | common/src/ppp_frame.cpp:46-51 | if two registers agree after at most sixteen bits, before them they differ by exactly the difference of those bits |
| FcsDetection.BurstChangesRegister | common/src/ppp_frame.cpp:46-51 | messages that differ only within sixteen consecutive bits and leave the same register are equal |
| FcsDetection.BurstDetected | common/src/ppp_frame.cpp:46-51 | bodies of any length that differ, and only within sixteen consecutive bits, do not both pass |
| FcsDetection.RegisterParity | common/src/ppp_frame.cpp:46-49 | the parity of the register is its initial parity plus that of all bits read |
| FcsDetection.OddErrorsDetected | common/src/ppp_frame.cpp:46-51 | bodies of any length that differ in an odd number of bits do not both pass |
| LinkIntegrity.CorruptionRejected | common/src/ppp_frame.cpp:89-127 | if a body is accepted, none is whose octets after unstuffing are as many and differ from its own by a burst of up to sixteen bits or in an odd number of bits |
| LinkIntegrity.WindowMoves | common/src/ppp_frame.cpp:99-119 | bodies with escapes in the same places that differ within a window of bits are unstuffed to octets that differ within that window, moved and no wider |
| LinkIntegrity.DifferencesMove | common/src/ppp_frame.cpp:99-119 | unstuffing bodies with escapes in the same places neither loses nor adds differing bits |
| LinkIntegrity.WireCorruptionRejected | common/src/ppp_frame.cpp:89-127 | if `ppp_deframe` accepts a body, it accepts no body with escapes in the same places that differs from it by a burst of up to sixteen bits or in an odd number of bits |
| EscapeErrors.EscapeMissed | common/src/ppp_frame.cpp:99-126 | for every octet but escape and flag there is an accepted body in which an escape in place of that octet is accepted too |
| EscapeErrors.OthersRejected | common/src/ppp_frame.cpp:89-127 | of two bodies that differ in one octet, which is an escape in neither, `ppp_deframe` accepts at most one |
| EscapeErrors.OneBitMissed | common/src/ppp_frame.cpp:89-127 | two accepted bodies of five octets that differ in one bit |
| WireErrors.FramedEmits | common/src/Frame.cpp:26-56 | whatever stands between an opening and a closing flag, flags included, the receiver emits exactly the accepted segments of it |
| WireErrors.SilentIffRejected | common/src/Frame.cpp:26-56 | nothing is emitted for a flag-free body between flags, whatever the receiver's state, if and only if `ppp_deframe` rejects it |
| WireErrors.WireCorruptionSilent | common/src/Frame.cpp:26-56 | the receiver emits nothing for a flag-free body that differs from an accepted one by a burst of up to sixteen bits or in an odd number of bits, escapes in the same places |
| WireErrors.FlagMissed | common/src/Frame.cpp:46-51 | for every payload and every octet but a flag there is a frame in which a flag in place of that octet makes the receiver emit that payload, which was not sent |
| WireErrors.OneBitMakesFlag | common/src/Frame.cpp:46-51 | one flipped bit, escapes in their places, after which the receiver emits a payload that was not sent |
| WireErrors.AlwaysNoticedIff | common/src/Frame.cpp:26-56 | of octets between the flags, one in place of another makes the receiver silent in every frame if and only if neither is an escape and the new one is no flag |
| PppFrame.AddEscaped | common/src/ppp_frame.cpp:55-62 | flags and escapes become pairs, any other octet is itself |
| PppFrame.StuffedExactly | common/src/ppp_frame.cpp:55-62 | 0x7D becomes 0x7D 0x5D, 0x7E becomes 0x7D 0x5E, and every other octet itself |
| PppFrame.BuildFrame | common/src/ppp_frame.cpp:64-77 | the loop builds the frame: flag, stuffed payload and trailer, flag |
| PppFrame.ExtractPayload | common/src/ppp_frame.cpp:89-127 | the loop computes verdict and output of the receiver for every body, malformed ones included |
| PppFrame.AcceptedCarries | common/src/ppp_frame.cpp:89-127 | an accepted body carries the payload returned: unstuffed it is that payload and its trailer |
| PppFrame.CarriedIsAccepted | common/src/ppp_frame.cpp:89-127 | a body that carries a payload is accepted and yields it |
| PppFrame.DeframeExactly | common/src/ppp_frame.cpp:89-127 | accepted with payload p if and only if the body carries p |
| PppFrame.RefusedAtFlag | common/src/ppp_frame.cpp:105-107 | a body with a flag is refused, leaving in the output what was unstuffed before the first one |
| PppFrame.UnstuffStuff | common/src/ppp_frame.cpp:55-119 | stuffed octets hold no flag and unstuff to what they were |
| PppFrame.RoundTrip | common/src/ppp_frame.cpp:64-127 | between the flags of any non-empty payload's frame there is no flag, and the payload comes back |
| PppFrame.RoundTripIffNonEmpty | common/src/ppp_frame.cpp:93-96 | a payload comes back from its frame if and only if it is not empty |
| PppFrame.EmptyBody | common/src/ppp_frame.cpp:64-77 | the body of the empty payload is two zero octets |
| PppFrame.FrameInjective | common/src/ppp_frame.cpp:64-77 | different payloads, the empty one included, have different frames |
| PppFrame.PopsFromEmptyExactly | common/src/ppp_frame.cpp:124-125 | octets are removed that are not there if and only if a flag-free body of at least three octets has at most one that is not an escape; such a body is rejected anyway |
| PppFrame.ThreeEscapesPopFromEmpty | common/src/ppp_frame.cpp:124-125 | three escapes are such a body |
| Deframer.BytesToFrame.HandleFrame | common/src/Frame.cpp:26-40 | an empty collection is ignored; otherwise the payload is emitted if and only if the body is accepted |
| Deframer.BytesToFrame.HandleRxd | common/src/Frame.cpp:42-64 | the loop does to the receiver what its octets and then the timeout do |
| Deframer.BufferNoFlag | common/src/Frame.cpp:42-64 | the collection never holds a flag, whatever arrives and whenever |
| Deframer.EmissionsSourced | common/src/Frame.cpp:26-64 | whatever arrives, whenever and whatever is dropped, each payload emitted is carried by octets standing in the stream, free of flags and closed by one, in order and with no octet used twice |
| Deframer.EmitsSegments | common/src/Frame.cpp:44-56 | octets emit the accepted segments between flags, in order, and keep what follows the last flag |
| Deframer.RunFlagTime | common/src/Frame.cpp:46-48 | the flag time is that of the last flag in all chunks, else the initial one |
| Deframer.LastChunk | common/src/Frame.cpp:57-63 | the end of a chunk drops the collection exactly when it comes more than a second after the last flag, and never takes back an emission |
| Deframer.DroppedExactly | common/src/Frame.cpp:57-63 | in plain numbers, for readings below 2^64: the collection is kept exactly if the chunk ends at most 1000 ms after the last flag, a flag time in the future counting as 2^64 ms earlier |
| Deframer.PromptIsUndisturbed | common/src/Frame.cpp:57-63 | if every chunk ends within 1000 ms of the last flag, nothing is dropped |
| Deframer.RunEmitsSegments | common/src/Frame.cpp:42-64 | without a drop, any chunks emit the accepted segments of the whole stream and keep its rest |
| Deframer.SplitUnique | common/src/Frame.cpp:44-56 | a stream is segments closed by flags, and a rest, in one way only |
| Deframer.ChunkingIrrelevant | common/src/Frame.cpp:42-64 | two ways of cutting the same octets emit the same and keep the same, if nothing is dropped |
| Deframer.SegmentsOfFrames | common/src/Frame.cpp:67-72 | frames in a row are segments whose accepted payloads are the non-empty ones framed |
| Deframer.FramesDelivered | common/src/Frame.cpp:26-72 | frames of any payloads, cut anywhere, are emitted as exactly the non-empty payloads in order, and nothing is left |
| Deframer.FrameDelivered | common/src/Frame.cpp:42-64 | the frame of a non-empty payload anywhere in what arrives is emitted from its own place there, whatever else arrives or is dropped, if no chunk end within its body is late |
| Deframer.SyncedRun | common/src/Frame.cpp:42-64 | from any state, how far into a frame the receiver is after any part of it |
| Deframer.Resynchronises | common/src/Frame.cpp:42-64 | from any collection and any flag time, a timely frame ends with its payload emitted and nothing collected |
| Watchdog.BrokerSerial.constructor | arduino_client/src/BrokerSerial.cpp:30-43 | both timers run, the link is down |
| Watchdog.BrokerSerial.Node | arduino_client/src/BrokerSerial.cpp:47-54 | naming the node takes the link down |
| Watchdog.BrokerSerial.HandleLoopback | arduino_client/src/BrokerSerial.cpp:103-109 | publishes the latency, sets `connected` and restarts the connect timer |
| Watchdog.BrokerSerial.PollConnectTimer | arduino_client/src/BrokerSerial.cpp:111-112 | the loop's request of the connect timer clears `connected` exactly from the deadline on, and sets the next deadline |
| Watchdog.BrokerSerial.PollLoopbackTimer | arduino_client/src/BrokerSerial.cpp:96-101 | the loop's request of the loopback timer sends a probe exactly from the deadline on, preceded by the node name while the link is down |
| Watchdog.AlwaysArmed | arduino_client/src/BrokerSerial.cpp:103-112 | in every run, while connected, the connect timer's deadline is the last loopback + 3000 ms |
| Watchdog.ServicedLateIsDown | arduino_client/src/BrokerSerial.cpp:111-112 | serviced 3000 ms or more after the last loopback, the link is down, in every run |
| Watchdog.ConnectedIff | arduino_client/src/BrokerSerial.cpp:96-112 | in every run the link is up if and only if a loopback arrived and nothing after it ended the connection |
| Watchdog.StaysDown | arduino_client/src/BrokerSerial.cpp:103-112 | once down, it stays down until a loopback arrives |
| Watchdog.SentExactly | arduino_client/src/BrokerSerial.cpp:96-109 | in every run, a loopback publishes the plain time it was under way; a due poll of the loopback timer sends a probe, behind the node name exactly if no loopback keeps the link up; nothing else is sent |
| Watchdog.LoopbackTimerRuns | arduino_client/src/BrokerSerial.cpp:34 | in every run the probe's timer is the repeating timer of 1000 ms under its polls |
| Watchdog.ConnectTimerRuns | arduino_client/src/BrokerSerial.cpp:35 | in every run the watchdog's timer is the repeating timer of 3000 ms under its polls, reset by each loopback |
| Watchdog.ProbesCounted | arduino_client/src/BrokerSerial.cpp:96-101 | in every run as many probes were sent as the loopback timer fired |
| Watchdog.NodeNameSentIff | arduino_client/src/BrokerSerial.cpp:96-101 | in every run the node name goes out exactly with the probes sent while the link is down, and nothing sent is taken back |
| Watchdog.TurnOnlyDisconnects | arduino_client/src/BrokerSerial.cpp:111-112 | without a loopback a turn of the loop never brings the link up, takes it down if it fires the connect timer, and otherwise leaves that timer alone while the link is up |
| Watchdog.WatchdogBites | arduino_client/src/BrokerSerial.cpp:103-112 | from any reachable link, among n timers on one thread, more than 2(n - 1) turns of the loop past the last loopback + 3000 ms without another leave the link down |

## Left out

- Redis, Zenoh and Iceoryx brokers: network clients over libraries that are not part of this model.
- CBOR encoding and decoding: payloads are octets, loopback messages are numbers.
- Serial and UDP input and output, termios, reset sequences, flashing, consoles and logging: no result of the core depends on them.
- `select`, file descriptor sets and pipe internals: a wait ends with "timed out" or not; the pipe is a count of tokens with a number of places.
- Weak memory: steps interleave sequentially. The acquire and release orders of the source are not represented.
- Wrap-around of the 64-bit tickets and of 64-bit milliseconds: both are unbounded here, except where the code subtracts or adds an uninitialised time (`Millis.Elapsed`, `Millis.Plus64`).
- The racy `size()` of the lock-free queue, its `capacity()` and the freeing of its memory.
- A lock-free queue of capacity zero: the source divides by it.
- Interrupt masking on Arduino: push and pop are atomic calls.
- RingQueue.ArrayQueue.constructor: does not model a size of zero or less, for which the source's index arithmetic is undefined.
- RingQueue.ArrayQueue.Pop: when it refuses, the source leaves the caller's variable alone; the value returned is then unspecified.
- PppFrame.PopsFromEmptyExactly: what removing an element from an empty vector does is undefined in the source; here nothing happens, and the verdict does not depend on it.
- Serving the Arduino work queue within a turn, and its refused pushes: a turn of `EventLoop` is about timers only.
- EventLoop.NoStarvation: assumes lateness of at most 2^31 ms and intervals of at least one, and that no timer is added during the run.
- QueueFlow.FlowStepKeeps: `request()` is called by the consuming thread, not by others.
- StrandedItem.NeverStrandsIff: the pipe serves one flow; where several share one, the places the others leave free vary and are not modelled.
- WireErrors.AlwaysNoticedIff: corruption between the flags of one frame; a flag lost between two frames joins them, which is not modelled beyond `Deframer.EmissionsSourced`.
- Watchdog.WatchdogBites: loopbacks and probes act at once; the queues between the link and the handlers, `_incoming` and `_outgoing`, are not in between.
- `QueueFlow` without a thread, `ValueFlow` and `LambdaFlow`: plain function calls; `SinkQueue` repeats the pattern of `QueueFlow`.
- `Poller`, `split`, baud tables, URI and configuration parsing, and the applications: easy members or glue.
