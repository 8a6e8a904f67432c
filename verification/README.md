# Verification of the virtual gamepad drivers

A Dafny model of the parts of the repository that keep state under concurrency,
back-pressure or time, with proofs about every run of each of them. `dafny verify
dfyconfig.toml` checks the whole project.

| module | models |
|---|---|
| `SlotLifecycle`, `SlotInvariant`, `SlotSteps`, `SlotSafety`, `SlotClose`, `SlotOwners`, `SlotOperations`, `SlotPower` | The sixteen controller slots: create, destroy (also what closing a file does to each of its controllers), report submission, VHF callbacks, the keep-alive tick's submissions, D0 entry and exit, prepare hardware and device stop, interleaved freely. One critical section under `state_lock` is one step, `lifetime_gate` is a lock with an owner, VHF handles are explicit. |
| `KeepAlive`, `KeepAliveRuns`, `KeepAliveSafety`, `KeepAliveGap`, `KeepAliveCadence` | Handing reports to VHF under the lock and the Steam Controller keep-alive: the tick and the timer as code (`KeepAliveDevice`), the worker thread, start, stop and parking as a transition system. |
| `Ring`, `ReportPumps`, `PumpRuns`, `PumpReplies` | The input report pump: priority replies, ordered transitions and asides in a ring, the newest snapshot, one submission credit. `ReportPump` is the object, proved to refine `Pump`. |
| `SteamHaptics`, `HapticRuns`, `HapticStops` | The haptic feedback ring, which coalesces stops and evicts ordinary effects in place. |
| `SteamFeatures`, `SteamChannel`, `SteamSettings`, `SteamReplies` | The Steam Controller's feature-report channel (`FeatureChannel`), the cutting of settings writes into events, and their ring. |
| `KeyboardMouse`, `KeyboardMouseRuns`, `KeyboardMouseRequests` | The portable keyboard and mouse endpoint (`KeyboardMouseEndpoint`). |
| `PidEffects`, `PidEngines`, `PidRuns`, `PidControl`, `PidShapes` | The force-feedback engine (`PidEngine`): allocation, the looping effect clock, envelopes and gains, with C++'s truncating division and 32-bit wrap-around written out. |
| `UsbTransfer`, `UsbTransferRuns`, `UsbPackets` | The loopback controller's `transfer` loop and the short-packet rules of section 5.8.3 of USB 2.0. |
| `IsoPacing`, `IsoUrbs` | One isochronous packet per interval with bounded catch-up (section 5.6 of USB 2.0), and what a whole URB of such packets carries. |

Objects the source updates in place are classes over arrays and fields; each of
their methods is proved equal to a function on an abstract value, and runs are
sequences of those functions. The two protocols of `driver.cpp` are relations
between states, because their subject is the interleaving.

## What the proofs found

The model follows the code. Where the code does less than one would expect of it,
the exact condition is proved:

- `transfer` leaves its head request queued and looks at the one behind it if and
  only if the bandwidth ends on a packet boundary inside both buffers
  (`UsbTransferRuns.FallsThroughWhenDry`). When that second request expects no more
  data it completes first and ends the URB early (`UsbTransferRuns.DryCall`).
- Under `transfer`'s short-packet rules a reply that fills its last packet and asks for
  no zero-length one leaves the host's read open, and a write that fills its last
  packet and promises none leaves the gadget's request open; these and the other
  outcomes follow from lengths and flags alone (`UsbPackets.HeadFinishes`,
  `UsbPackets.ShortReplyEnds`, `UsbPackets.ShortWriteEnds`).
- `apply_sc26_settings` forwards nothing for a settings write of more than 27
  triples, although `set_feature` applies it; the forwarded writes are exactly the
  faithful ones (`SteamSettings.LongWriteIsLost`). No transfer of at most 64 bytes
  is that long (`SteamSettings.ReportsAreForwardable`).
- A finite force-feedback effect stops after its expected number of ticks if and
  only if it plays once or its start delay plus the tick fits 32 bits
  (`PidEffects.StopsOnTime`). The driver only ever ticks `k_pid_tick_ms`, 10 ms
  (driver/src/driver.cpp:2122), so there every effect stops on time
  (`PidEffects.DriverTicksAreExact`).
- Shortening a playing effect is the only command that can leave its clock beyond
  its play, exactly when the new total is not above the time elapsed; until the next
  tick its envelope can then leave its bounds (`PidRuns.OnlySetEffectOverruns`,
  `PidRuns.OverrunIsSilent`). A run of seven commands reaches such a state
  (`PidRuns.ARunOverruns`).
- The keyboard and mouse report retained at a close stays unchanged until the next
  readiness if and only if the close finds no unused credit
  (`KeyboardMouseRuns.CloseKeepsRetained`). With one, the first neutral report is
  handed out at once over the retained one, as after a session's first readiness
  (`KeyboardMouseRuns.CloseOverwrites`).
- The branches for a `starting` slot in `destroy_owned_controller` and
  `stop_owned_controllers` cannot be taken: the gate keeps both from meeting one
  (`SlotSafety.NoSlotIsStarting`). The create path that gives up may skip
  `wait_for_submits` because only callbacks are inside a slot that was not adopted
  (`SlotSafety.OnlyCallbacksSubmitEarly`).
- A parked keep-alive timer can stay parked beside a waiting reader: a run reaches
  that state (`KeepAliveGap.ParkedBesideAReader`). An input state for a waiting reader
  leaves the timer parked if and only if the device has no power
  (`KeepAliveGap.InputUnparksExactlyWithPower`); on a powered device that is not
  stopping nothing else does either (`KeepAliveSafety.NoLostWakeUp`).
- A haptic ring refuses some sequence of writes exactly when it has fewer than eight
  slots (`HapticRuns.EightSlotsAreExact`), so the bound of the static assertion is
  exact.
- The `n-9` of isochronous spacing is attained for every interval
  (`IsoPacing.SpacingIsExact`).

## Model

| member | source | states |
|---|---|---|
| `SlotSafety.NoUseAfterDelete` | driver/src/driver.cpp:788-868 | In every reachable state a thread inside a report submission holds an undeleted handle made for that slot and is counted by it, and every running VHF callback is on an undeleted handle. |
| `SlotSafety.DeleteFindsNobody` | driver/src/driver.cpp:500-513 | VhfDelete returns only on a handle that was not deleted before, with no submission inside it and no callback on it, in all four places that delete a controller. |
| `SlotSafety.DeletedOnce` | driver/src/driver.cpp:2737-2755 | No handle is deleted twice in any run. |
| `SlotSafety.DeletedStays` | driver/src/driver.cpp:2813-2838 | A deleted handle stays deleted for the rest of the run. |
| `SlotSafety.FreeGateIsQuiet` | driver/src/driver.cpp:455-524 | Whenever the lifetime gate is free every slot is empty, active or lost, active exactly when it has a handle, and the undeleted handles are exactly those the slots publish: none leaks. |
| `SlotSafety.ResetFindsNobody` | driver/src/driver.cpp:397-406 | The in-flight counter is exactly the number of threads inside, so it never underflows; a slot's generation moves by at most one, and only when nobody is inside and its handle is gone. |
| `SlotSafety.GenerationGrows` | driver/src/driver.cpp:397-406 | A slot's generation never decreases over a run. |
| `SlotSafety.StillUntilPowered` | driver/src/driver.cpp:2782-2864 | From the moment a power-down or stop callback is over until the device has power and is not stopping again, no slot is starting or active, whatever creates raced with it. |
| `SlotSafety.PowerDownLosesTheActive` | driver/src/driver.cpp:2782-2854 | Over a whole power-down of any run, from the step that marks the slots to its last critical section: every slot that was active before the marking ends lost, drained, without a handle, in its next generation, under the same owner and profile; every other slot is exactly as it was before the marking. |
| `SlotSafety.PowerDownRemembers` | driver/src/driver.cpp:2785-2838 | Between these steps nothing that runs beside the power-down touches the slots it found. |
| `SlotSafety.NoSlotIsStarting` | driver/src/driver.cpp:484-490 | No destroy, power-down or stop that holds the gate ever meets a starting or stopping slot. |
| `SlotSafety.ReservesWhatItChecked` | driver/src/driver.cpp:550-587 | A create reserves its slot only if the slot was exactly what its unlocked check saw at every moment since, so any lifecycle change during the child lookup makes it fail. |
| `SlotSafety.OnlyCallbacksSubmitEarly` | driver/src/driver.cpp:693-722 | While a slot is being created every submission on it is made by a callback on the creator's own handle, so deleting that handle drains them. |
| `SlotSafety.WaitedForCanLeave` | driver/src/driver.cpp:788-798 | While a holder of the gate waits for submissions, some thread is inside that can come out without the gate. |
| `SlotSafety.CallbackCanGoOn` | driver/src/driver.cpp:902-937 | Any running callback can finish without the gate, so waiting for it inside VhfDelete does not deadlock. |
| `SlotClose.CloseDisowns` | driver/src/driver.cpp:2676-2690 | When a file's close has destroyed every slot for its owner, in whatever interleaving with other files, callbacks and power transitions, no slot is that owner's, then and at any later moment until a create of the owner reserves one. |
| `SlotClose.DestroyDisowns` | driver/src/driver.cpp:470-524 | A destroy ends with the slot not owned by the file it was run for, in every run and in all of its branches. |
| `SlotClose.StaysDisowned` | driver/src/driver.cpp:397-406 | A slot that is not an owner's becomes so only by a create reserving it, whatever else runs. |
| `SlotClose.EmptyIsUnowned` | driver/src/driver.cpp:397-406 | In every run an empty slot has no owner. |
| `SlotOwners.ReportsReachOwnController` | driver/src/driver.cpp:1276-1312 | From the moment a submission takes the gate for a file and a slot: whenever its report is being handed to VHF, that slot is active, belongs to that file, did so when the submission began, and the handle used is its own. |
| `SlotOwners.StrangersNeverEnter` | driver/src/driver.cpp:1073-1087 | A submission begun for anyone but the slot's owner gives the gate back without ever having been inside any slot. |
| `SlotOwners.AdmittedExactly` | driver/src/driver.cpp:1073-1087 | A submission is let in exactly when the slot is the file's and active on a device that is not stopping; the handle needs no test of its own. |
| `SlotOwners.EntersOnlyWithPower` | driver/src/driver.cpp:388-396 | In every run a thread comes to be inside a slot only while the device has power, is not stopping, and the slot is starting or active, on the slot's own handle. |
| `SlotOwners.ChecksExactly` | driver/src/driver.cpp:542-563 | A create goes on only from a powered device that is not stopping and a slot that is empty or was lost by the same owner. |
| `SlotOwners.ReservesExactly` | driver/src/driver.cpp:573-598 | In every run a create reserves its slot exactly when power is there, the device is not stopping, no child is present and the slot is still exactly what the check saw; else it changes no slot. |
| `SlotOwners.AdoptsExactly` | driver/src/driver.cpp:700-717 | In every run a create is adopted exactly when its child started, power is there and the device is not stopping; else the slot gives up its handle, which goes on to be deleted. |
| `SlotPower.OffUntilEntry` | driver/src/driver.cpp:2782-2790 | In every run a power-down or a stop takes the power away and only a D0 entry gives it back. |
| `SlotPower.StoppingUntilPrepared` | driver/src/driver.cpp:2695-2712 | A stop marks the device as stopping and only prepare hardware takes that back. |
| `SlotPower.StillUntilTakenBack` | driver/src/driver.cpp:2695-2890 | From the end of a stop until prepare hardware, whatever power does in between, and from the end of a power-down until a D0 entry, no slot starts or is active. |
| `SlotOperations.CreateSucceeds` | driver/src/driver.cpp:526-725 | From every state with power, not stopping, with the gate free and the slot available, a create can go through, and the slot is then active under its owner and profile in its next generation, nothing else changed. |
| `SlotOperations.DestroyFrees` | driver/src/driver.cpp:470-524 | An undisturbed destroy by the owner frees the slot in its next generation and deletes its handle, and nothing else changes. |
| `SlotOperations.DestroyOfRest` | driver/src/driver.cpp:481-508 | A destroy of a lost slot by its owner frees it; one by anybody else, or of an empty slot, changes nothing. |
| `SlotOperations.SubmissionReaches` | driver/src/driver.cpp:788-868 | A report of an active slot's owner can reach VHF on the slot's handle, and coming back leaves every slot as it was. |
| `SlotOperations.CallbackHandsOver` | driver/src/driver.cpp:902-937 | A readiness callback on a live handle can hand over a report of a starting or active slot without the gate. |
| `SlotOperations.PowerComes` | driver/src/driver.cpp:2856-2890 | D0 entry gives power and prepare hardware ends a stop, without touching a slot. |
| `SlotOperations.StopLeavesNothing` | driver/src/driver.cpp:2695-2760 | A device stop ends with every slot empty, nobody inside and every handle deleted. |
| `SlotSteps.NoUsersLeft` | driver/src/driver.cpp:710-718 | A creator that gives up finds nobody inside its slot once its handle's callbacks have returned, without waiting for submissions. |
| `SlotSteps.CreateStepInv` | driver/src/driver.cpp:526-725 | Every step of a create keeps the lifecycle invariant, resets only drained slots and wakes none without power. |
| `SlotSteps.DestroyStepInv` | driver/src/driver.cpp:470-524 | The same for every step of a destroy. |
| `SlotSteps.ReportStepInv` | driver/src/driver.cpp:811-937 | The same for report submissions, VHF callbacks and the keep-alive tick's submissions. |
| `SlotSteps.DownStepInv` | driver/src/driver.cpp:2782-2854 | The same for every step of power-down. |
| `SlotSteps.StopStepInv` | driver/src/driver.cpp:2695-2760 | The same for every step of device stop. |
| `SlotSteps.PowerStepInv` | driver/src/driver.cpp:2856-2890 | The same for D0 entry and prepare hardware. |
| `SlotSteps.RunInv` | driver/src/driver.cpp:526-725 | Every state of every interleaved run satisfies the lifecycle invariant. |
| `SlotSteps.RunOrderly` | driver/src/driver.cpp:455-468 | Every step of every run keeps deletions, resets slots only when drained, and starts nothing without power or while stopping. |
| `KeepAliveSafety.NoLostWakeUp` | driver/src/driver.cpp:2155-2318 | In every run, while the worker waits and may run on a powered device, a Steam Controller whose reader waits has a timer that is due within one tick or has gone off. |
| `KeepAliveGap.ParkedBesideAReader` | driver/src/driver.cpp:1313-1350 | Some run from power-up ends with the worker waiting, the timer off and parked, and a controller that has input and a reader waiting: the input came after power was lost. |
| `KeepAliveGap.InputUnparksExactlyWithPower` | driver/src/driver.cpp:1313-1350 | In every run, an input state for a controller whose reader waits, with the timer parked, leaves it parked if and only if the device has no power; with power the timer is armed within one tick. |
| `KeepAliveSafety.JoinsOnlyALeavingWorker` | driver/src/driver.cpp:2285-2318 | A start joins only a worker that is leaving; with the gate free the running flag is set only while a worker exists, and a serving worker has it set. |
| `KeepAliveSafety.JoinEnds` | driver/src/driver.cpp:2262-2281 | Whoever joins the worker waits for finitely many of its steps: it can always make one, and each brings it nearer its end. |
| `KeepAliveSafety.NoCreditBesideAReport` | driver/src/driver.cpp:811-845 | At every release of the state lock a slot that serves reports, of any profile but Switch Pro, never has both a pending read and a queued report. |
| `KeepAliveSafety.SequenceCountsHandOvers` | driver/src/driver.cpp:757-762 | The n-th Steam state report handed over since creation carries n modulo 256, whatever was coalesced, evicted or resent. |
| `KeepAliveSafety.StampedInTheBuffer` | driver/src/driver.cpp:757-783 | In every run, whenever the buffer VHF reads holds a Steam state report, it carries the number of the newest hand-over: the stamp is in the retained buffer itself and nothing overwrites it before the next one. |
| `KeepAliveSafety.TakeKeeps` | driver/src/driver.cpp:834-843 | Handing a report over never leaves a credit beside a queued report. |
| `KeepAliveSafety.RunInv` | driver/src/driver.cpp:2155-2335 | Every state of every run of the keep-alive protocol satisfies its invariant. |
| `KeepAlive.DelayIsEarliest` | driver/src/driver.cpp:2245-2256 | The armed delay is at most one tick, at most what remains for each qualifying controller, and equal to one of them. |
| `KeepAlive.NobodyOverdueAfterTick` | driver/src/driver.cpp:2164-2217 | After a tick on a powered device that is not stopping, no controller that still waits for a report is overdue for one, nor for its battery level. |
| `KeepAlive.TickHandsOver` | driver/src/driver.cpp:2186-2215 | With a read pending and something due, the tick always hands over a report and spends the credit. |
| `KeepAliveCadence.TickChooses` | driver/src/driver.cpp:2186-2215 | In microseconds: a tick sends a waiting reader the battery level 3.5 s after the last one, else the state 3 ms after the last one, else nothing; it notes the time of what it sent, and a state due beside a battery level stays queued behind it. |
| `KeepAliveCadence.TickHoldsBack` | driver/src/driver.cpp:2167-2185 | Without a reader a tick only restarts the period, without power it sends nothing, and other controllers it leaves alone. |
| `KeepAliveCadence.TimerIsDue` | driver/src/driver.cpp:2240-2259 | The timer comes for every controller looked after by 4 ms after its last report, or at once, within 4 ms, and no sooner than the first of them needs it. |
| `KeepAliveCadence.TickSetsTimer` | driver/src/driver.cpp:2216-2235 | A tick leaves the timer armed while some reader waits, parked while none does, and tells the worker to leave when there is no controller left. |
| `KeepAliveCadence.ReadinessDelivers` | driver/src/driver.cpp:902-932 | A readiness hands over a report at once if and only if one is queued, is otherwise kept as a credit, and is ignored by a slot that takes no part. |
| `KeepAliveCadence.ReportLeavesOrWaits` | driver/src/driver.cpp:811-845 | A report leaves at once if and only if a credit is unused; without one it waits and the timer stays as it is; other slots are untouched. |
| `KeepAliveCadence.MarkedSlotsRetire` | driver/src/driver.cpp:2712-2726 | Once a stop or power-down has marked the slots none is active, after a stop none is starting either, and nothing else about them has changed. |
| `KeepAliveCadence.BatteryReportRestarts` | driver/src/driver.cpp:1221-1233 | A client's own battery report restarts the 3.5 s period when somebody reads; without a reader the first tick that has one sends it. |
| `KeepAliveCadence.StateRestartsPeriod` | driver/src/driver.cpp:757-783 | Exactly a Steam Controller's state report that leaves is numbered, restarts its period and re-arms the timer. |
| `KeepAlive.KeepAliveDevice.Arm` | driver/src/driver.cpp:2240-2260 | The loop over the slots arms the timer for the earliest deadline, or does nothing without a timer or a running worker. |
| `KeepAlive.KeepAliveDevice.PumpReportLocked` | driver/src/driver.cpp:811-845 | Refuses unless the slot accepts callbacks; otherwise queues, takes, numbers and re-arms as specified. |
| `KeepAlive.KeepAliveDevice.ReadyForNextReport` | driver/src/driver.cpp:902-932 | Grants the credit, takes the next report, and un-parks the timer for a Steam Controller with input. |
| `KeepAlive.KeepAliveDevice.TickLocked` | driver/src/driver.cpp:2164-2228 | The tick's critical section: every slot's resend and battery, and whether it clears the running flag, arms or parks. |
| `KeepAlive.KeepAliveDevice.TickEach` | driver/src/driver.cpp:2166-2215 | The tick's loop gives every slot its own specified update and collects exactly the reports taken. |
| `KeepAlive.KeepAliveDevice.TickOne` | driver/src/driver.cpp:2167-2214 | One slot's part of the tick leaves every other slot alone. |
| `PumpRuns.StateNeverGoesBackwards` | driver/src/report_pump.cpp:60-163 | In every run the state reports handed over have strictly increasing enqueue positions, everything pending is newer, and the newest one enqueued is handed over or pending. |
| `PumpRuns.TransitionsConserved` | driver/src/report_pump.cpp:80-153 | In every run transitions enqueued equal those handed over plus those queued plus those dropped, and the 32-bit drop counter is their number modulo 2^32; asides never enter it. |
| `PumpRuns.AsideDisplacesNothing` | driver/src/report_pump.cpp:82-98 | An aside evicts no transition, keeps the pending snapshot and is never counted as dropped. |
| `PumpRuns.OneReportPerGrant` | driver/src/report_pump.cpp:128-163 | Without credit at most one report goes out per readiness grant, and the buffer VHF holds is unchanged until the next grant. |
| `PumpRuns.EveryEdgeReachesTheReader` | driver/src/report_pump.cpp:41-58 | While no transition was evicted the reader sees exactly the client's sequence of discrete states, however many snapshots were coalesced. |
| `PumpReplies.RepliesInOrder` | driver/src/report_pump.cpp:68-78 | Over every run the replies accepted are exactly those handed over followed by those pending, each once and in order. |
| `PumpReplies.RefusedOnlyBehindFour` | driver/src/report_pump.cpp:69-73 | A reply is refused exactly when four accepted ones have not been handed over. |
| `PumpReplies.AsidesKeepTheirPlace` | driver/src/report_pump.cpp:80-117 | Over every run transitions and asides leave in the order they came in, among each other as well. |
| `PumpReplies.AsideIsLast` | driver/src/report_pump.cpp:82-98 | An aside is accepted exactly when fewer than sixteen transitions and asides wait, and is then the last of them. |
| `PumpReplies.CreditIsUsed` | driver/src/report_pump.cpp:132-163 | In every run a credit is used as soon as anything waits, on a reply first, a transition or aside next and a snapshot last, and the buffer VHF reads is the report handed over. |
| `PumpReplies.GrantDelivers` | driver/src/report_pump.cpp:128-163 | In every run a readiness brings the next report out if and only if one waits. |
| `PumpReplies.StoredWhole` | driver/src/report_pump.cpp:10-21 | A report is kept whole, or as its first 64 bytes, under its own id. |
| `PumpRuns.RelabelEnqueue` | driver/src/report_pump.cpp:60-126 | Queueing commutes with any relabelling of reports: the pump never looks at what a report says. |
| `PumpRuns.RelabelTake` | driver/src/report_pump.cpp:132-163 | Taking commutes with any relabelling of reports. |
| `PumpRuns.RunInOrder` | driver/src/report_pump.cpp:60-163 | Every run keeps handed-over and pending state reports in enqueue order. |
| `ReportPumps.Store` | driver/src/report_pump.cpp:10-21 | A stored report is the caller's bytes, cut to at most 64. |
| `ReportPumps.ReportPump.constructor` | driver/src/report_pump.h:101-117 | A new pump is empty and without credit. |
| `ReportPumps.ReportPump.Reset` | driver/src/report_pump.cpp:23-39 | Reset empties every class, takes the credit away and forgets the signature. |
| `ReportPumps.ReportPump.Classify` | driver/src/report_pump.cpp:41-58 | A report is a transition exactly when its discrete signature differs from the last one, which it replaces. |
| `ReportPumps.ReportPump.Enqueue` | driver/src/report_pump.cpp:60-126 | The rings and counters change as the queue specification says, for all four kinds; an empty buffer changes nothing. |
| `ReportPumps.ReportPump.EnqueueOrdered` | driver/src/report_pump.cpp:80-117 | The ring with its modular head refines appending to a sequence, with eviction of the oldest for a transition and refusal for an aside. |
| `ReportPumps.ReportPump.EvictOldest` | driver/src/report_pump.cpp:99-110 | Eviction removes the oldest entry and counts it unless it was an aside. |
| `ReportPumps.ReportPump.PopOrdered` | driver/src/report_pump.cpp:148-150 | Moving the head removes the first entry of the sequence. |
| `ReportPumps.ReportPump.ShiftPriority` | driver/src/report_pump.cpp:139-142 | Shifting the priority array removes its first entry and keeps the order of the rest. |
| `ReportPumps.ReportPump.SetReady` | driver/src/report_pump.cpp:128-130 | Grants the credit and nothing else. |
| `ReportPumps.ReportPump.Take` | driver/src/report_pump.cpp:132-163 | With credit hands over the first priority reply, else the oldest ordered report, else the snapshot, and spends the credit. |
| `Ring.Push` | driver/src/report_pump.cpp:111-115 | Writing behind the newest entry of a modular ring appends to its contents. |
| `Ring.Pop` | driver/src/report_pump.cpp:148-150 | Advancing the head of a modular ring drops its first entry. |
| `Ring.Chop` | driver/src/steam_haptic_queue.h:54-57 | Shortening a modular ring by one drops its last entry. |
| `HapticRuns.NoStopIsLost` | driver/src/steam_haptic_queue.h:34-61 | In every run of a ring of eight or more: nothing is refused; pending events stay in write order behind everything delivered; every stop is delivered, pending or superseded by a later stop of the same key; ordinary events are delivered, pending or counted as evicted. |
| `HapticRuns.NeverRefuses` | driver/src/steam_haptic_queue.h:37-53 | A ring of eight or more whose pending stops have distinct keys accepts every event and keeps them distinct. |
| `HapticRuns.OrdinaryAmongEight` | driver/src/steam_haptic_queue.h:37-39 | Among eight pending events with distinct stop keys one is ordinary. |
| `HapticRuns.EightSlotsAreExact` | driver/src/steam_haptic_queue.h:39 | A ring refuses some run of writes exactly when it has fewer than eight slots. |
| `HapticRuns.RoomIsMade` | driver/src/steam_haptic_queue.h:41-60 | An equivalent stop is replaced; else a ring with a free slot grows; else the oldest event that is no stop goes and every stop before it stays; a ring of stops only refuses. |
| `HapticRuns.EvictsOnlyWhenFull` | driver/src/steam_haptic_queue.h:47-53 | In every run an ordinary event is thrown away only by a write into a full ring. |
| `HapticStops.StopsAreKnown` | driver/src/steam_haptic_queue.h:10-22 | From the bytes a host sends: a rumble is a stop if and only if both speeds are 0, a pulse if and only if its side is known and its on time or its repetitions are 0, a command if and only if its side is known and it is number 0, and nothing else ever is. |
| `HapticStops.StopsShareKeys` | driver/src/steam_haptic_queue.h:10-22 | Two stops replace each other if and only if they are of one family and at the same actuators. |
| `HapticStops.WholeReportsOnly` | driver/src/steam_controller.cpp:296-325 | A transfer is forwarded exactly when it holds the 10, 8, 4, 10, 9 or 4 bytes of its report, and a client reads exactly these. |
| `HapticRuns.SmallRingRefuses` | driver/src/steam_haptic_queue.h:47-51 | For every smaller ring a concrete run of stops fills it and the next stop is refused. |
| `SteamHaptics.OutputRoundTrip` | driver/src/steam_controller.cpp:296-325 | An output report is forwarded exactly when it is a complete haptic report, and the client reads back its bytes without the padding. |
| `SteamHaptics.Find` | driver/src/steam_haptic_queue.h:43-45 | The search returns the first position with the key, or the length. |
| `SteamHaptics.HapticRing.constructor` | driver/src/steam_haptic_queue.h:34-36 | A new ring is empty. |
| `SteamHaptics.HapticRing.FindKey` | driver/src/steam_haptic_queue.h:43-50 | The loop over the ring finds the first event with the key. |
| `SteamHaptics.HapticRing.ChooseVictim` | driver/src/steam_haptic_queue.h:41-53 | The victim is the equivalent stop, else the first ordinary event of a full ring, else none; only the second counts as evicted. |
| `SteamHaptics.HapticRing.CloseGap` | driver/src/steam_haptic_queue.h:54-57 | The in-place modular shift removes exactly the victim and keeps the order of the rest. |
| `SteamHaptics.HapticRing.Enqueue` | driver/src/steam_haptic_queue.h:34-61 | The ring's contents, its answer and its eviction counter are those of the sequence specification. |
| `SteamHaptics.HapticRing.Poll` | driver/src/driver.cpp:1531-1534 | A poll removes the oldest event. |
| `SteamSettings.StreamIsFaithful` | include/libvirtualgamepad/sc26_usb.h:856-892 | In every run of transfers of at most 64 bytes without a settings eviction, replaying the delivered and then the pending events from the default table gives exactly the responder's table; lizard and IMU mode always mirror entries 9 and 48. |
| `SteamSettings.WriteIsFaithful` | driver/src/steam_controller.cpp:327-378 | For one forwardable transfer the events rebuild the table the responder has. |
| `SteamSettings.LongWriteIsLost` | driver/src/steam_controller.cpp:351-356 | Among transfers that change the table the forwardable ones are exactly the faithful ones. |
| `SteamSettings.ReportsAreForwardable` | driver/src/steam_controller.cpp:333-356 | Every transfer of at most 64 bytes is forwardable. |
| `SteamSettings.ChunksReplay` | driver/src/steam_controller.cpp:357-376 | Replaying the first n chunks of a write applies exactly its first 9n triples. |
| `SteamSettings.SplitWrite` | driver/src/steam_controller.cpp:327-378 | The loop cuts a transfer into exactly the specified events. |
| `SteamSettings.WrittenIs` | include/libvirtualgamepad/sc26_usb.h:882-892 | Writing triples updates the table triple by triple and keeps the mirror flags true. |
| `SteamSettings.QueryReadsTable` | include/libvirtualgamepad/sc26_usb.h:893-918 | A query for up to twenty ids reads back each id with its present value, zero outside the table, and changes no setting. |
| `SteamReplies.TransfersAreWhole` | include/libvirtualgamepad/sc26_usb.h:856-865 | A transfer is refused, without a trace, exactly when it is for another channel or shorter than it says; what follows the bytes it declares is ignored. |
| `SteamReplies.EveryCommandIsAnswered` | include/libvirtualgamepad/sc26_usb.h:866-873 | Every command is accepted, and the report then read is whole and names it; a short buffer gets nothing. |
| `SteamReplies.BlankBeforeCommands` | include/libvirtualgamepad/sc26_usb.h:1012-1022 | Before the first command the report is blank but for its id. |
| `SteamReplies.UnknownIsCounted` | include/libvirtualgamepad/sc26_usb.h:1002-1006 | Exactly the commands outside the fifteen known ones are counted and remembered; only a write and a load of the defaults leave any other trace. |
| `SteamReplies.WriteThenQuery` | include/libvirtualgamepad/sc26_usb.h:882-918 | Low byte first, a value written to a setting is the value read back, no other setting changes, and ids outside the table are ignored. |
| `SteamReplies.QueryAnswers` | include/libvirtualgamepad/sc26_usb.h:893-918 | A query for values, defaults or maximums lists the ids asked for, or the first ones, at most twenty, each with its value, its default or 0xFFFF, and zero for ids outside the table. |
| `SteamReplies.AttributesAnswer` | include/libvirtualgamepad/sc26_usb.h:919-938 | The attribute reply holds the six attributes, each behind its tag. |
| `SteamReplies.ForwardedIsRead` | include/libvirtualgamepad/sc26_usb.h:803-838 | The four numbers a client forwards are what Steam reads, each under its own tag; product id and interval stay the device's own. |
| `SteamReplies.OnlyForwardedChanges` | include/libvirtualgamepad/sc26_usb.h:803-838 | An update changes only the fields it carries. |
| `SteamReplies.StringAnswer` | include/libvirtualgamepad/sc26_usb.h:939-954 | The string read is the board's for tag 0 and the unit's for any other. |
| `SteamReplies.SerialsStandAlone` | include/libvirtualgamepad/sc26_usb.h:826-836 | Each forwarded serial stands on its own: an acceptable one is read back, cut to fifteen characters, and any other leaves the one before it. |
| `SteamReplies.FreshNumbers` | include/libvirtualgamepad/sc26_usb.h:708-716 | A device nothing was forwarded to answers with the captured unit's numbers. |
| `SteamReplies.FreshSerials` | include/libvirtualgamepad/sc26_usb.h:718-722 | And with serials of its own. |
| `SteamReplies.DeviceInfoAnswer` | include/libvirtualgamepad/sc26_usb.h:974-992 | Device information: firmware, board revision, build id and unit serial, each in its place. |
| `SteamReplies.OtherPages` | include/libvirtualgamepad/sc26_usb.h:993-998 | The other information pages, of 34 and 9 bytes. |
| `SteamReplies.NothingToSay` | include/libvirtualgamepad/sc26_usb.h:955-973 | Of the keyed values only the transport has one, a zero byte; a command that asks for nothing gets nothing. |
| `SteamReplies.EventsCarryTheWrite` | driver/src/steam_controller.cpp:345-376 | A write of up to twenty-seven triples becomes as many events as it takes at nine a piece; triple i of event c is triple 9 c + i of the write, byte for byte, behind the command and the count. |
| `SteamReplies.NothingElseIsForwarded` | driver/src/steam_controller.cpp:345-358 | A load of the defaults is one event without triples; no other command is forwarded, nor a write of none or more than twenty-seven triples. |
| `SteamReplies.RingHoldsTheNewest` | driver/src/steam_haptic_queue.h:66-77 | In every run the settings ring holds the newest events in order, and all others were polled or counted as lost, oldest first. |
| `SteamSettings.FreshIdentity` | include/libvirtualgamepad/sc26_usb.h:722-750 | The default identity strings are printable, non-empty and terminated. |
| `SteamSettings.UpdateKeepsIdentity` | include/libvirtualgamepad/sc26_usb.h:803-838 | Whatever a host forwards, the strings stay printable, non-empty and terminated, and product id and interval never change. |
| `SteamSettings.SerialReadsBack` | include/libvirtualgamepad/sc26_usb.h:939-954 | A forwarded printable serial reads back as its first fifteen characters behind its tag. |
| `SteamSettings.SettingsRing.constructor` | driver/src/steam_haptic_queue.h:66-69 | A new settings ring is empty. |
| `SteamSettings.SettingsRing.Enqueue` | driver/src/steam_haptic_queue.h:66-77 | A full ring drops its oldest event and counts it; the event is appended. |
| `SteamSettings.SettingsRing.Poll` | driver/src/driver.cpp:1527-1530 | A poll removes the oldest event. |
| `SteamChannel.FeatureChannel.constructor` | include/libvirtualgamepad/sc26_usb.h:722-750 | A new channel holds the defaults. |
| `SteamChannel.FeatureChannel.SetFeature` | include/libvirtualgamepad/sc26_usb.h:856-1007 | Every command leaves the table, the mirror flags, the reply and the unknown-command record the specification gives, and malformed transfers are refused unchanged. |
| `SteamChannel.FeatureChannel.WriteSettings` | include/libvirtualgamepad/sc26_usb.h:882-892 | The loop applies every whole triple in order, with the last one of an id winning. |
| `SteamChannel.FeatureChannel.LoadDefaults` | include/libvirtualgamepad/sc26_usb.h:877-881 | The table is filled with the defaults. |
| `SteamChannel.FeatureChannel.GetFeature` | include/libvirtualgamepad/sc26_usb.h:1012-1022 | The reply to the last command, or none for a short buffer. |
| `SteamChannel.FeatureChannel.ApplyAttributes` | include/libvirtualgamepad/sc26_usb.h:803-838 | Only flagged fields change, only printable strings are stored, and the mask returned names exactly the fields adopted. |
| `SteamSettings.NoFlagNoChange` | include/libvirtualgamepad/sc26_usb.h:803-838 | An update that reports no flag changed nothing, and the serial flag is reported exactly when one of the two serials was printable. |
| `SteamFeatures.Stored` | include/libvirtualgamepad/sc26_usb.h:792-795 | A stored string is always terminated. |
| `KeyboardMouseRuns.NoStuckInput` | driver/src/keyboard_mouse.cpp:159-197 | Every session that drains has handed out neutral keyboard, mouse and consumer reports after everything else, and VHF has finished with all of them. |
| `KeyboardMouseRuns.AcceptedInOrder` | driver/src/keyboard_mouse.cpp:91-190 | While the endpoint is active, handed-out plus queued reports are exactly the accepted submissions in order. |
| `KeyboardMouseRuns.SubmitAppends` | driver/src/keyboard_mouse.cpp:91-158 | An accepted submission appends one report and changes only what it describes; any other answer changes nothing. |
| `KeyboardMouseRuns.KeyboardReportsDifferInOneKey` | driver/src/keyboard_mouse.cpp:91-103 | In every session an accepted key request gives a report that differs from the previous keyboard report in that key alone. |
| `KeyboardMouseRequests.AcceptedExactly` | driver/src/keyboard_mouse.cpp:91-158 | In an open session a request is accepted exactly when it is its owner's, well formed, asks for something the newest accepted report does not show, and fewer than 64 accepted reports wait. |
| `KeyboardMouseRequests.RefusalsAreRanked` | driver/src/keyboard_mouse.cpp:91-158 | Every other answer, by the first reason that applies, in every session. |
| `KeyboardMouseRequests.MotionIsReported` | driver/src/keyboard_mouse.cpp:134-158 | An accepted motion is reported as asked for, each axis in its own bytes with its sign, buttons kept; an absolute position at half its resolution. |
| `KeyboardMouseRequests.OneButtonChanges` | driver/src/keyboard_mouse.cpp:104-115 | An accepted button request changes that button, no other, and moves nothing. |
| `KeyboardMouseRequests.OneConsumerKeyChanges` | driver/src/keyboard_mouse.cpp:116-133 | An accepted consumer request changes the bit of its key in the order of the seven keys, and no other. |
| `KeyboardMouseRequests.OnlyTheOwner` | driver/src/keyboard_mouse.cpp:48-52 | No request of anybody else, and none after a close or a fault, is accepted or changes anything. |
| `KeyboardMouseRequests.OnlyTheOwnerCloses` | driver/src/keyboard_mouse.cpp:159-172 | A close is accepted exactly from the owner of an active session, and nobody opens another session beside it. |
| `KeyboardMouseRequests.FailureEnds` | driver/src/keyboard_mouse.cpp:191-197 | A failure faults the session, drops what waits and the credit, and keeps the retained report. |
| `KeyboardMouseRequests.CreditIsUsed` | driver/src/keyboard_mouse.cpp:183-190 | A report is handed out exactly when a credit is unused and a report waits: the oldest one, which is then retained. |
| `KeyboardMouseRequests.CloseDrains` | driver/src/keyboard_mouse.cpp:159-190 | Every close can drain: three hand-overs at their readiness and one last readiness, and the three neutral reports are the last thing VHF got. |
| `KeyboardMouseRuns.RetainedUntilReady` | driver/src/keyboard_mouse.cpp:183-197 | Without an unused credit nothing is handed out and the retained report is unchanged until the next readiness, through close and failure. |
| `KeyboardMouseRuns.CloseKeepsRetained` | driver/src/keyboard_mouse.cpp:159-190 | A close keeps the retained report until the next readiness, whatever comes between, if and only if it finds no unused credit. |
| `KeyboardMouseRuns.CloseOverwrites` | driver/src/keyboard_mouse.cpp:159-190 | A session closed right after its first readiness loses its retained report to a neutral one. |
| `KeyboardMouseRuns.FaultIsFinal` | driver/src/keyboard_mouse.cpp:191-197 | After an uncertain failure nothing changes until the device is deleted. |
| `KeyboardMouseRuns.SessionGood` | driver/src/keyboard_mouse.cpp:48-197 | Every session keeps the endpoint's state, queue and hand-outs consistent. |
| `KeyboardMouse.OneBitChanges` | driver/src/keyboard_mouse.cpp:95-100 | Setting or clearing one bit changes no other. |
| `KeyboardMouse.KeyboardMouseEndpoint.constructor` | driver/src/keyboard_mouse.cpp:198-208 | A new endpoint is closed and empty. |
| `KeyboardMouse.KeyboardMouseEndpoint.Open` | driver/src/keyboard_mouse.cpp:53-61 | Only a closed endpoint opens, for a non-zero owner, with everything released. |
| `KeyboardMouse.KeyboardMouseEndpoint.Admission` | driver/src/keyboard_mouse.cpp:48-52 | Only the owner of an active endpoint is admitted. |
| `KeyboardMouse.KeyboardMouseEndpoint.Enqueue` | driver/src/keyboard_mouse.cpp:62-65 | The ring with its modular head refines appending to a sequence. |
| `KeyboardMouse.KeyboardMouseEndpoint.SubmitKeyboard` | driver/src/keyboard_mouse.cpp:91-103 | The answer and the new state for every keyboard request. |
| `KeyboardMouse.KeyboardMouseEndpoint.SubmitButton` | driver/src/keyboard_mouse.cpp:104-115 | The answer and the new state for every button request. |
| `KeyboardMouse.KeyboardMouseEndpoint.SubmitConsumer` | driver/src/keyboard_mouse.cpp:116-133 | The answer and the new state for every consumer request. |
| `KeyboardMouse.KeyboardMouseEndpoint.SubmitRelative` | driver/src/keyboard_mouse.cpp:134-142 | The answer and the new state for every relative motion. |
| `KeyboardMouse.KeyboardMouseEndpoint.SubmitAbsolute` | driver/src/keyboard_mouse.cpp:143-158 | The answer and the new state for every absolute motion. |
| `KeyboardMouse.KeyboardMouseEndpoint.Close` | driver/src/keyboard_mouse.cpp:159-172 | A close replaces the queue with the three neutral reports and releases everything. |
| `KeyboardMouse.KeyboardMouseEndpoint.ReadyForReport` | driver/src/keyboard_mouse.cpp:173-182 | Readiness grants a credit, or drains a closing endpoint whose queue is empty. |
| `KeyboardMouse.KeyboardMouseEndpoint.TakeReport` | driver/src/keyboard_mouse.cpp:183-190 | With a credit the oldest report is retained and handed out. |
| `KeyboardMouse.KeyboardMouseEndpoint.SubmissionFailed` | driver/src/keyboard_mouse.cpp:191-197 | A failure faults the endpoint and keeps the retained report. |
| `KeyboardMouse.KeyboardMouseEndpoint.ResetAfterDeviceDeleted` | driver/src/keyboard_mouse.cpp:198-208 | Reset closes the endpoint and clears everything. |
| `PidEffects.StopsOnTime` | driver/src/pid_ff.cpp:843-879 | A started finite effect stops after exactly ceil((delay+duration)/dt) + (plays-1)*ceil(duration/dt) ticks, if and only if it plays once or delay+dt fits 32 bits. |
| `PidEffects.DriverTicksAreExact` | driver/src/driver.cpp:2120-2124 | With the 10 ms the driver's timer always passes, every started finite effect stops after exactly its expected number of ticks. |
| `PidEffects.PlaysExactly` | driver/src/pid_ff.cpp:843-879 | A finite effect left alone, at any point of its play, plays for exactly the ticks its remaining time and plays give. |
| `PidEffects.WrapOverruns` | driver/src/pid_ff.cpp:853-871 | When a loop restart carries the clock past 32 bits the effect still plays after its expected last tick. |
| `PidEffects.EnvelopeStaysBetween` | driver/src/pid_ff.cpp:570-601 | Inside a play the envelope's 32-bit conversions are exact and its result lies between the least and greatest of attack level, magnitude and fade level, clamped. |
| `PidEffects.EnvelopeNeverLifts` | driver/src/pid_ff.cpp:570-601 | Whatever the clock reads, the envelope never exceeds both magnitude and attack level. |
| `PidEffects.LevelIsSafe` | driver/src/pid_ff.cpp:898-946 | For every contributing effect inside its play all rumble arithmetic stays in 32 bits, and gains only lower the enveloped level. |
| `PidEffects.MagnitudeInRange` | driver/src/pid_ff.cpp:903-934 | The base magnitude fits 16 bits and a ramp stays between its ends. |
| `PidEffects.GainLowers` | driver/src/pid_ff.cpp:937-938 | A gain never raises a level and its product fits 32 bits. |
| `PidEffects.ApplyEnvelope` | driver/src/pid_ff.cpp:570-601 | The enveloped level is between zero and the nominal maximum. |
| `PidEffects.ToRumble` | driver/src/pid_ff.cpp:563-566 | The scaled level fits 16 bits and its product 32. |
| `PidEngines.FirstFree` | driver/src/pid_ff.cpp:658-661 | The search returns the lowest block not in use. |
| `PidEngines.PidEngine.constructor` | driver/src/pid_ff.cpp:633-642 | A new engine is in its power-on state. |
| `PidEngines.PidEngine.Reset` | driver/src/pid_ff.cpp:633-642 | Reset frees every block and restores gain, actuators and pause. |
| `PidEngines.PidEngine.StopEveryEffect` | driver/src/pid_ff.cpp:644-649 | Every effect stops and rewinds; nothing else changes. |
| `PidEngines.PidEngine.CreateNewEffect` | driver/src/pid_ff.cpp:651-673 | An unknown type, a full pool or the lowest free block, with the load status for each. |
| `PidEngines.PidEngine.BlockLoad` | driver/src/pid_ff.cpp:675-689 | The bytes available are what the allocated blocks leave. |
| `PidEngines.PidEngine.SetParameters` | driver/src/pid_ff.cpp:717-778 | Each parameter report changes its own fields of an allocated block and is refused otherwise. |
| `PidEngines.PidEngine.EffectOperation` | driver/src/pid_ff.cpp:780-802 | Start, start solo and stop, with the loop count, on an allocated block. |
| `PidEngines.PidEngine.BlockFree` | driver/src/pid_ff.cpp:804-811 | Freeing clears an allocated block. |
| `PidEngines.PidEngine.DeviceControl` | driver/src/pid_ff.cpp:813-836 | The six device controls; anything else is refused. |
| `PidEngines.PidEngine.AdvanceClock` | driver/src/pid_ff.cpp:843-879 | The loop over the effects advances each of them by one tick. |
| `PidEngines.PidEngine.NeedsTick` | driver/src/pid_ff.cpp:881-888 | True exactly when an allocated effect plays. |
| `PidEngines.PidEngine.CurrentRumble` | driver/src/pid_ff.cpp:890-949 | Each motor gets the scaled level of its strongest contributing effect, none while paused or disabled. |
| `PidRuns.PoolConserved` | driver/src/pid_ff.cpp:675-689 | In every run the bytes available plus 64 for each block the host holds make 1024. |
| `PidRuns.CreateIsExclusive` | driver/src/pid_ff.cpp:651-673 | Create succeeds exactly when the type is known and a block is free, hands out a block nobody holds and touches no other; every command but freeing it or a device reset keeps it in use, and no create hands out a block in use. |
| `PidRuns.ClockRunsDown` | driver/src/pid_ff.cpp:881-888 | With finite effects only, an engine left alone needs the clock for exactly as many ticks as its longest effect. |
| `PidRuns.OnlySetEffectOverruns` | driver/src/pid_ff.cpp:717-730 | Every command but set_effect keeps effects inside their play; set_effect does so if and only if it does not shorten a playing effect to at most its elapsed time; a tick repairs it. |
| `PidRuns.RunOnlyUsedPlay` | driver/src/pid_ff.cpp:780-811 | In every run only allocated blocks play. |
| `PidRuns.RumbleSafeAfterTick` | driver/src/pid_ff.cpp:890-949 | Right after any unpaused tick of any run the rumble arithmetic of every contributing effect is exact and bounded. |
| `PidRuns.ShorteningOverruns` | driver/src/pid_ff.cpp:717-730 | A concrete accepted set_effect takes a playing effect's clock out of its play. |
| `PidRuns.ARunOverruns` | driver/src/pid_ff.cpp:717-730 | Six commands from power-on reach that playing effect, and the seventh, a set_effect, makes it overrun. |
| `PidRuns.OverrunIsSilent` | driver/src/pid_ff.cpp:587-600 | That effect falls to level 0 although its magnitude and fade level are at least 5000. |
| `PidRuns.StrongestIsMaximum` | driver/src/pid_ff.cpp:941-948 | Each motor's level is the maximum over the contributing effects, zero without one. |
| `PidControl.StopHolds` | driver/src/pid_ff.cpp:795-798 | In every run, from an accepted stop of a block until a start names it again, it neither plays nor contributes, whatever else the host sends. |
| `PidControl.StopRewinds` | driver/src/pid_ff.cpp:795-798 | A stop is accepted exactly for a created block, rewinds it and otherwise keeps it. |
| `PidControl.StopAllSilences` | driver/src/pid_ff.cpp:821-827 | After stop-all or a reset nothing needs the clock and both motors rest. |
| `PidControl.StartPlays` | driver/src/pid_ff.cpp:786-794 | A start plays its block from the beginning with its loops and leaves the others alone; after a solo start it is the only block playing. |
| `PidControl.AcceptedExactly` | driver/src/pid_ff.cpp:780-841 | Exactly the three operations and frees on created blocks, the six controls and any gain are accepted; what is refused changes nothing but the load status. |
| `PidControl.ResetRestores` | driver/src/pid_ff.cpp:633-642 | A reset device is as it was switched on: no block in use, full gain, actuators on, nothing paused. |
| `PidControl.GainIsSet` | driver/src/pid_ff.cpp:838-841 | The device gain is the one set last, and nothing else changes. |
| `PidControl.PauseIsTransparent` | driver/src/pid_ff.cpp:828-833 | A pause silences the motors and stops time: however long it lasts, the device goes on as if it had not happened. |
| `PidControl.SwitchedOffKeepsTime` | driver/src/pid_ff.cpp:815-820 | Switching the actuators off silences the motors but not the clock. |
| `PidControl.MotorOfType` | driver/src/pid_ff.cpp:903-934 | By the type numbers of the reports: constant force and ramp drive the strong motor, the five waveforms the weak one, the rest none. |
| `PidControl.ShapingIsLocal` | driver/src/pid_ff.cpp:717-778 | A parameter report is accepted exactly for a created block, never moves its clock, and touches no other block and nothing of the device. |
| `PidControl.ForcesAreFelt` | driver/src/pid_ff.cpp:903-934 | A constant force is felt by its size in either direction, a waveform by its amplitude. |
| `PidControl.RampRuns` | driver/src/pid_ff.cpp:907-917 | A ramp runs from its start to its end over the duration, holds there, and is felt by its size. |
| `PidControl.EnvelopeRuns` | driver/src/pid_ff.cpp:570-601 | An envelope starts a play at its attack level, ends it at its fade level when that is lower, and leaves the force alone in between. |
| `PidControl.DelayIsKept` | driver/src/pid_ff.cpp:897-901 | An effect contributes exactly from the end of its delay on. |
| `PidControl.GainsScale` | driver/src/pid_ff.cpp:936-939 | With both gains full an effect is felt as enveloped, with either at zero not at all. |
| `PidControl.RumbleRange` | driver/src/pid_ff.cpp:563-566 | The motor value runs from 0 to 65535 and never falls as the level rises. |
| `PidShapes.AttackIsStraight` | driver/src/pid_ff.cpp:576-580 | The attack is a straight line from the attack level to the force, to within one unit. |
| `PidShapes.FadeIsStraight` | driver/src/pid_ff.cpp:582-597 | The fade is a straight line from the force to the fade level, to within one unit. |
| `PidShapes.RampIsStraight` | driver/src/pid_ff.cpp:907-917 | A ramp is a straight line over the duration, to within one unit. |
| `PidShapes.GainsMultiply` | driver/src/pid_ff.cpp:936-939 | An effect's level is its enveloped force times both gains over 255 each, to within two units. |
| `PidShapes.RumbleIsProportional` | driver/src/pid_ff.cpp:563-566 | The motor value is the level in proportion, to within one unit. |
| `PidShapes.AloneOnItsMotor` | driver/src/pid_ff.cpp:941-948 | An effect playing alone drives its own motor at its level and leaves the other at rest. |
| `PidShapes.GainZeroSilences` | driver/src/pid_ff.cpp:936-939 | A device gain of zero silences both motors and changes no effect. |
| `PidShapes.ConstantIsFelt` | driver/src/pid_ff.cpp:651-949 | From creation to the motor: a constant force created, set and started beside nothing else runs the strong motor at its size at once, and the weak one not at all. |
| `PidShapes.LoadStatusIsTrue` | driver/src/pid_ff.cpp:651-673 | The load status is success, full or error exactly when the creation succeeded, met a full pool or an unknown type. |
| `PidShapes.EndlessPlays` | driver/src/pid_ff.cpp:853-862 | An effect without a duration, or with the endless loop count, plays until a command stops it. |
| `PidShapes.LoopsSkipTheDelay` | driver/src/pid_ff.cpp:860-871 | A loop begins right behind the delay, which is never waited for again. |
| `UsbTransferRuns.TransferIsContiguous` | linux/vibeshine-ds5/vibeshine_ds5_udc.c:1389-1521 | In either direction, whatever the completion handlers queue: a call moves at most the limit and reports exactly the URB's growth; the requests it served, each from what was queued to what was given back or still stands at the head, share the URB's bytes in order without a gap, each behind what it held before; every other byte and request is untouched; and only the last giveback of a call out of bandwidth takes a request behind the head. |
| `UsbTransferRuns.EachRequestGetsItsStretch` | linux/vibeshine-ds5/vibeshine_ds5_udc.c:1389-1521 | Read from the front: the k-th request served holds exactly the URB's bytes behind those of the k requests before it, and all lengths together are the count reported. |
| `UsbTransferRuns.CopyIsFaithful` | linux/vibeshine-ds5/vibeshine_ds5_udc.c:1336-1343 | A copy makes both buffers agree on the bytes moved and changes no other byte. |
| `UsbTransferRuns.FallsThroughWhenDry` | linux/vibeshine-ds5/vibeshine_ds5_udc.c:1424-1441 | The loop leaves its head queued and looks at the next request if and only if the bandwidth ends on a packet boundary inside both buffers. |
| `UsbTransferRuns.SecondRequest` | linux/vibeshine-ds5/vibeshine_ds5_udc.c:1417-1423 | Without bandwidth the second request completes, and ends the URB, exactly when it expects no more data. |
| `UsbTransferRuns.DryCall` | linux/vibeshine-ds5/vibeshine_ds5_udc.c:1389-1521 | A whole call whose bandwidth runs dry on its head: what it moves, completes and reports. |
| `UsbPackets.HeadFinishes` | linux/vibeshine-ds5/vibeshine_ds5_udc.c:1417-1498 | With bandwidth for all of its head, from any state of the loop: from the two lengths, the direction and the two zero-packet flags alone, whether the head is given back, whether the URB is over, with which statuses, and how the loop goes on. |
| `UsbPackets.OneRequestCall` | linux/vibeshine-ds5/vibeshine_ds5_udc.c:1389-1521 | The same for a whole call: the URB is over, the request given back, and either of them ended in overflow, each if and only if the lengths and flags say so. |
| `UsbPackets.ShortReplyEnds` | linux/vibeshine-ds5/vibeshine_ds5_udc.c:1485-1491 | A reply shorter than the host has room for ends the host's read if and only if it is empty, does not fill its last packet or asks for a zero-length one; it is given back whole in every case. |
| `UsbPackets.ShortWriteEnds` | linux/vibeshine-ds5/vibeshine_ds5_udc.c:1492-1498 | A write shorter than the gadget has room for is always over for the host; the gadget gets its request back if and only if the write is empty, does not fill its last packet or promises a zero-length one. |
| `UsbPackets.LowBandwidth` | linux/vibeshine-ds5/vibeshine_ds5_udc.c:1424-1441 | Without bandwidth for all of it a call moves the whole packets the bandwidth holds and leaves everything in progress. |
| `UsbTransfer.TurnProgress` | linux/vibeshine-ds5/vibeshine_ds5_udc.c:1516-1519 | A pass that does not end the call uses up bandwidth, so the loop terminates even when completions requeue requests. |
| `UsbTransfer.Transfer` | linux/vibeshine-ds5/vibeshine_ds5_udc.c:1389-1521 | The loop, with its jumps, computes the specified run and terminates. |
| `UsbTransfer.Pass` | linux/vibeshine-ds5/vibeshine_ds5_udc.c:1398-1519 | One pass of the loop body, with the requests a completion handler queued meanwhile. |
| `UsbTransfer.ChooseBurst` | linux/vibeshine-ds5/vibeshine_ds5_udc.c:1424-1441 | Whole packets first, then the remainder, or nothing without enough bandwidth. |
| `UsbTransfer.Settle` | linux/vibeshine-ds5/vibeshine_ds5_udc.c:1462-1498 | The statuses and the rescan of short and full transfers. |
| `UsbTransfer.MoveData` | linux/vibeshine-ds5/vibeshine_ds5_udc.c:1442-1453 | A copy advances both sides and the counters by its length. |
| `UsbTransfer.PerformTransfer` | linux/vibeshine-ds5/vibeshine_ds5_udc.c:1333-1343 | The copy goes from the request to the URB or back, by direction. |
| `IsoPacing.PacketsAreSpaced` | linux/vibeshine-ds5/vibeshine_ds5_udc.c:1949-1953 | On a monotonic clock any n consecutive served packets span at least n-9 intervals, across any resynchronisation. |
| `IsoPacing.SpacingIsExact` | linux/vibeshine-ds5/vibeshine_ds5_udc.c:1951-1953 | For every interval and every n from nine on some run attains the bound. |
| `IsoPacing.DuePacketIsServed` | linux/vibeshine-ds5/vibeshine_ds5_udc.c:1949-1953 | On a monotonic clock the first poll serves a packet, and so does every poll at least one interval after the last packet. |
| `IsoPacing.GapStartsOver` | linux/vibeshine-ds5/vibeshine_ds5_udc.c:1951-1953 | After a gap of more than nine intervals the next packet goes out at once and the one behind it at the first poll a full interval later, no sooner. |
| `IsoPacing.IntervalIsFrames` | linux/vibeshine-ds5/vibeshine_ds5_udc.c:1940-1941 | An interval is that many frames, at least one, of 125 us from high speed on and of 1 ms below. |
| `IsoPacing.PacketIsFaithful` | linux/vibeshine-ds5/vibeshine_ds5_udc.c:1954-1972 | A packet moves exactly the bytes it reports, in place, and succeeds exactly when the request could fill the descriptor; no other descriptor changes. |
| `IsoUrbs.DescriptorsServedInOrder` | linux/vibeshine-ds5/vibeshine_ds5_udc.c:1954-1982 | Over a whole URB every descriptor is served once, in order, by its own packet with the head its poll found, none is touched before or after its turn, and the URB completes exactly with its last one. |
| `IsoUrbs.EachPacketHoldsItsBytes` | linux/vibeshine-ds5/vibeshine_ds5_udc.c:1954-1972 | Over a whole URB, whatever was served later, each descriptor's stretch agrees with what its own head gained: the URB holds the head's bytes, as long as its descriptors are disjoint, or the head as given back holds the URB's; the head is otherwise unchanged. |
| `IsoUrbs.OtherBytesStay` | linux/vibeshine-ds5/vibeshine_ds5_udc.c:1954-1972 | A byte of the URB that no served descriptor names is as it was, and so is every byte of a URB the host sends. |
| `IsoUrbs.CountersAddUp` | linux/vibeshine-ds5/vibeshine_ds5_udc.c:1963-1980 | The URB's length grows by the sum of what its served descriptors report and its error count by the number of those that did not succeed. |
| `IsoPacing.MovePacket` | linux/vibeshine-ds5/vibeshine_ds5_udc.c:1954-1969 | The copy of one packet and its descriptor's length and status are the specified ones, in both directions. |
| `IsoPacing.IntervalNs` | linux/vibeshine-ds5/vibeshine_ds5_udc.c:1940-1941 | The interval is at least one 125-microsecond frame and fits 64 bits. |
| `IsoPacing.IsoEndpoint.Serve` | linux/vibeshine-ds5/vibeshine_ds5_udc.c:1937-1983 | A poll serves at most one packet, takes at most the head request off the queue, and reports the URB complete exactly on its last descriptor. |

## Left out

- KeepAliveSafety.NoLostWakeUp: speaks of a device with power that is not stopping, because without power the statement is false (`KeepAliveGap.ParkedBesideAReader`) until power-down has retired the slots.
- PidEffects.EnvelopeStaysBetween: speaks of clocks inside the play; the converse is not claimed, since an overrun clock may happen to stay within the bounds.
- PidEffects.LevelIsSafe: needs a clock inside the play; `PidRuns.OnlySetEffectOverruns` says exactly which commands keep it there.
- SlotClose.CloseDisowns: speaks of a close whose owner's creates do not reserve a slot any more, as the framework closes a file only after its requests have completed; a create that reserved a slot later would own it.
- IsoUrbs.EachPacketHoldsItsBytes: asks for disjoint descriptors when the URB goes to the host, because where two overlap a later packet overwrites an earlier one's bytes.
- The slot lifecycle and the keep-alive protocol are relations on state values, not classes: aliasing of the device context is not captured, the interleaving of its critical sections is. The tick, the arming and the hand-over themselves are methods of `KeepAlive.KeepAliveDevice`.
- `SlotLifecycle` lets any number of IOCTL threads and callbacks run at once, lets D0 entry and prepare hardware come at any time of the one power thread, folds the retried opening of the VHF target into a creation that fails, and leaves out the joins of the keep-alive worker and the force-feedback timer during power-down: every run of the driver is among its runs.
- Slot generations and VHF handles are unbounded numbers in the lifecycle; the 32-bit wrap-around of a generation is not modelled.
- `KeepAlive` reads the clock once per critical section and its clock does not wrap; reports of other profiles and the acknowledgement of stop pulses are opaque items.
- What follows a report's length in its buffer: `ReportPumps.Report` holds only the bytes stored.
- UsbPackets.OneRequestCall: speaks of a call with nothing queued behind its request; `UsbPackets.HeadFinishes` says how the loop goes on when there is.
- The force-feedback engine's constant pool report and its state report.
- Feedback other than haptics and settings, which is a single pending event.
- Stream endpoints, scatter-gather buffers and a zero packet size in `transfer`; null buffers in the isochronous case, where the lengths are reported without a copy.
- `dummy_timer` apart from its isochronous case, the hub, descriptors and setup requests of the loopback controller.
- The native keyboard and mouse transport; keyboard_mouse_native.inc is not part of this model.
- Input, touch, motion and battery encoders and the output decoders of every profile, report descriptors, the client library, installers and probes: closed or small domains.
- WDF, PnP, Configuration Manager and VHF: VhfDelete returns only after every callback on its handle, VHF enters callbacks only on a started, undeleted handle, and the framework runs one power or plug-and-play callback at a time.
- Fairness, thread priorities and the resolution of real clocks.
