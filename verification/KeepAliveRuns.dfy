/** The keep-alive protocol: the worker thread, the timer, the lifetime gate's
    holder starting and stopping the worker, and everything that reaches a pump.
    One step is one critical section under the state lock or one call on the
    timer, the stop event or the thread. */
module KeepAliveRuns {
  import opened Ring
  import opened ReportPumps
  import opened KeepAlive

  datatype Worker = NoWorker | Waiting | Woken | Submitting | Leaving | Left

  /** What the lifetime gate's holder is doing to the worker. */
  datatype Holder =
    | Free
    | Held
    // start_sc26_keepalive
    | Join | Publish | SetTimer | Spawn | Abandon
    // stop_sc26_keepalive, after power-down or stop cleared the running flag
    | Halt | HaltJoin

  datatype State = State(dev: Device, holder: Holder, worker: Worker, stopEvent: bool, clock: nat)

  predicate Init(s: State) {
    && s.holder == Free && s.worker == NoWorker && !s.stopEvent
    && !s.dev.powered && !s.dev.running && !s.dev.parked && s.dev.timer == Off
    && forall i :: 0 <= i < SLOTS ==> s.dev.slots[i] == Blank(Vacant, Other)
  }

  function WithSlot(s: State, i: nat, slot: Slot): State
    requires i < SLOTS
  {
    s.(dev := KeepAlive.With(s.dev, i, slot))
  }

  // ----- Reports ----------------------------------------------------------

  /** pump_report and pump_report_locked: any IOCTL or callback with a report, or with none. */
  predicate Feed(s: State, s': State, i: nat, report: Option<(Item, Kind)>) {
    i < SLOTS && s' == s.(dev := PumpReport(s.dev, i, report, s.clock).0)
  }

  predicate Readiness(s: State, s': State, i: nat) {
    i < SLOTS && s' == s.(dev := Ready(s.dev, i, s.clock).0)
  }

  /** An input state for a Steam Controller starts the worker when none runs. */
  predicate SteamInput(s: State, s': State, i: nat, kind: Kind) {
    && i < SLOTS && s.holder == Held && !s.dev.stopping
    && s.dev.slots[i].phase == Active && s.dev.slots[i].published && s.dev.slots[i].profile == Steam
    && var start := s.dev.hasTimer && !s.dev.running;
       var d := KeepAlive.With(s.dev, i, s.dev.slots[i].(haveInput := true)).(running := s.dev.running || start);
       s' == s.(dev := PumpReport(d, i, Some((StateReport(0), kind)), s.clock).0, holder := if start then Join else Held)
  }

  /** A reply of the Switch profile is queued in one critical section and pumped in another. */
  predicate SwitchReply(s: State, s': State, i: nat, item: Item) {
    && i < SLOTS && Accepts(s.dev, i) && s.dev.slots[i].profile == SwitchPro
    && s' == WithSlot(s, i, Offer(s.dev.slots[i], Some((item, Priority))))
  }

  /** A battery state of a Steam Controller restarts the period, or clears it when
      nobody reads; its report, when there is one, is fed in the next critical section. */
  predicate BatteryState(s: State, s': State, i: nat) {
    && i < SLOTS && s.holder == Held
    && s.dev.slots[i].phase == Active && s.dev.slots[i].published && s.dev.slots[i].profile == Steam
    && s' == WithSlot(s, i, s.dev.slots[i].(lastBattery := if s.dev.slots[i].pump.ready then s.clock else 0))
  }

  // ----- The timer and the worker -----------------------------------------

  /** Cancelling disarms a timer that is set; one that has gone off stays signalled. */
  function Cancelled(timer: Timer): Timer { if timer == Signalled then Signalled else Off }

  predicate Advance(s: State, s': State, elapsed: nat) { s' == s.(clock := s.clock + elapsed) }

  predicate Fire(s: State, s': State) {
    s.dev.timer.Armed? && s.clock >= s.dev.timer.due && s' == s.(dev := s.dev.(timer := Signalled))
  }

  /** The stop event comes first when both are signalled. */
  predicate Wake(s: State, s': State) {
    s.worker == Waiting && s.dev.timer == Signalled && !s.stopEvent && s' == s.(worker := Woken, dev := s.dev.(timer := Off))
  }

  predicate WakeToLeave(s: State, s': State, failed: bool) {
    s.worker == Waiting && (failed || s.stopEvent) && s' == s.(worker := Leaving)
  }

  predicate TickStep(s: State, s': State) {
    && s.worker == Woken
    && s' == s.(dev := Tick(s.dev, s.clock), worker := if AnyActive(s.dev) then Submitting else Leaving)
  }

  predicate TickSubmitted(s: State, s': State) { s.worker == Submitting && s' == s.(worker := Waiting) }

  predicate Cancel(s: State, s': State) {
    s.worker == Leaving && s' == s.(worker := Left, dev := s.dev.(timer := Cancelled(s.dev.timer)))
  }

  predicate LastStore(s: State, s': State) {
    s.worker == Left && s' == s.(worker := NoWorker, dev := s.dev.(running := false))
  }

  // ----- The gate, start and stop -----------------------------------------

  predicate Lock(s: State, s': State) { s.holder == Free && s' == s.(holder := Held) }

  predicate Unlock(s: State, s': State) { s.holder == Held && s' == s.(holder := Free) }

  predicate Joined(s: State, s': State) { s.holder == Join && s.worker == NoWorker && s' == s.(holder := Publish) }

  predicate Published(s: State, s': State) {
    s.holder == Publish && s' == s.(holder := SetTimer, dev := s.dev.(running := true, parked := false))
  }

  predicate FirstDue(s: State, s': State, ok: bool) {
    && s.holder == SetTimer
    && s' == if ok then s.(holder := Spawn, stopEvent := false, dev := s.dev.(timer := Armed(s.clock + TICK_US)))
             else s.(holder := Abandon, stopEvent := false)
  }

  predicate Spawned(s: State, s': State, ok: bool) {
    && s.holder == Spawn
    && s' == if ok then s.(holder := Held, worker := Waiting) else s.(holder := Abandon, dev := s.dev.(timer := Cancelled(s.dev.timer)))
  }

  predicate Abandoned(s: State, s': State) {
    s.holder == Abandon && s' == s.(holder := Held, dev := s.dev.(running := false))
  }

  function Retired(s: Slot, all: bool): (r: Slot) {
    if s.phase == Active || (all && s.phase == Starting) then s.(phase := Stopping) else s
  }

  function RetireAll(slots: Slots, all: bool): (r: Slots)
    ensures forall i :: 0 <= i < SLOTS ==> r[i] == Retired(slots[i], all)
  {
    seq(SLOTS, i requires 0 <= i < SLOTS => Retired(slots[i], all))
  }

  /** Power goes, or the device stops; nobody holds the gate for it yet. */
  predicate LosePower(s: State, s': State, stop: bool) {
    s' == s.(dev := s.dev.(powered := false, stopping := s.dev.stopping || stop))
  }

  predicate MarkAll(s: State, s': State, stop: bool) {
    && s.holder == Held && (if stop then s.dev.stopping else !s.dev.powered)
    && s' == s.(holder := Halt, dev := s.dev.(running := false, slots := RetireAll(s.dev.slots, stop)))
  }

  predicate SignalStop(s: State, s': State) { s.holder == Halt && s' == s.(holder := HaltJoin, stopEvent := true) }

  predicate Halted(s: State, s': State) {
    s.holder == HaltJoin && s.worker == NoWorker && s' == s.(holder := Held, dev := s.dev.(timer := Cancelled(s.dev.timer)))
  }

  /** D0 entry and prepare hardware; without power no slot is starting or active
      (`SlotSafety.StillUntilPowered`). */
  predicate GainPower(s: State, s': State, power: bool) {
    && s.holder == Held
    && ((s.dev.powered && !s.dev.stopping)
        || forall i :: 0 <= i < SLOTS ==> s.dev.slots[i].phase != Starting && s.dev.slots[i].phase != Active)
    && s' == s.(dev := if power then s.dev.(powered := true) else s.dev.(stopping := false))
  }

  // ----- A slot's life, under the gate ------------------------------------

  predicate Reserve(s: State, s': State, i: nat, profile: Profile) {
    && i < SLOTS && s.holder == Held && s.dev.powered && !s.dev.stopping && s.dev.slots[i].phase == Vacant
    && s' == WithSlot(s, i, Blank(Starting, profile))
  }

  predicate PublishHandle(s: State, s': State, i: nat) {
    && i < SLOTS && s.holder == Held && s.dev.slots[i].phase == Starting && !s.dev.slots[i].published
    && s' == WithSlot(s, i, s.dev.slots[i].(published := true))
  }

  predicate Adopt(s: State, s': State, i: nat) {
    && i < SLOTS && s.holder == Held && s.dev.powered && !s.dev.stopping
    && s.dev.slots[i].phase == Starting && s.dev.slots[i].published
    && s' == WithSlot(s, i, s.dev.slots[i].(phase := Active))
  }

  /** Destroy, a create that was not adopted, and the ends of power-down and stop. */
  predicate Retire(s: State, s': State, i: nat) {
    && i < SLOTS && s.dev.slots[i].phase != Vacant
    && s' == WithSlot(s, i, s.dev.slots[i].(phase := if s.dev.slots[i].phase == Stopping then Vacant else Stopping,
                                            published := false))
  }

  // ----- The system -------------------------------------------------------

  ghost predicate ReportStep(s: State, s': State) {
    || (exists i, report :: Feed(s, s', i, report))
    || (exists i :: Readiness(s, s', i))
    || (exists i, kind :: SteamInput(s, s', i, kind))
    || (exists i, item :: SwitchReply(s, s', i, item))
    || (exists i :: BatteryState(s, s', i))
  }

  ghost predicate WorkerStep(s: State, s': State) {
    || Wake(s, s') || WakeToLeave(s, s', true) || WakeToLeave(s, s', false) || TickStep(s, s') || TickSubmitted(s, s')
    || Cancel(s, s') || LastStore(s, s')
  }

  ghost predicate HolderStep(s: State, s': State) {
    || Lock(s, s') || Unlock(s, s') || Joined(s, s') || Published(s, s')
    || FirstDue(s, s', true) || FirstDue(s, s', false) || Spawned(s, s', true) || Spawned(s, s', false) || Abandoned(s, s')
    || MarkAll(s, s', true) || MarkAll(s, s', false) || SignalStop(s, s') || Halted(s, s')
    || GainPower(s, s', true) || GainPower(s, s', false)
  }

  ghost predicate SlotStep(s: State, s': State) {
    || (exists i, profile :: Reserve(s, s', i, profile))
    || (exists i :: PublishHandle(s, s', i)) || (exists i :: Adopt(s, s', i)) || (exists i :: Retire(s, s', i))
  }

  ghost predicate Next(s: State, s': State) {
    || ReportStep(s, s') || WorkerStep(s, s') || HolderStep(s, s') || SlotStep(s, s')
    || LosePower(s, s', true) || LosePower(s, s', false)
    || Fire(s, s') || (exists elapsed :: Advance(s, s', elapsed))
  }

  ghost predicate StepAt(run: seq<State>, k: nat) {
    k + 1 < |run| ==> Next(run[k], run[k + 1])
  }

  ghost predicate IsRun(run: seq<State>) {
    run != [] && Init(run[0]) && forall k: nat :: StepAt(run, k)
  }
}
