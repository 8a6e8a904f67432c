/** What the keep-alive protocol promises over every run: no wake-up is lost, a
    start never joins a serving worker, stopping always ends, no credit idles
    beside a queued report, and state reports leave numbered in order. */
module KeepAliveSafety {
  import opened Ring
  import opened ReportPumps
  import opened KeepAlive
  import opened KeepAliveRuns

  // ----- The invariant ----------------------------------------------------

  predicate Serving(w: Worker) { w == Waiting || w == Woken || w == Submitting }

  predicate Going(w: Worker) { w == Leaving || w == Left || w == NoWorker }

  /** The running flag, the worker and the gate's holder agree. */
  predicate ThreadsOk(s: State) {
    && (!s.dev.running ==> Going(s.worker) || s.holder == Halt || s.holder == HaltJoin)
    && (s.holder == Free || s.holder == Held ==> (s.dev.running ==> s.worker != NoWorker))
    && (s.holder == Join ==> Going(s.worker))
    && (s.holder == Publish || s.holder == SetTimer || s.holder == Spawn || s.holder == Abandon ==> s.worker == NoWorker)
    && (s.stopEvent && Serving(s.worker) ==> s.holder == HaltJoin)
    && (s.holder == Halt || s.holder == HaltJoin ==> !s.dev.running)
    && (s.holder == SetTimer || s.holder == Spawn ==> s.dev.running && !s.dev.parked)
    && (s.holder == HaltJoin ==> s.stopEvent)
    && (s.holder == Spawn ==> !s.stopEvent)
    && (s.dev.running || s.holder == Join || s.holder == Publish ==> s.dev.hasTimer)
  }

  /** The timer of a running worker is set or parked, and never set further away
      than one tick. */
  predicate TimerOk(s: State) {
    && (s.dev.running && (s.worker == Waiting || s.worker == Submitting) ==> s.dev.timer != Off || s.dev.parked)
    && (s.holder == Spawn ==> s.dev.timer != Off)
    && (s.dev.timer.Armed? ==> s.dev.timer.due <= s.clock + TICK_US)
  }

  predicate Served(d: Device, slot: Slot) {
    d.powered && !d.stopping && slot.published && (slot.phase == Starting || slot.phase == Active)
  }

  /** No credit beside a queued report, unless the profile queues in two steps, and
      a slot that is starting has seen no input. */
  predicate SlotOk(d: Device, slot: Slot) {
    && (Served(d, slot) && slot.profile != SwitchPro ==> !slot.pump.ready || slot.pump.Empty())
    && (slot.phase == Starting ==> !slot.haveInput)
    && (slot.phase == Starting && !slot.published ==> !slot.pump.ready && slot.pump.Empty())
  }

  /** The numbers on the wire count the hand-overs, and a state report VHF reads
      from carries the last of them. */
  predicate Numbered(slot: Slot) {
    && slot.wireSequence == |slot.wire| % 256
    && (forall n {:trigger slot.wire[n]} :: 0 <= n < |slot.wire| ==> slot.wire[n] == n % 256)
    && (slot.profile == Steam && slot.pump.inFlight.StateReport? ==>
          slot.wire != [] && slot.pump.inFlight.sequence == (|slot.wire| - 1) % 256)
  }

  /** While the timer is parked no controller that is served waits for a report. */
  predicate ParkedOk(s: State, slot: Slot) {
    s.dev.running && s.dev.parked && s.dev.powered && !s.dev.stopping && Serving(s.worker) && Qualifies(slot) ==> !slot.pump.ready
  }

  predicate SlotInv(s: State, i: nat)
    requires i < SLOTS
  {
    SlotOk(s.dev, s.dev.slots[i]) && Numbered(s.dev.slots[i]) && ParkedOk(s, s.dev.slots[i])
  }

  ghost predicate Inv(s: State) {
    ThreadsOk(s) && TimerOk(s) && forall i: nat :: i < SLOTS ==> SlotInv(s, i)
  }

  // ----- Steps of the device alone ----------------------------------------

  lemma {:induction false} ArmKeeps(s: State, d: Device)
    requires ThreadsOk(s) && TimerOk(s)
    requires d.running == s.dev.running && d.parked == s.dev.parked && d.timer == s.dev.timer && d.hasTimer == s.dev.hasTimer
    ensures TimerOk(s.(dev := d)) && TimerOk(s.(dev := ArmTimer(d, s.clock)))
    ensures d.running ==> !ArmTimer(d, s.clock).parked
  {
    DelayIsEarliest(d.slots, s.clock, SLOTS);
  }

  /** Handing a report over leaves no credit beside a queued report. */
  lemma {:induction false} TakeKeeps(s: Slot, now: nat)
    requires Numbered(s)
    ensures var t := TakeFrom(s, now);
            Numbered(t.0) && (!t.0.pump.ready || (t.0.pump.Empty() && s.pump.ready && s.pump.Empty()))
    ensures var t := TakeFrom(s, now);
            t.0.phase == s.phase && t.0.published == s.published && t.0.profile == s.profile && t.0.haveInput == s.haveInput
  {}

  /** One slot after a hand-over, the timer armed again or not; nothing else changes. */
  lemma {:induction false} HandedInv(s: State, s': State, i: nat, slot: Slot, rearmed: bool)
    requires Inv(s) && i < SLOTS
    requires s' == s.(dev := var d := KeepAlive.With(s.dev, i, slot); if rearmed then ArmTimer(d, s.clock) else d)
    requires SlotOk(s.dev, slot) && Numbered(slot) && (rearmed || ParkedOk(s, slot))
    ensures Inv(s')
  {
    ArmKeeps(s, KeepAlive.With(s.dev, i, slot));
    forall j: nat | j < SLOTS ensures SlotInv(s', j) { assert SlotInv(s, j); }
  }

  /** Queueing fills the pump and touches nothing else. */
  lemma {:induction false} OfferKeeps(s: Slot, report: Option<(Item, Kind)>)
    ensures Offer(s, report) == s.(pump := Offer(s, report).pump)
    ensures Offer(s, report).pump.ready == s.pump.ready && Offer(s, report).pump.inFlight == s.pump.inFlight
    ensures report.Some? ==> !Offer(s, report).pump.Empty()
    ensures report == None ==> Offer(s, report) == s
  {}

  /** Queueing and taking in one critical section: with a report there is no credit left. */
  lemma {:induction false} OfferTake(s: Slot, report: Option<(Item, Kind)>, now: nat) returns (t: (Slot, Option<Item>))
    requires Numbered(s)
    ensures t == TakeFrom(Offer(s, report), now) && Numbered(t.0)
    ensures t.0.phase == s.phase && t.0.published == s.published && t.0.profile == s.profile && t.0.haveInput == s.haveInput
    ensures t.0.pump.ready ==> t.0.pump.Empty() && s.pump.ready && report == None
  {
    OfferKeeps(s, report);
    TakeKeeps(Offer(s, report), now);
    t := TakeFrom(Offer(s, report), now);
  }

  lemma {:induction false} PumpReportInv(s: State, s': State, i: nat, report: Option<(Item, Kind)>)
    requires Inv(s) && Feed(s, s', i, report)
    ensures Inv(s')
  {
    if Accepts(s.dev, i) {
      assert SlotInv(s, i);
      var t := OfferTake(s.dev.slots[i], report, s.clock);
      HandedInv(s, s', i, t.0, Rearms(t.0, t.1));
    }
  }

  lemma {:induction false} ReadinessInv(s: State, s': State, i: nat)
    requires Inv(s) && Readiness(s, s', i)
    ensures Inv(s')
  {
    if Accepts(s.dev, i) {
      var granted := s.dev.slots[i].(pump := s.dev.slots[i].pump.SetReady());
      assert SlotInv(s, i);
      TakeKeeps(granted, s.clock);
      var t := TakeFrom(granted, s.clock);
      ReadyArms(s.dev, i, s.clock, t.0, t.1);
      HandedInv(s, s', i, t.0, Rearms(t.0, t.1) || (s.dev.parked && t.0.haveInput && t.0.profile == Steam));
    }
  }

  /** Arming twice in one critical section is arming once. */
  lemma {:induction false} ReadyArms(d: Device, i: nat, now: nat, slot: Slot, taken: Option<Item>)
    requires i < SLOTS && Accepts(d, i)
    requires (slot, taken) == TakeFrom(d.slots[i].(pump := d.slots[i].pump.SetReady()), now)
    ensures var d1 := KeepAlive.With(d, i, slot);
      Ready(d, i, now).0 == if Rearms(slot, taken) || (d.parked && slot.haveInput && slot.profile == Steam) then ArmTimer(d1, now) else d1
  {}

  lemma {:induction false} SteamInputInv(s: State, s': State, i: nat, kind: Kind)
    requires Inv(s) && SteamInput(s, s', i, kind)
    ensures Inv(s')
  {
    var start := s.dev.hasTimer && !s.dev.running;
    var slot: Slot := s.dev.slots[i].(haveInput := true);
    var d := KeepAlive.With(s.dev, i, slot).(running := s.dev.running || start);
    var s1 := s.(dev := d, holder := if start then Join else Held);
    assert ThreadsOk(s1) && TimerOk(s1) && SlotInv(s, i);
    if Accepts(d, i) {
      var t := OfferTake(slot, Some((StateReport(0), kind)), s.clock);
      InputInv(s, s1, s', i, t.0, t.1);
    } else {
      RefusedInputInv(s, s', i, slot);
    }
  }

  /** The refused half: the device has no power, and only the slot's input is noted. */
  lemma {:induction false} RefusedInputInv(s: State, s': State, i: nat, slot: Slot)
    requires Inv(s) && i < SLOTS && slot == s.dev.slots[i].(haveInput := true) && slot.phase == Active
    requires !s.dev.powered && s'.dev == KeepAlive.With(s.dev, i, slot).(running := s'.dev.running)
    requires ThreadsOk(s') && TimerOk(s')
    ensures Inv(s')
  {
    forall j: nat | j < SLOTS ensures SlotInv(s', j) { assert SlotInv(s, j); }
  }

  lemma {:induction false} SwitchReplyInv(s: State, s': State, i: nat, item: Item)
    requires Inv(s) && SwitchReply(s, s', i, item)
    ensures Inv(s')
  {
    assert SlotInv(s, i);
    OfferKeeps(s.dev.slots[i], Some((item, Priority)));
    SlotChange(s, s', i, Offer(s.dev.slots[i], Some((item, Priority))));
  }

  lemma {:induction false} BatteryStateInv(s: State, s': State, i: nat)
    requires Inv(s) && BatteryState(s, s', i)
    ensures Inv(s')
  {
    assert SlotInv(s, i);
    SlotChange(s, s', i, s'.dev.slots[i]);
  }

  /** The accepted half of an input state, with the slot after the hand-over given. */
  lemma {:induction false} InputInv(s: State, s1: State, s': State, i: nat, slot: Slot, taken: Option<Item>)
    requires Inv(s) && i < SLOTS && ThreadsOk(s1) && TimerOk(s1)
    requires s1.dev.slots[i].haveInput && s1.dev == s.dev.(slots := s.dev.slots[i := s1.dev.slots[i]], running := s1.dev.running)
    requires s1.worker == s.worker && (s.dev.running || !s1.dev.running || Going(s.worker))
    requires s' == s1.(dev := var d := KeepAlive.With(s1.dev, i, slot); if Rearms(slot, taken) then ArmTimer(d, s.clock) else d)
    requires s1.clock == s.clock && !slot.pump.ready && Numbered(slot) && slot.phase == Active
    ensures Inv(s')
  {
    ArmKeeps(s1, KeepAlive.With(s1.dev, i, slot));
    forall j: nat | j < SLOTS ensures SlotInv(s', j) { assert SlotInv(s, j); }
  }

  lemma {:induction false} TickSlotKeeps(s: Slot, accepting: bool, now: nat)
    requires Numbered(s)
    ensures var r := TickSlot(s, accepting, now).0;
            r.phase == s.phase && r.published == s.published && r.profile == s.profile && r.haveInput == s.haveInput
    ensures var r := TickSlot(s, accepting, now).0;
            Numbered(r) && (r.pump.ready ==> s.pump.ready) && (!Qualifies(s) ==> r == s)
    ensures accepting && (!s.pump.ready || s.pump.Empty()) ==>
              var r := TickSlot(s, accepting, now).0;
              !r.pump.ready || r.pump.Empty()
  {
    if Qualifies(s) && s.pump.ready {
      var offered := Offer(WithBattery(s, now), if ResendDue(s, now) then Some((StateReport(0), Continuous)) else None);
      TakeKeeps(offered, now);
    }
  }

  lemma {:induction false} TickInv(s: State, s': State)
    requires Inv(s) && TickStep(s, s')
    ensures Inv(s')
  {
    var d1 := if s.dev.stopping then s.dev else s.dev.(slots := TickSlots(s.dev, s.clock));
    ArmKeeps(s, d1);
    forall j: nat | j < SLOTS ensures SlotInv(s', j) {
      assert SlotInv(s, j);
      TickSlotKeeps(s.dev.slots[j], s.dev.powered, s.clock);
      assert s'.dev.slots[j] == if s.dev.stopping then s.dev.slots[j] else TickSlot(s.dev.slots[j], s.dev.powered, s.clock).0;
    }
  }

  lemma {:induction false} ReportStepInv(s: State, s': State)
    requires Inv(s) && ReportStep(s, s')
    ensures Inv(s')
  {
    if i, report :| Feed(s, s', i, report) {
      PumpReportInv(s, s', i, report);
    } else if i :| Readiness(s, s', i) {
      ReadinessInv(s, s', i);
    } else if i, kind :| SteamInput(s, s', i, kind) {
      SteamInputInv(s, s', i, kind);
    } else if i, item :| SwitchReply(s, s', i, item) {
      SwitchReplyInv(s, s', i, item);
    } else {
      var i: nat :| BatteryState(s, s', i);
      BatteryStateInv(s, s', i);
    }
  }

  // ----- Steps of the threads and the slots -------------------------------

  /** The slots stay as they are, and nothing comes to be parked or powered. */
  lemma {:induction false} SlotsStay(s: State, s': State)
    requires Inv(s) && s'.dev.slots == s.dev.slots && ThreadsOk(s') && TimerOk(s')
    requires s'.dev.powered && !s'.dev.stopping ==> s.dev.powered && !s.dev.stopping
    requires s'.dev.running && s'.dev.parked && Serving(s'.worker) ==> s.dev.running && s.dev.parked && Serving(s.worker)
    ensures Inv(s')
  {
    forall j: nat | j < SLOTS ensures SlotInv(s', j) { assert SlotInv(s, j); }
  }

  lemma {:induction false} WaitEndsInv(s: State, s': State)
    requires Inv(s) && (Wake(s, s') || WakeToLeave(s, s', true) || WakeToLeave(s, s', false))
    ensures Inv(s')
  {
    SlotsStay(s, s');
  }

  lemma {:induction false} LeaveInv(s: State, s': State)
    requires Inv(s) && (TickSubmitted(s, s') || Cancel(s, s') || LastStore(s, s'))
    ensures Inv(s')
  {
    SlotsStay(s, s');
  }

  lemma {:induction false} WorkerStepInv(s: State, s': State)
    requires Inv(s) && WorkerStep(s, s')
    ensures Inv(s')
  {
    if TickStep(s, s') {
      TickInv(s, s');
    } else if TickSubmitted(s, s') || Cancel(s, s') || LastStore(s, s') {
      LeaveInv(s, s');
    } else {
      WaitEndsInv(s, s');
    }
  }

  lemma {:induction false} MarkAllInv(s: State, s': State, stop: bool)
    requires Inv(s) && MarkAll(s, s', stop)
    ensures Inv(s')
  {
    forall j: nat | j < SLOTS ensures SlotInv(s', j) { assert SlotInv(s, j); }
  }

  lemma {:induction false} GainPowerInv(s: State, s': State, power: bool)
    requires Inv(s) && GainPower(s, s', power)
    ensures Inv(s')
  {
    forall j: nat | j < SLOTS ensures SlotInv(s', j) { assert SlotInv(s, j); }
  }

  lemma {:induction false} HolderStepInv(s: State, s': State)
    requires Inv(s) && HolderStep(s, s')
    ensures Inv(s')
  {
    if MarkAll(s, s', true) {
      MarkAllInv(s, s', true);
    } else if MarkAll(s, s', false) {
      MarkAllInv(s, s', false);
    } else if GainPower(s, s', true) {
      GainPowerInv(s, s', true);
    } else if GainPower(s, s', false) {
      GainPowerInv(s, s', false);
    } else {
      SlotsStay(s, s');
    }
  }

  /** One slot gets a value that is fine on its own; nothing else changes. */
  lemma {:induction false} SlotChange(s: State, s': State, i: nat, slot: Slot)
    requires Inv(s) && i < SLOTS && s' == WithSlot(s, i, slot)
    requires SlotOk(s.dev, slot) && Numbered(slot) && ParkedOk(s, slot)
    ensures Inv(s')
  {
    forall j: nat | j < SLOTS ensures SlotInv(s', j) { assert SlotInv(s, j); }
  }

  lemma {:induction false} ReserveInv(s: State, s': State, i: nat, profile: Profile)
    requires Inv(s) && Reserve(s, s', i, profile)
    ensures Inv(s')
  {
    SlotChange(s, s', i, Blank(Starting, profile));
  }

  lemma {:induction false} HandleInv(s: State, s': State, i: nat)
    requires Inv(s) && (PublishHandle(s, s', i) || Adopt(s, s', i) || Retire(s, s', i))
    ensures Inv(s')
  {
    assert SlotInv(s, i);
    SlotChange(s, s', i, s'.dev.slots[i]);
  }

  lemma {:induction false} SlotStepInv(s: State, s': State)
    requires Inv(s) && SlotStep(s, s')
    ensures Inv(s')
  {
    if i, profile :| Reserve(s, s', i, profile) {
      ReserveInv(s, s', i, profile);
    } else {
      var i: nat :| PublishHandle(s, s', i) || Adopt(s, s', i) || Retire(s, s', i);
      HandleInv(s, s', i);
    }
  }

  lemma {:induction false} NextInv(s: State, s': State)
    requires Inv(s) && Next(s, s')
    ensures Inv(s')
  {
    if ReportStep(s, s') {
      ReportStepInv(s, s');
    } else if WorkerStep(s, s') {
      WorkerStepInv(s, s');
    } else if HolderStep(s, s') {
      HolderStepInv(s, s');
    } else if SlotStep(s, s') {
      SlotStepInv(s, s');
    } else {
      SlotsStay(s, s');
    }
  }

  lemma {:induction false} RunInv(run: seq<State>, k: nat)
    requires IsRun(run) && k < |run|
    ensures Inv(run[k])
  {
    if k == 0 {
      forall j: nat | j < SLOTS ensures SlotInv(run[0], j) {}
    } else {
      RunInv(run, k - 1);
      assert StepAt(run, k - 1);
      NextInv(run[k - 1], run[k]);
    }
  }

  // ----- The results ------------------------------------------------------

  /** While the worker waits and may run, a controller whose reader waits for a
      report has a timer that is due within one tick or has already gone off. */
  lemma {:induction false} NoLostWakeUp(run: seq<State>, k: nat, i: nat)
    requires IsRun(run) && k < |run| && i < SLOTS
    requires run[k].worker == Waiting && run[k].dev.running && run[k].dev.powered && !run[k].dev.stopping
    requires Qualifies(run[k].dev.slots[i]) && run[k].dev.slots[i].pump.ready
    ensures var timer := run[k].dev.timer;
            timer == Signalled || (timer.Armed? && timer.due <= run[k].clock + TICK_US)
  {
    RunInv(run, k);
    assert SlotInv(run[k], i);
  }

  /** A start joins only a worker that is on its way out, and whenever no start or
      stop is under way the running flag is backed by a worker. */
  lemma {:induction false} JoinsOnlyALeavingWorker(run: seq<State>, k: nat)
    requires IsRun(run) && k < |run|
    ensures run[k].holder == Join ==> Going(run[k].worker)
    ensures run[k].holder == Free && run[k].dev.running ==> run[k].worker != NoWorker
    ensures run[k].holder == Free && !run[k].dev.running ==> Going(run[k].worker)
  {
    RunInv(run, k);
  }

  /** How many steps a worker told to stop may still make. */
  function StepsLeft(w: Worker): nat {
    match w
    case Woken => 5
    case Submitting => 4
    case Waiting => 3
    case Leaving => 2
    case Left => 1
    case NoWorker => 0
  }

  /** Whoever joins a worker, to start a new one or to stop, waits for finitely many
      steps: the worker can always make one, and each one brings it nearer its end. */
  lemma {:induction false} JoinEnds(run: seq<State>, k: nat) returns (s': State)
    requires IsRun(run) && k < |run| && (run[k].holder == Join || run[k].holder == HaltJoin) && run[k].worker != NoWorker
    ensures WorkerStep(run[k], s')
    ensures forall t :: WorkerStep(run[k], t) ==> StepsLeft(t.worker) < StepsLeft(run[k].worker)
  {
    var s := run[k];
    RunInv(run, k);
    match s.worker
    case Woken =>
      s' := s.(dev := Tick(s.dev, s.clock), worker := if AnyActive(s.dev) then Submitting else Leaving);
      assert TickStep(s, s');
    case Submitting =>
      s' := s.(worker := Waiting);
      assert TickSubmitted(s, s');
    case Waiting =>
      s' := s.(worker := Leaving);
      assert WakeToLeave(s, s', false);
    case Leaving =>
      s' := s.(worker := Left, dev := s.dev.(timer := Cancelled(s.dev.timer)));
      assert Cancel(s, s');
    case Left =>
      s' := s.(worker := NoWorker, dev := s.dev.(running := false));
      assert LastStore(s, s');
  }

  /** At every release of the state lock a slot that serves reports, unless its
      profile queues replies first, has no credit beside a queued report. */
  lemma {:induction false} NoCreditBesideAReport(run: seq<State>, k: nat, i: nat)
    requires IsRun(run) && k < |run| && i < SLOTS
    requires Accepts(run[k].dev, i) && run[k].dev.slots[i].profile != SwitchPro && run[k].dev.slots[i].pump.ready
    ensures run[k].dev.slots[i].pump.Empty()
  {
    RunInv(run, k);
    assert SlotInv(run[k], i);
  }

  /** The n-th state report a Steam Controller hands over, counting from 0, carries n modulo 256,
      whatever was coalesced, evicted or resent in between. */
  lemma {:induction false} SequenceCountsHandOvers(run: seq<State>, k: nat, i: nat, n: nat)
    requires IsRun(run) && k < |run| && i < SLOTS && n < |run[k].dev.slots[i].wire|
    ensures run[k].dev.slots[i].wire[n] == n % 256
  {
    RunInv(run, k);
    assert SlotInv(run[k], i);
  }

  /** In every run, while VHF holds a Steam Controller's state report, the buffer it
      reads carries the number of the newest hand-over: the stamp is in the
      retained buffer itself and nothing overwrites it before the next one. */
  lemma {:induction false} StampedInTheBuffer(run: seq<State>, k: nat, i: nat)
    requires IsRun(run) && k < |run| && i < SLOTS
    requires run[k].dev.slots[i].profile == Steam && run[k].dev.slots[i].pump.inFlight.StateReport?
    ensures var slot := run[k].dev.slots[i];
      && slot.wire != [] && slot.pump.inFlight.sequence == slot.wire[|slot.wire| - 1] == (|slot.wire| - 1) % 256
  {
    RunInv(run, k);
    assert SlotInv(run[k], i);
  }
}
