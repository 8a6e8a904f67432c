/** Handing reports to VHF under the state lock, and the Steam Controller
    keep-alive that resends a state report every 4 ms: one critical section per
    function, with the slots' pumps as values of `Pump`. `KeepAliveDevice` is the
    imperative form with its loops over the slots. */
module KeepAlive {
  import opened Ring
  import opened ReportPumps

  const SLOTS := 16
  const TICK_US := 4000
  const RESEND_AFTER_US := 3000
  const BATTERY_PERIOD_US := 3500000

  /** A state report carries the number it leaves with; until then it is 0. */
  datatype Item = StateReport(sequence: nat) | BatteryReport | OtherReport(tag: nat)

  datatype Profile = Steam | SwitchPro | Other

  datatype Phase = Vacant | Starting | Active | Stopping

  /** `wire` lists the numbers of the state reports handed over so far. */
  datatype SlotValue = Slot(
    phase: Phase,
    published: bool,
    profile: Profile,
    haveInput: bool,
    pump: Pump<Item>,
    lastReport: nat,
    lastBattery: nat,
    wireSequence: nat,
    wire: seq<nat>)

  type Slot = s: SlotValue | s.pump.Bounded() witness Blank(Vacant, Other)

  function Blank(phase: Phase, profile: Profile): (s: SlotValue)
    ensures s.pump.Bounded() && s.pump.Empty() && !s.pump.ready
  {
    SlotValue.Slot(phase, false, profile, false, Pump(false, OtherReport(0), [], [], [], None, 0), 0, 0, 0, [])
  }

  datatype Timer = Off | Armed(due: nat) | Signalled

  type Slots = s: seq<Slot> | |s| == SLOTS witness seq(SLOTS, _ => Blank(Vacant, Other))

  datatype Device = Device(
    powered: bool,
    stopping: bool,
    slots: Slots,
    hasTimer: bool,
    running: bool,
    parked: bool,
    timer: Timer)

  predicate Accepts(d: Device, i: nat)
    requires i < SLOTS
  {
    !d.stopping && d.powered && d.slots[i].published && (d.slots[i].phase == Starting || d.slots[i].phase == Active)
  }

  /** The keep-alive looks after this slot. */
  predicate Qualifies(s: SlotValue) {
    s.phase == Active && s.profile == Steam && s.published && s.haveInput
  }

  // ----- Scheduling -------------------------------------------------------

  function Elapsed(since: nat, now: nat): nat { if now >= since then now - since else 0 }

  function Remaining(s: SlotValue, now: nat): nat {
    var elapsed := Elapsed(s.lastReport, now);
    if elapsed >= TICK_US then 1 else TICK_US - elapsed
  }

  /** The delay over the first `n` slots. */
  function Delay(slots: Slots, now: nat, n: nat): nat
    requires n <= SLOTS
  {
    if n == 0 then TICK_US
    else
      var before := Delay(slots, now, n - 1);
      if Qualifies(slots[n - 1]) && Remaining(slots[n - 1], now) < before then Remaining(slots[n - 1], now) else before
  }

  /** The timer is armed for the earliest deadline, never more than one tick away. */
  lemma {:induction false} DelayIsEarliest(slots: Slots, now: nat, n: nat)
    requires n <= SLOTS
    ensures 1 <= Delay(slots, now, n) <= TICK_US
    ensures forall i :: 0 <= i < n && Qualifies(slots[i]) ==> Delay(slots, now, n) <= Remaining(slots[i], now)
    ensures Delay(slots, now, n) == TICK_US
         || exists i :: 0 <= i < n && Qualifies(slots[i]) && Delay(slots, now, n) == Remaining(slots[i], now)
  {
    if n > 0 { DelayIsEarliest(slots, now, n - 1); }
  }

  function ArmTimer(d: Device, now: nat): Device {
    if !d.hasTimer || !d.running then d
    else d.(parked := false, timer := Armed(now + Delay(d.slots, now, SLOTS)))
  }

  // ----- Handing a report over --------------------------------------------

  function Mark(s: Slot, item: Item, now: nat): (r: Slot) {
    if item.StateReport? && s.profile == Steam then
      s.(pump := s.pump.(inFlight := StateReport(s.wireSequence)), wireSequence := (s.wireSequence + 1) % 256,
         wire := s.wire + [s.wireSequence], lastReport := now)
    else s
  }

  function TakeFrom(s: Slot, now: nat): (r: (Slot, Option<Item>)) {
    var taken := s.pump.Take();
    var s1 := s.(pump := taken.0);
    if taken.1 == None then (s1, None) else (Mark(s1, taken.1.value, now), taken.1)
  }

  predicate Rearms(s: SlotValue, taken: Option<Item>) {
    taken.Some? && taken.value.StateReport? && s.profile == Steam
  }

  function Offer(s: Slot, report: Option<(Item, Kind)>): (r: Slot) {
    if report == None then s else s.(pump := s.pump.Enqueue(report.value.0, report.value.1).0)
  }

  function With(d: Device, i: nat, s: Slot): Device
    requires i < SLOTS
  {
    d.(slots := d.slots[i := s])
  }

  /** pump_report_locked; without `report` it only takes. */
  function PumpReport(d: Device, i: nat, report: Option<(Item, Kind)>, now: nat): (r: (Device, Option<Item>))
    requires i < SLOTS
  {
    if !Accepts(d, i) then (d, None)
    else
      var taken := TakeFrom(Offer(d.slots[i], report), now);
      var d1 := With(d, i, taken.0);
      (if Rearms(taken.0, taken.1) then ArmTimer(d1, now) else d1, taken.1)
  }

  /** evt_vhf_ready_for_next_report. */
  function Ready(d: Device, i: nat, now: nat): (r: (Device, Option<Item>))
    requires i < SLOTS
  {
    if !Accepts(d, i) then (d, None)
    else
      var taken := TakeFrom(d.slots[i].(pump := d.slots[i].pump.SetReady()), now);
      var d1 := With(d, i, taken.0);
      var d2 := if Rearms(taken.0, taken.1) then ArmTimer(d1, now) else d1;
      (if d2.parked && taken.0.haveInput && taken.0.profile == Steam then ArmTimer(d2, now) else d2, taken.1)
  }

  // ----- The tick ---------------------------------------------------------

  predicate BatteryDue(s: SlotValue, now: nat) { now >= s.lastBattery && now - s.lastBattery >= BATTERY_PERIOD_US }

  predicate ResendDue(s: SlotValue, now: nat) { now >= s.lastReport && now - s.lastReport >= RESEND_AFTER_US }

  function WithBattery(s: Slot, now: nat): (r: Slot) {
    if BatteryDue(s, now) then Offer(s, Some((BatteryReport, Aside))).(lastBattery := now) else s
  }

  function TickSlot(s: Slot, accepting: bool, now: nat): (r: (Slot, Option<Item>)) {
    if !Qualifies(s) then (s, None)
    else if !s.pump.ready then (s.(lastReport := now), None)
    else if !ResendDue(s, now) && !BatteryDue(s, now) then (s, None)
    else if !accepting then (WithBattery(s, now), None)
    else TakeFrom(Offer(WithBattery(s, now), if ResendDue(s, now) then Some((StateReport(0), Continuous)) else None), now)
  }

  function TickSlots(d: Device, now: nat): (r: Slots)
    ensures forall i :: 0 <= i < SLOTS ==> r[i] == TickSlot(d.slots[i], d.powered, now).0
  {
    seq(SLOTS, i requires 0 <= i < SLOTS => TickSlot(d.slots[i], d.powered, now).0)
  }

  predicate AnyActive(d: Device) {
    !d.stopping && exists i :: 0 <= i < SLOTS && Qualifies(d.slots[i])
  }

  predicate AnyReady(d: Device) {
    !d.stopping && exists i :: 0 <= i < SLOTS && Qualifies(d.slots[i]) && d.slots[i].pump.ready
  }

  /** The critical section of sc26_keepalive_tick. */
  function Tick(d: Device, now: nat): Device {
    var d1 := if d.stopping then d else d.(slots := TickSlots(d, now));
    if !AnyActive(d) then d1.(running := false)
    else if AnyReady(d) then ArmTimer(d1, now)
    else d1.(parked := true)
  }

  /** After a tick with power nobody who waits for a report is overdue. */
  lemma {:induction false} NobodyOverdueAfterTick(d: Device, now: nat, i: nat)
    requires i < SLOTS && d.powered && !d.stopping
    requires Qualifies(Tick(d, now).slots[i]) && Tick(d, now).slots[i].pump.ready
    ensures !ResendDue(Tick(d, now).slots[i], now) && !BatteryDue(Tick(d, now).slots[i], now)
  {
    var s := d.slots[i];
    assert Tick(d, now).slots[i] == TickSlot(s, true, now).0;
    if Qualifies(s) && s.pump.ready && (ResendDue(s, now) || BatteryDue(s, now)) {
      TickHandsOver(s, now);
    }
  }

  /** With credit and something due the tick always hands a report over, and the
      credit is spent. */
  lemma {:induction false} TickHandsOver(s: Slot, now: nat)
    requires Qualifies(s) && s.pump.ready && (ResendDue(s, now) || BatteryDue(s, now))
    ensures TickSlot(s, true, now).1.Some? && !TickSlot(s, true, now).0.pump.ready
  {
    var b := WithBattery(s, now);
    assert BatteryDue(s, now) ==> b.pump.ordered != [];
  }

  /** What a tick takes from each slot. */
  function TakenBy(slots: Slots, powered: bool, now: nat): (taken: seq<Option<Item>>)
    ensures |taken| == SLOTS && forall i :: 0 <= i < SLOTS ==> taken[i] == TickSlot(slots[i], powered, now).1
  {
    seq(SLOTS, i requires 0 <= i < SLOTS => TickSlot(slots[i], powered, now).1)
  }

  /** `pending` maps each of the first `n` slots something was taken from to it. */
  ghost predicate Pending(taken: seq<Option<Item>>, n: nat, pending: map<nat, Item>)
    requires n <= |taken|
  {
    && (forall i: nat :: i in pending <==> i < n && taken[i].Some?)
    && (forall i: nat :: i in pending ==> taken[i] == Some(pending[i]))
  }

  /** A tick has dealt with the first `n` of the slots `before` it. */
  ghost predicate Ticked(before: Slots, after: Slots, powered: bool, now: nat, n: nat, anyActive: bool, anyReady: bool)
    requires n <= SLOTS
  {
    && (forall k :: 0 <= k < n ==> after[k] == TickSlot(before[k], powered, now).0)
    && (forall k :: n <= k < SLOTS ==> after[k] == before[k])
    && (anyActive <==> exists k :: 0 <= k < n && Qualifies(before[k]))
    && (anyReady <==> exists k :: 0 <= k < n && Qualifies(before[k]) && before[k].pump.ready)
  }

  lemma {:induction false} TickedNext(before: Slots, after: Slots, powered: bool, now: nat, n: nat, anyActive: bool, anyReady: bool)
    requires n < SLOTS && Ticked(before, after, powered, now, n, anyActive, anyReady)
    ensures after[n] == before[n]
    ensures Ticked(before, after[n := TickSlot(before[n], powered, now).0], powered, now, n + 1,
                   anyActive || Qualifies(before[n]), anyReady || (Qualifies(before[n]) && before[n].pump.ready))
  {}

  lemma {:induction false} PendingNext(taken: seq<Option<Item>>, n: nat, pending: map<nat, Item>)
    requires n < |taken| && Pending(taken, n, pending)
    ensures Pending(taken, n + 1, if taken[n].Some? then pending[n := taken[n].value] else pending)
  {}

  lemma {:induction false} TickedAll(d: Device, after: Slots, now: nat, anyActive: bool, anyReady: bool)
    requires !d.stopping && Ticked(d.slots, after, d.powered, now, SLOTS, anyActive, anyReady)
    ensures after == TickSlots(d, now) && anyActive == AnyActive(d) && anyReady == AnyReady(d)
  {}

  // ----- The device as the driver updates it ------------------------------

  class KeepAliveDevice {
    var powered: bool
    var stopping: bool
    const slots: array<Slot>
    const hasTimer: bool
    var running: bool
    var parked: bool
    var timer: Timer

    ghost predicate Valid()
      reads this
    {
      slots.Length == SLOTS
    }

    ghost function Model(): Device
      reads this, slots
      requires Valid()
    {
      Device(powered, stopping, slots[..], hasTimer, running, parked, timer)
    }

    method Arm(now: nat)
      requires Valid()
      modifies this`parked, this`timer
      ensures Model() == ArmTimer(old(Model()), now)
    {
      if !hasTimer || !running {
        return;
      }
      parked := false;
      var delay := TICK_US;
      for i := 0 to SLOTS
        invariant delay == Delay(slots[..], now, i)
      {
        if Qualifies(slots[i]) {
          var remaining := Remaining(slots[i], now);
          if remaining < delay {
            delay := remaining;
          }
        }
      }
      timer := Armed(now + delay);
    }

    method PumpReportLocked(i: nat, report: Option<(Item, Kind)>, now: nat, rearm: bool) returns (next: Option<Item>)
      requires Valid() && i < SLOTS
      modifies this`parked, this`timer, slots
      ensures rearm ==> (Model(), next) == PumpReport(old(Model()), i, report, now)
      ensures !rearm ==> parked == old(parked) && timer == old(timer) && slots[..] == old(slots[..])[i := slots[i]]
      ensures !rearm && Accepts(old(Model()), i) ==> (slots[i], next) == TakeFrom(Offer(old(slots[i]), report), now)
      ensures !rearm && !Accepts(old(Model()), i) ==> (slots[i], next) == (old(slots[i]), None)
    {
      var s := slots[i];
      if stopping || !powered || !s.published || (s.phase != Starting && s.phase != Active) {
        return None;
      }
      var taken := TakeFrom(Offer(s, report), now);
      slots[i] := taken.0;
      next := taken.1;
      assert Model() == With(old(Model()), i, taken.0);
      if rearm && Rearms(taken.0, next) {
        Arm(now);
      }
    }

    method ReadyForNextReport(i: nat, now: nat) returns (next: Option<Item>)
      requires Valid() && i < SLOTS
      modifies this`parked, this`timer, slots
      ensures (Model(), next) == Ready(old(Model()), i, now)
    {
      var s := slots[i];
      if stopping || !powered || !s.published || (s.phase != Starting && s.phase != Active) {
        return None;
      }
      var taken := TakeFrom(s.(pump := s.pump.SetReady()), now);
      slots[i] := taken.0;
      next := taken.1;
      assert Model() == With(old(Model()), i, taken.0);
      if Rearms(taken.0, next) {
        Arm(now);
      }
      if parked && slots[i].haveInput && slots[i].profile == Steam {
        Arm(now);
      }
    }

    method TickLocked(now: nat) returns (anyActive: bool, pending: map<nat, Item>)
      requires Valid()
      modifies this`running, this`parked, this`timer, slots
      ensures Model() == Tick(old(Model()), now) && anyActive == AnyActive(old(Model()))
      ensures if old(stopping) then pending == map[] else Pending(TakenBy(old(slots[..]), old(powered), now), SLOTS, pending)
    {
      anyActive, pending := false, map[];
      var anyReady := false;
      if !stopping {
        anyActive, anyReady, pending := TickEach(now);
        assert slots[..] == TickSlots(old(Model()), now);
      }
      if !anyActive {
        running := false;
      } else if anyReady {
        Arm(now);
      } else {
        parked := true;
      }
    }

    method TickEach(now: nat) returns (anyActive: bool, anyReady: bool, pending: map<nat, Item>)
      requires Valid() && !stopping
      modifies this`parked, this`timer, slots
      ensures parked == old(parked) && timer == old(timer)
      ensures slots[..] == TickSlots(old(Model()), now)
      ensures anyActive == AnyActive(old(Model())) && anyReady == AnyReady(old(Model()))
      ensures Pending(TakenBy(old(slots[..]), powered, now), SLOTS, pending)
    {
      anyActive, anyReady, pending := false, false, map[];
      ghost var d := Model();
      ghost var after: Slots := d.slots;
      for i := 0 to SLOTS
        invariant parked == old(parked) && timer == old(timer) && slots[..] == after
        invariant Ticked(d.slots, after, powered, now, i, anyActive, anyReady)
        invariant Pending(TakenBy(d.slots, powered, now), i, pending)
      {
        anyActive, anyReady, pending, after := TickNext(now, i, d.slots, after, anyActive, anyReady, pending);
      }
      TickedAll(d, after, now, anyActive, anyReady);
    }

    /** The loop's body: slot `i` is dealt with like the ones before it. */
    method TickNext(now: nat, i: nat, ghost before: Slots, ghost after: Slots,
                    active: bool, ready: bool, pending: map<nat, Item>)
      returns (anyActive: bool, anyReady: bool, pending': map<nat, Item>, ghost after': Slots)
      requires Valid() && !stopping && i < SLOTS && slots[..] == after
      requires Ticked(before, after, powered, now, i, active, ready) && Pending(TakenBy(before, powered, now), i, pending)
      modifies this`parked, this`timer, slots
      ensures parked == old(parked) && timer == old(timer) && slots[..] == after'
      ensures Ticked(before, after', powered, now, i + 1, anyActive, anyReady)
      ensures Pending(TakenBy(before, powered, now), i + 1, pending')
    {
      TickedNext(before, after, powered, now, i, active, ready);
      PendingNext(TakenBy(before, powered, now), i, pending);
      var slotActive, slotReady, next := TickOne(i, now);
      after' := slots[..];
      anyActive, anyReady := active || slotActive, ready || slotReady;
      pending' := if next.Some? then pending[i := next.value] else pending;
    }

    method TickOne(i: nat, now: nat) returns (active: bool, ready: bool, next: Option<Item>)
      requires Valid() && i < SLOTS && !stopping
      modifies this`parked, this`timer, slots
      ensures parked == old(parked) && timer == old(timer)
      ensures slots[..] == old(slots[..])[i := slots[i]]
      ensures (slots[i], next) == TickSlot(old(slots[i]), powered, now)
      ensures active == Qualifies(old(slots[i])) && ready == (active && old(slots[i]).pump.ready)
    {
      var s := slots[i];
      active, ready, next := Qualifies(s), false, None;
      if !active {
        return;
      }
      if !s.pump.ready {
        slots[i] := s.(lastReport := now);
        return;
      }
      ready := true;
      var batteryDue, resendDue := BatteryDue(s, now), ResendDue(s, now);
      if batteryDue {
        slots[i] := Offer(s, Some((BatteryReport, Aside))).(lastBattery := now);
      }
      if !resendDue && !batteryDue {
        return;
      }
      next := PumpReportLocked(i, if resendDue then Some((StateReport(0), Continuous)) else None, now, false);
    }
  }
}
