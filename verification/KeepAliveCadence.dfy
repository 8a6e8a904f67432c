/** The keep-alive's cadence in microseconds: what one tick sends for a controller, when
    the timer comes next, and what a readiness or a report brings about at once. */
module KeepAliveCadence {
  import opened Ring
  import opened ReportPumps
  import opened KeepAlive
  import opened KeepAliveRuns

  // ----- One controller in one tick ---------------------------------------

  /** A tick sends a waiting reader its battery level 3.5 s after the last one, else the
      state 3 ms after the last one, else nothing, and notes when it did; a state
      that is due beside a battery level stays queued behind it. */
  lemma {:induction false} TickChooses(s: Slot, now: nat)
    requires Qualifies(s) && s.pump.ready && s.pump.Empty()
    ensures var (s', taken) := TickSlot(s, true, now);
      var battery, state := now >= s.lastBattery + 3500000, now >= s.lastReport + 3000;
      && (taken == Some(BatteryReport) <==> battery)
      && (taken.Some? && taken.value.StateReport? <==> state && !battery)
      && (taken.Some? <==> battery || state)
      && s'.pump.ready == (taken == None)
      && s'.lastBattery == (if battery then now else s.lastBattery)
      && s'.lastReport == (if state && !battery then now else s.lastReport)
      && s'.wire == (if state && !battery then s.wire + [s.wireSequence] else s.wire)
      && (s'.pump.latest.Some? <==> state && battery)
      && (state && battery ==> s'.pump.latest.value.StateReport?)
      && s'.pump.priority == s.pump.priority && s'.pump.ordered == []
  {
    if now >= s.lastBattery + 3500000 {
      var b := WithBattery(s, now);
      assert b.pump.ordered == [BatteryReport];
    }
  }

  /** Without a reader a tick only restarts the period; without power it sends nothing,
      though a battery level that is due is queued; and controllers it does not look
      after it leaves alone. */
  lemma {:induction false} TickHoldsBack(s: Slot, accepting: bool, now: nat)
    ensures Qualifies(s) && !s.pump.ready ==> TickSlot(s, accepting, now) == (s.(lastReport := now), None)
    ensures !Qualifies(s) ==> TickSlot(s, accepting, now) == (s, None)
    ensures !accepting ==> TickSlot(s, accepting, now).1 == None && TickSlot(s, accepting, now).0.wire == s.wire
    ensures !accepting && Qualifies(s) && s.pump.ready && s.pump.Empty() && now >= s.lastBattery + 3500000 ==>
      var s' := TickSlot(s, accepting, now).0;
      s'.lastBattery == now && s'.pump.ordered == [BatteryReport] && s'.pump.ready
  {}

  /** Once power-down or stop has marked the slots, none of them is active, and after a
      stop none is starting either; nothing else about them changes. */
  lemma {:induction false} MarkedSlotsRetire(s: State, s': State, stop: bool, i: nat)
    requires MarkAll(s, s', stop) && i < SLOTS
    ensures s'.dev.slots[i].phase != Active && (stop ==> s'.dev.slots[i].phase != Starting)
    ensures s'.dev.slots[i] == s.dev.slots[i].(phase := s'.dev.slots[i].phase)
    ensures s.dev.slots[i].phase == Vacant || s.dev.slots[i].phase == Stopping ==> s'.dev.slots[i] == s.dev.slots[i]
  {}

  // ----- The timer --------------------------------------------------------

  /** When the timer is armed it comes for every controller looked after by 4 ms after
      its last report, or at once when that has passed, and never later than in 4 ms;
      and no sooner than the first of these needs it. */
  lemma {:induction false} TimerIsDue(d: Device, now: nat, n: nat)
    requires n <= SLOTS
    ensures var due := now + Delay(d.slots, now, n);
      && now < due <= now + 4000
      && (forall i :: 0 <= i < n && Qualifies(d.slots[i]) ==> due == now + 1 || due <= d.slots[i].lastReport + 4000)
      && (due == now + 4000
          || exists i :: 0 <= i < n && Qualifies(d.slots[i]) && due == Latest(now + 1, d.slots[i].lastReport + 4000))
  {
    if n > 0 {
      TimerIsDue(d, now, n - 1);
    }
  }

  function Latest(a: nat, b: nat): nat { if a > b then a else b }

  /** How a tick leaves the timer: armed while some reader waits, parked while none
      does, and the worker told to leave when no controller is left to look after. */
  lemma {:induction false} TickSetsTimer(d: Device, now: nat)
    requires d.hasTimer && d.running && !d.stopping
    ensures var d' := Tick(d, now);
      var some, waiting := exists i :: 0 <= i < SLOTS && Qualifies(d.slots[i]),
                           exists i :: 0 <= i < SLOTS && Qualifies(d.slots[i]) && d.slots[i].pump.ready;
      && d'.running == some
      && (waiting ==> d'.timer.Armed? && now < d'.timer.due <= now + 4000 && !d'.parked)
      && (some && !waiting ==> d'.parked && d'.timer == d.timer)
      && d'.powered == d.powered && d'.stopping == d.stopping && d'.hasTimer == d.hasTimer
  {
    TimerIsDue(d.(slots := TickSlots(d, now)), now, SLOTS);
  }

  // ----- Readiness and reports --------------------------------------------

  /** The slot takes part: published, starting or active, on a powered device that is
      not stopping. */
  predicate TakesPart(d: Device, i: nat)
    requires i < SLOTS
  {
    d.powered && !d.stopping && d.slots[i].published && (d.slots[i].phase == Starting || d.slots[i].phase == Active)
  }

  /** A readiness hands over a report at once if and only if one is queued, and is
      otherwise kept as a credit; a slot that takes no part ignores it, and no other
      slot is touched. */
  lemma {:induction false} ReadinessDelivers(d: Device, i: nat, now: nat)
    requires i < SLOTS
    ensures var (d', taken) := Ready(d, i, now);
      && (taken.Some? <==> TakesPart(d, i) && !d.slots[i].pump.Empty())
      && (!TakesPart(d, i) ==> d' == d)
      && (TakesPart(d, i) ==> d'.slots[i].pump.ready == (taken == None))
      && (forall j :: 0 <= j < SLOTS && j != i ==> d'.slots[j] == d.slots[j])
  {}

  lemma {:induction false} OfferedSlot(s: Slot, x: Item, kind: Kind, now: nat)
    ensures var (t, taken) := TakeFrom(Offer(s, Some((x, kind))), now);
      && (taken.Some? <==> s.pump.ready)
      && (!s.pump.ready ==> t.pump == s.pump.Enqueue(x, kind).0)
      && (s.pump.ready ==> !t.pump.ready)
      && (s.pump.ready && s.pump.Empty() ==> taken == Some(x))
  {
    assert !s.pump.Enqueue(x, kind).0.Empty();
  }

  /** A report offered to a slot that takes part leaves at once if and only if a credit is
      unused, behind whatever had to go first; without one it waits. */
  lemma {:induction false} ReportLeavesOrWaits(d: Device, i: nat, x: Item, kind: Kind, now: nat)
    requires i < SLOTS
    ensures var (d', taken) := PumpReport(d, i, Some((x, kind)), now);
      && (taken.Some? <==> TakesPart(d, i) && d.slots[i].pump.ready)
      && (!TakesPart(d, i) ==> d' == d)
      && (TakesPart(d, i) && !d.slots[i].pump.ready ==>
            d'.slots[i].pump == d.slots[i].pump.Enqueue(x, kind).0 && d'.timer == d.timer && d'.parked == d.parked)
      && (TakesPart(d, i) && d.slots[i].pump.ready ==> !d'.slots[i].pump.ready)
      && (TakesPart(d, i) && d.slots[i].pump.ready && d.slots[i].pump.Empty() ==> taken == Some(x))
      && (forall j :: 0 <= j < SLOTS && j != i ==> d'.slots[j] == d.slots[j])
  {
    OfferedSlot(d.slots[i], x, kind, now);
  }

  lemma {:induction false} TakenSlot(s: Slot, now: nat)
    ensures var (t, taken) := TakeFrom(s, now);
      var counts := taken.Some? && taken.value.StateReport? && s.profile == Steam;
      && Rearms(t, taken) == counts
      && t.lastReport == (if counts then now else s.lastReport)
      && t.wire == (if counts then s.wire + [s.wireSequence] else s.wire)
      && (counts ==> t.wireSequence == (s.wireSequence + 1) % 256 && t.pump.inFlight == StateReport(s.wireSequence))
  {}

  lemma {:induction false} OfferKeepsRest(s: Slot, report: Option<(Item, Kind)>)
    ensures var t := Offer(s, report);
      t.profile == s.profile && t.lastReport == s.lastReport && t.wire == s.wire && t.wireSequence == s.wireSequence
  {}

  /** A state report of a Steam Controller that leaves restarts its period and the
      timer; anything else leaves both alone. */
  lemma {:induction false} StateRestartsPeriod(d: Device, i: nat, report: Option<(Item, Kind)>, now: nat)
    requires i < SLOTS
    ensures var (d', taken) := PumpReport(d, i, report, now);
      var counts := taken.Some? && taken.value.StateReport? && d.slots[i].profile == Steam;
      && d'.slots[i].lastReport == (if counts then now else d.slots[i].lastReport)
      && d'.slots[i].wire == (if counts then d.slots[i].wire + [d.slots[i].wireSequence] else d.slots[i].wire)
      && (counts ==> d'.slots[i].wireSequence == (d.slots[i].wireSequence + 1) % 256)
      && (counts ==> d'.slots[i].pump.inFlight == StateReport(d.slots[i].wireSequence))
      && (counts && d.hasTimer && d.running ==> d'.timer.Armed? && now < d'.timer.due <= now + 4000)
      && (!counts ==> d'.timer == d.timer && d'.parked == d.parked)
  {
    TakenSlot(Offer(d.slots[i], report), now);
    OfferKeepsRest(d.slots[i], report);
    TimerIsDue(d.(slots := PumpReport(d, i, report, now).0.slots), now, SLOTS);
  }

  /** A client's own battery report restarts the period when somebody reads, so that no
      tick repeats it within 3.5 s; without a reader the first tick that has one sends it. */
  lemma {:induction false} BatteryReportRestarts(s: State, s': State, i: nat, now: nat)
    requires BatteryState(s, s', i) && s.clock <= now
    requires var slot := s'.dev.slots[i]; Qualifies(slot) && slot.pump.Empty()
    ensures var slot := s'.dev.slots[i];
      && slot == s.dev.slots[i].(lastBattery := slot.lastBattery)
      && (slot.pump.ready ==> (TickSlot(slot, true, now).1 == Some(BatteryReport) <==> now >= s.clock + 3500000))
      && (!slot.pump.ready ==>
            var read: Slot := slot.(pump := slot.pump.SetReady());
            TickSlot(read, true, now).1 == Some(BatteryReport) <==> now >= 3500000)
  {
    var slot := s'.dev.slots[i];
    if slot.pump.ready {
      TickChooses(slot, now);
    } else {
      TickChooses(slot.(pump := slot.pump.SetReady()), now);
    }
  }
}
