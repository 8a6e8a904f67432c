/** The one gap of the keep-alive's wake-up guarantee, reached by a run: an input
    state that arrives after power is gone leaves a parked timer parked beside a
    reader that waits. */
module KeepAliveGap {
  import opened Ring
  import opened ReportPumps
  import opened KeepAlive
  import opened KeepAliveRuns
  import opened KeepAliveSafety

  ghost predicate Reachable(s: State) {
    exists run :: IsRun(run) && run[|run| - 1] == s
  }

  lemma {:induction false} StepKept(run: seq<State>, s': State, k: nat)
    requires run != [] && (k + 1 < |run| ==> StepAt(run, k)) && (k + 1 == |run| ==> Next(run[k], s'))
    ensures StepAt(run + [s'], k)
  {
    var longer := run + [s'];
    if k + 1 < |run| {
      assert longer[k] == run[k] && longer[k + 1] == run[k + 1];
    } else if k + 1 == |run| {
      assert longer[k] == run[k] && longer[k + 1] == s';
    }
  }

  lemma {:induction false} RunExtends(run: seq<State>, s': State)
    requires IsRun(run) && Next(run[|run| - 1], s')
    ensures IsRun(run + [s'])
  {
    forall k: nat ensures StepAt(run + [s'], k) {
      assert StepAt(run, k);
      StepKept(run, s', k);
    }
  }

  lemma {:induction false} ReachNext(s: State, s': State)
    requires Reachable(s) && Next(s, s')
    ensures Reachable(s')
  {
    var run :| IsRun(run) && run[|run| - 1] == s;
    RunExtends(run, s');
    assert (run + [s'])[|run + [s']| - 1] == s';
  }

  // ----- The states of the run --------------------------------------------

  /** Two controllers and fourteen slots nobody uses. */
  function Two(a: Slot, b: Slot): (slots: Slots)
    ensures slots[0] == a && slots[1] == b && forall i :: 2 <= i < SLOTS ==> slots[i] == Blank(Vacant, Other)
  {
    var vacant: Slot := Blank(Vacant, Other);
    [a, b] + seq<Slot>(SLOTS - 2, _ => vacant)
  }

  function Idle(powered: bool, a: Slot, b: Slot): State {
    State(Device(powered, false, Two(a, b), true, false, false, Off), Held, NoWorker, false, 0)
  }

  /** The worker's side of a state, once the gate's holder has begun to start it. */
  function Keeping(a: Slot, b: Slot, parked: bool, timer: Timer, holder: Holder, worker: Worker, clock: nat): State {
    State(Device(true, false, Two(a, b), true, true, parked, timer), holder, worker, false, clock)
  }

  function Created(): Slot { Blank(Starting, Steam) }

  function Adopted(): Slot { Created().(published := true, phase := Active) }

  /** With an input state queued, no read pending yet, and the given report time. */
  function Fed(lastReport: nat): Slot {
    Adopted().(haveInput := true, lastReport := lastReport,
               pump := Pump(false, OtherReport(0), [], [], [], Some(StateReport(0)), 0))
  }

  function Read(): Slot { Adopted().(pump := Adopted().pump.SetReady()) }

  // ----- The run ----------------------------------------------------------

  lemma {:induction false} ReachPowered()
    ensures Reachable(Idle(true, Blank(Vacant, Other), Blank(Vacant, Other)))
  {
    var vacant := Blank(Vacant, Other);
    var s1 := Idle(false, vacant, vacant);
    var s0 := s1.(holder := Free);
    assert Init(s0);
    forall k: nat ensures StepAt([s0], k) {}
    assert IsRun([s0]) && [s0][|[s0]| - 1] == s0;
    assert Lock(s0, s1);
    ReachNext(s0, s1);
    assert GainPower(s1, Idle(true, vacant, vacant), true);
    ReachNext(s1, Idle(true, vacant, vacant));
  }

  /** A slot is created and adopted. */
  lemma {:induction false} ReachAdopted(s: State, i: nat)
    requires Reachable(s) && i < SLOTS && s.holder == Held && s.dev.powered && !s.dev.stopping
    requires s.dev.slots[i].phase == Vacant
    ensures Reachable(WithSlot(s, i, Adopted()))
  {
    var s1, s2, s3 := WithSlot(s, i, Created()), WithSlot(s, i, Created().(published := true)), WithSlot(s, i, Adopted());
    assert Reserve(s, s1, i, Steam);
    ReachNext(s, s1);
    assert s2 == WithSlot(s1, i, s1.dev.slots[i].(published := true));
    assert PublishHandle(s1, s2, i);
    ReachNext(s1, s2);
    assert s3 == WithSlot(s2, i, s2.dev.slots[i].(phase := Active));
    assert Adopt(s2, s3, i);
    ReachNext(s2, s3);
  }

  lemma {:induction false} ReachBoth()
    ensures Reachable(Idle(true, Adopted(), Adopted()))
  {
    var s0, s1, s2 := Idle(true, Blank(Vacant, Other), Blank(Vacant, Other)), Idle(true, Adopted(), Blank(Vacant, Other)),
                      Idle(true, Adopted(), Adopted());
    ReachPowered();
    ReachAdopted(s0, 0);
    assert WithSlot(s0, 0, Adopted()).dev.slots == s1.dev.slots;
    ReachAdopted(s1, 1);
    assert WithSlot(s1, 1, Adopted()).dev.slots == s2.dev.slots;
  }

  /** Input on the first controller starts the worker. */
  lemma {:induction false} ReachStarted()
    ensures Reachable(Keeping(Fed(0), Adopted(), false, Armed(TICK_US), Held, Waiting, 0))
  {
    var s0 := Idle(true, Adopted(), Adopted());
    ReachBoth();
    var s1 := Keeping(Fed(0), Adopted(), false, Off, Join, NoWorker, 0);
    assert SteamInput(s0, s1, 0, Continuous) by {
      var d := KeepAlive.With(s0.dev, 0, Adopted().(haveInput := true)).(running := true);
      assert Offer(d.slots[0], Some((StateReport(0), Continuous))) == Fed(0);
      assert KeepAlive.With(d, 0, Fed(0)).slots == Two(Fed(0), Adopted());
    }
    ReachNext(s0, s1);
    var s2 := s1.(holder := Publish);
    assert Joined(s1, s2);
    ReachNext(s1, s2);
    var s3 := s1.(holder := SetTimer);
    assert Published(s2, s3);
    ReachNext(s2, s3);
    var s4 := Keeping(Fed(0), Adopted(), false, Armed(TICK_US), Spawn, NoWorker, 0);
    assert FirstDue(s3, s4, true);
    ReachNext(s3, s4);
    var s5 := s4.(holder := Held, worker := Waiting);
    assert Spawned(s4, s5, true);
    ReachNext(s4, s5);
  }

  /** Nobody reads, so the first tick parks the timer. */
  lemma {:induction false} ReachParked()
    ensures Reachable(Keeping(Fed(TICK_US), Adopted(), true, Off, Held, Waiting, TICK_US))
  {
    var s0 := Keeping(Fed(0), Adopted(), false, Armed(TICK_US), Held, Waiting, 0);
    ReachStarted();
    var s1 := s0.(clock := TICK_US);
    assert Advance(s0, s1, TICK_US);
    ReachNext(s0, s1);
    var s2 := Keeping(Fed(0), Adopted(), false, Signalled, Held, Waiting, TICK_US);
    assert Fire(s1, s2);
    ReachNext(s1, s2);
    var s3 := Keeping(Fed(0), Adopted(), false, Off, Held, Woken, TICK_US);
    assert Wake(s2, s3);
    ReachNext(s2, s3);
    var s4 := Keeping(Fed(TICK_US), Adopted(), true, Off, Held, Submitting, TICK_US);
    TickParks(s3.dev);
    assert TickStep(s3, s4);
    ReachNext(s3, s4);
    var s5 := s4.(worker := Waiting);
    assert TickSubmitted(s4, s5);
    ReachNext(s4, s5);
  }

  lemma {:induction false} TickParks(d: Device)
    requires d == Keeping(Fed(0), Adopted(), false, Off, Held, Woken, TICK_US).dev
    ensures Tick(d, TICK_US) == d.(slots := Two(Fed(TICK_US), Adopted()), parked := true) && AnyActive(d)
  {
    assert Qualifies(d.slots[0]) && !d.slots[0].pump.ready;
    assert TickSlots(d, TICK_US) == Two(Fed(TICK_US), Adopted());
    assert forall i :: 0 < i < SLOTS ==> !Qualifies(d.slots[i]);
  }

  /** The gap is real: some run ends with the worker waiting on a timer nobody will
      set off, while a controller has input and its reader waits. */
  lemma {:induction false} ParkedBesideAReader() returns (s: State)
    ensures Reachable(s) && s.worker == Waiting && s.dev.running && s.dev.parked && s.dev.timer == Off
    ensures Qualifies(s.dev.slots[1]) && s.dev.slots[1].pump.ready && !s.dev.powered
  {
    var s0 := Keeping(Fed(TICK_US), Adopted(), true, Off, Held, Waiting, TICK_US);
    ReachParked();
    var s1 := Keeping(Fed(TICK_US), Read(), true, Off, Held, Waiting, TICK_US);
    assert s1.dev.slots == s0.dev.slots[1 := Read()];
    assert Readiness(s0, s1, 1);
    ReachNext(s0, s1);
    var s2 := s1.(dev := s1.dev.(powered := false));
    assert LosePower(s1, s2, false);
    ReachNext(s1, s2);
    s := WithSlot(s2, 1, Read().(haveInput := true));
    assert SteamInput(s2, s, 1, Continuous);
    ReachNext(s2, s);
  }

  /** And it is exact: an input state for a controller whose reader waits leaves a
      parked timer parked if and only if the device has no power. */
  lemma {:induction false} InputUnparksExactlyWithPower(run: seq<State>, k: nat, s': State, i: nat, kind: Kind)
    requires IsRun(run) && k < |run| && SteamInput(run[k], s', i, kind)
    requires run[k].worker == Waiting && run[k].dev.running && run[k].dev.parked && run[k].dev.slots[i].pump.ready
    ensures s'.dev.parked <==> !run[k].dev.powered
    ensures run[k].dev.powered ==> s'.dev.timer.Armed? && s'.dev.timer.due <= s'.clock + TICK_US
  {
    var s := run[k];
    RunInv(run, k);
    assert SlotInv(s, i);
    DelayIsEarliest(s'.dev.slots, s.clock, SLOTS);
    if s.dev.powered {
      var slot: Slot := s.dev.slots[i].(haveInput := true);
      assert slot.pump.Empty();
      LoneReportLeaves(slot, kind, s.clock);
    }
  }

  /** From an empty pump with credit the report just queued is the one that leaves. */
  lemma {:induction false} LoneReportLeaves(s: Slot, kind: Kind, now: nat)
    requires s.profile == Steam && s.pump.ready && s.pump.Empty()
    ensures var t := TakeFrom(Offer(s, Some((StateReport(0), kind))), now);
            Rearms(t.0, t.1)
  {}
}
