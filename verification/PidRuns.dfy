/** Whole runs of the force-feedback engine: the pool, the effect clock and the
    rumble, for every sequence of host reports and clock ticks. */
module PidRuns {
  import opened Ring
  import opened PidEffects
  import opened PidEngines

  // ----- The pool ---------------------------------------------------------

  /** An engine and the number of blocks the host holds: created and neither
      freed nor lost to a device reset. */
  datatype Run = Run(engine: Engine, held: int)

  function Step(r: Run, c: Command): Run {
    var (engine, ok) := r.engine.Apply(c);
    Run(engine,
        if c == Control(4) then 0
        else if ok && c.Create? then r.held + 1
        else if ok && c.Free? then r.held - 1
        else r.held)
  }

  function Exec(cs: seq<Command>): Run {
    if cs == [] then Run(PowerOn(), 0) else Step(Exec(cs[..|cs| - 1]), cs[|cs| - 1])
  }

  lemma {:induction false} InUseSame(s: Blocks, t: Blocks, n: nat)
    requires n <= MAX_EFFECTS && forall i :: 0 <= i < n ==> s[i].inUse == t[i].inUse
    ensures InUse(s, n) == InUse(t, n)
  {
    if n > 0 { InUseSame(s, t, n - 1); }
  }

  lemma {:induction false} InUseStore(s: Blocks, at: nat, e: Effect, n: nat)
    requires at < MAX_EFFECTS && n <= MAX_EFFECTS
    ensures InUse(s[at := e], n) ==
      InUse(s, n) + (if at < n then (if e.inUse then 1 else 0) - (if s[at].inUse then 1 else 0) else 0)
  {
    if n > 0 { InUseStore(s, at, e, n - 1); }
  }

  lemma {:induction false} NoneInUse(s: Blocks, n: nat)
    requires n <= MAX_EFFECTS && forall i :: 0 <= i < n ==> !s[i].inUse
    ensures InUse(s, n) == 0
  {
    if n > 0 { NoneInUse(s, n - 1); }
  }

  /** Commands that neither allocate nor free leave every block's ownership alone. */
  predicate KeepsBlocks(c: Command) { !c.Create? && !c.Free? && c != Control(4) }

  lemma {:induction false} KeepsInUse(e: Engine, c: Command)
    requires KeepsBlocks(c)
    ensures forall i :: 0 <= i < MAX_EFFECTS ==> e.Apply(c).0.effects[i].inUse == e.effects[i].inUse
  {}

  /** The pool always mirrors the blocks the host holds: the bytes available
      plus sixty-four for each block held make 1024. */
  lemma {:induction false} PoolConserved(cs: seq<Command>)
    ensures var r := Exec(cs);
      && 0 <= r.held <= MAX_EFFECTS
      && r.engine.PoolAvailable() + BYTES_PER_EFFECT * r.held == POOL_BYTES
  {
    var r := Exec(cs);
    assert r.held == InUse(r.engine.effects, MAX_EFFECTS) by { HeldIsInUse(cs); }
  }

  lemma {:induction false} HeldIsInUse(cs: seq<Command>)
    ensures Exec(cs).held == InUse(Exec(cs).engine.effects, MAX_EFFECTS)
  {
    if cs == [] {
      NoneInUse(AllBlank(), MAX_EFFECTS);
    } else {
      var r, c := Exec(cs[..|cs| - 1]), cs[|cs| - 1];
      HeldIsInUse(cs[..|cs| - 1]);
      var s := r.engine.effects;
      if c.Create? {
        var free := FirstFree(s, 0);
        if free < MAX_EFFECTS {
          InUseStore(s, free, BLANK.(inUse := true, kind := TypeOf(c.kind), gain := 255), MAX_EFFECTS);
        }
      } else if c.Free? {
        if r.engine.Names(c.block) { InUseStore(s, c.block as int - 1, BLANK, MAX_EFFECTS); }
      } else if c == Control(4) {
        NoneInUse(AllBlank(), MAX_EFFECTS);
      } else {
        KeepsInUse(r.engine, c);
        InUseSame(s, r.engine.Apply(c).0.effects, MAX_EFFECTS);
      }
    }
  }

  lemma {:induction false} CreateOutcome(e: Engine, kind: uint8)
    ensures var (e', ok) := e.Apply(Create(kind));
      && (ok <==> ValidType(kind) && exists i :: 0 <= i < MAX_EFFECTS && !e.effects[i].inUse)
      && (ok ==>
            var block := e'.lastAllocated as int - 1;
            && 0 <= block < MAX_EFFECTS && !e.effects[block].inUse && e'.effects[block].inUse
            && (forall i :: 0 <= i < MAX_EFFECTS && i != block ==> e'.effects[i] == e.effects[i]))
  {
    assert FirstFree(e.effects, 0) < MAX_EFFECTS ==> !e.effects[FirstFree(e.effects, 0)].inUse;
  }

  /** A block in use stays in use through anything but its release or a reset. */
  lemma {:induction false} StaysInUse(e: Engine, block: nat, c: Command)
    requires block < MAX_EFFECTS && e.effects[block].inUse && c != Control(4) && (c.Free? ==> c.block as int != block + 1)
    ensures e.Apply(c).0.effects[block].inUse
  {
    if KeepsBlocks(c) { KeepsInUse(e, c); }
  }

  lemma {:induction false} NotHandedOutAgain(e: Engine, block: nat, k: uint8)
    requires block < MAX_EFFECTS && e.effects[block].inUse && e.Apply(Create(k)).1
    ensures e.Apply(Create(k)).0.lastAllocated as int - 1 != block
  {
    CreateOutcome(e, k);
  }

  /** Create New Effect succeeds exactly when the type is known and a block is
      free; it hands out the lowest block that was not in use, and until that
      block is freed or the device reset no later command can hand it out again. */
  lemma {:induction false} CreateIsExclusive(e: Engine, kind: uint8, c: Command)
    ensures var (e', ok) := e.Apply(Create(kind));
      && (ok <==> ValidType(kind) && exists i :: 0 <= i < MAX_EFFECTS && !e.effects[i].inUse)
      && (ok ==>
            var block := e'.lastAllocated as int - 1;
            && 0 <= block < MAX_EFFECTS && !e.effects[block].inUse && e'.effects[block].inUse
            && (forall i :: 0 <= i < MAX_EFFECTS && i != block ==> e'.effects[i] == e.effects[i])
            && (c != Free(e'.lastAllocated) && c != Control(4) ==> e'.Apply(c).0.effects[block].inUse)
            && (forall k :: e'.Apply(Create(k)).1 ==> e'.Apply(Create(k)).0.lastAllocated as int - 1 != block))
  {
    var r := e.Apply(Create(kind));
    CreateOutcome(e, kind);
    if r.1 {
      if c != Free(r.0.lastAllocated) && c != Control(4) { StaysInUse(r.0, r.0.lastAllocated as int - 1, c); }
      forall k | r.0.Apply(Create(k)).1 ensures r.0.Apply(Create(k)).0.lastAllocated != r.0.lastAllocated {
        NotHandedOutAgain(r.0, r.0.lastAllocated as int - 1, k);
      }
    }
  }

  // ----- The clock --------------------------------------------------------

  function AdvanceBy(e: Engine, dt: u32, n: nat): (e': Engine) {
    if n == 0 then e else AdvanceBy(e, dt, n - 1).Advanced(dt)
  }

  lemma {:induction false} AdvanceIsTicks(e: Engine, dt: u32, n: nat)
    requires !e.paused
    ensures !AdvanceBy(e, dt, n).paused
    ensures forall i :: 0 <= i < MAX_EFFECTS ==> AdvanceBy(e, dt, n).effects[i] == Ticks(e.effects[i], dt, n)
  {
    if n > 0 { AdvanceIsTicks(e, dt, n - 1); }
  }

  predicate AllFinite(e: Engine, dt: u32) {
    forall i :: 0 <= i < MAX_EFFECTS && e.effects[i].inUse && e.effects[i].playing ==>
      Finite(e.effects[i]) && ClockFits(e.effects[i], dt)
  }

  predicate OnlyUsedPlay(e: Engine) {
    forall i :: 0 <= i < MAX_EFFECTS && e.effects[i].playing ==> e.effects[i].inUse
  }

  predicate StillDue(e: Engine, dt: u32, n: nat)
    requires dt > 0 && AllFinite(e, dt)
  {
    exists i :: 0 <= i < MAX_EFFECTS && e.effects[i].inUse && e.effects[i].playing && n < TicksLeft(e.effects[i], dt)
  }

  lemma {:induction false} TicksKeepUse(e: Effect, dt: u32, n: nat)
    ensures Ticks(e, dt, n).inUse == e.inUse
    ensures !e.inUse ==> Ticks(e, dt, n) == e
  {
    if n > 0 { TicksKeepUse(e, dt, n - 1); }
  }

  /** Left alone, an engine whose playing effects are all finite needs the clock
      for exactly as many ticks as the longest of them, and never after. */
  lemma {:induction false} ClockRunsDown(e: Engine, dt: u32, n: nat)
    requires !e.paused && dt > 0 && AllFinite(e, dt)
    ensures AdvanceBy(e, dt, n).NeedsTick() <==> StillDue(e, dt, n)
  {
    AdvanceIsTicks(e, dt, n);
    var later := AdvanceBy(e, dt, n);
    forall i | 0 <= i < MAX_EFFECTS
      ensures later.effects[i].inUse && later.effects[i].playing <==>
        e.effects[i].inUse && e.effects[i].playing && n < TicksLeft(e.effects[i], dt)
    {
      TicksKeepUse(e.effects[i], dt, n);
      if e.effects[i].inUse {
        if e.effects[i].playing { PlaysExactly(e.effects[i], dt, n); } else { StaysStopped(e.effects[i], dt, n); }
      }
    }
  }

  // ----- The rumble -------------------------------------------------------

  predicate AllTimely(e: Engine) {
    forall i :: 0 <= i < MAX_EFFECTS ==> Timely(e.effects[i])
  }

  /** Shortening an effect while it plays is the only command that can leave its
      clock beyond its play, and any unpaused tick repairs that. */
  lemma {:induction false} OnlySetEffectOverruns(e: Engine, c: Command)
    ensures AllTimely(e) && !c.SetEffect? ==> AllTimely(e.Apply(c).0)
    ensures c.SetEffect? && AllTimely(e) ==>
      (AllTimely(e.Apply(c).0) <==>
        !(e.Names(c.block) && e.effects[c.block as int - 1].playing && c.duration != 0
          && c.delay + c.duration <= e.effects[c.block as int - 1].elapsed))
    ensures c.Advance? && !e.paused && OnlyUsedPlay(e) ==> AllTimely(e.Apply(c).0)
  {
    match c
    case SetEffect(block, kind, duration, delay, gain) => if AllTimely(e) { SetEffectTimely(e, c); }
    case Advance(dt) => assert forall i :: 0 <= i < MAX_EFFECTS && !e.paused ==> e.Apply(c).0.effects[i] == Tick(e.effects[i], dt);
    case Create(_) =>
    case SetEnvelope(_, _, _, _, _) =>
    case SetCondition(_) =>
    case SetPeriodic(_, _) =>
    case SetConstant(_, _) =>
    case SetRamp(_, _, _) =>
    case Operate(_, _, _) =>
    case Free(_) =>
    case Control(_) =>
    case DeviceGain(_) =>
  }

  lemma {:induction false} SetEffectTimely(e: Engine, c: Command)
    requires c.SetEffect? && AllTimely(e)
    ensures AllTimely(e.Apply(c).0) <==>
      !(e.Names(c.block) && e.effects[c.block as int - 1].playing && c.duration != 0
        && c.delay + c.duration <= e.effects[c.block as int - 1].elapsed)
  {
    if e.Names(c.block) {
      var at := c.block as int - 1;
      var after := e.Apply(c).0.effects;
      assert forall i :: 0 <= i < MAX_EFFECTS && i != at ==> after[i] == e.effects[i];
      assert Timely(after[at]) <==> !(e.effects[at].playing && c.duration != 0 && c.delay + c.duration <= e.effects[at].elapsed);
    }
  }

  /** In every run only blocks in use play. */
  lemma {:induction false} RunOnlyUsedPlay(cs: seq<Command>)
    ensures OnlyUsedPlay(Exec(cs).engine)
  {
    if cs != [] {
      RunOnlyUsedPlay(cs[..|cs| - 1]);
      OnlyUsedPlayStep(Exec(cs[..|cs| - 1]).engine, cs[|cs| - 1]);
    }
  }

  lemma {:induction false} OnlyUsedPlayStep(e: Engine, c: Command)
    requires OnlyUsedPlay(e)
    ensures OnlyUsedPlay(e.Apply(c).0)
  {
    var after := e.Apply(c).0.effects;
    forall i | 0 <= i < MAX_EFFECTS && after[i].playing ensures after[i].inUse {
      match c
      case Advance(dt) => assert after[i] == if e.paused then e.effects[i] else Tick(e.effects[i], dt);
      case Operate(_, _, _) => assert after[i].inUse;
      case Control(_) => assert after[i].inUse;
      case _ => assert after[i].inUse;
    }
  }

  lemma {:induction false} SafeAfterTick(e: Engine, dt: u32, i: nat)
    requires !e.paused && OnlyUsedPlay(e) && i < MAX_EFFECTS
    requires Contributes(Tick(e.effects[i], dt))
    ensures e.Apply(Advance(dt)).0.effects[i] == Tick(e.effects[i], dt)
    ensures Timely(Tick(e.effects[i], dt))
  {}

  lemma {:induction false} ExecNext(cs: seq<Command>, c: Command)
    ensures Exec(cs + [c]).engine == Exec(cs).engine.Apply(c).0
  {
    assert (cs + [c])[..|cs|] == cs;
  }

  /** Right after any unpaused tick of any run, the whole rumble computation of
      every contributing effect is exact and within its envelope. */
  lemma {:induction false} RumbleSafeAfterTick(cs: seq<Command>, dt: u32, i: nat)
    requires !Exec(cs).engine.paused && i < MAX_EFFECTS
    requires Contributes(Exec(cs + [Advance(dt)]).engine.effects[i])
    ensures RumbleSafe(Exec(cs + [Advance(dt)]).engine.effects[i], Exec(cs + [Advance(dt)]).engine.deviceGain)
  {
    RunOnlyUsedPlay(cs);
    var e := Exec(cs).engine;
    ExecNext(cs, Advance(dt));
    assert e.Apply(Advance(dt)).0.effects[i] == Tick(e.effects[i], dt);
    SafeAfterTick(e, dt, i);
    LevelIsSafe(Tick(e.effects[i], dt), e.Apply(Advance(dt)).0.deviceGain);
  }

  /** A one-second constant force, faded to 5000 over its last 100 ms, 900 ms into its play. */
  function Playing(): Effect {
    BLANK.(inUse := true, playing := true, kind := ConstantForce, gain := 255, loops := 1, constant := 10000,
           fadeLevel := 5000, fadeMs := 100, duration := 1000, elapsed := 900)
  }

  function Overrun(): Effect { Playing().(duration := 100) }

  /** Shortening such an effect to 100 ms is accepted and takes its clock out of
      its play until the next tick. */
  lemma {:induction false} ShorteningOverruns(e: Engine, block: uint8)
    requires 1 <= block as int <= MAX_EFFECTS && e.effects[block as int - 1] == Playing()
    ensures e.Apply(SetEffect(block, 1, 100, 0, 255)).1
    ensures e.Apply(SetEffect(block, 1, 100, 0, 255)).0.effects[block as int - 1] == Overrun()
    ensures Timely(Playing()) && !Timely(Overrun())
  {}

  /** The first block holds an effect the host has created, its clock and its parameters as given. */
  predicate First(e: Engine, effect: Effect) {
    e.effects[0] == effect && effect.inUse && e.deviceGain == 255 && !e.paused
  }

  lemma {:induction false} FirstCreated()
    ensures First(PowerOn().Apply(Create(1)).0, BLANK.(inUse := true, kind := ConstantForce, gain := 255))
  {
    assert FirstFree(PowerOn().effects, 0) == 0;
  }

  /** Commands that change the first block, as the constant force it is. */
  predicate Edits(c: Command) {
    match c
    case SetEffect(block, kind, _, _, _) => block == 1 && kind == 1
    case SetEnvelope(block, _, _, _, _) => block == 1
    case SetConstant(block, _) => block == 1
    case Operate(block, operation, _) => block == 1 && operation == 1
    case Advance(_) => true
    case _ => false
  }

  function Edited(effect: Effect, c: Command): Effect
    requires Edits(c)
  {
    match c
    case SetEffect(_, _, duration, delay, gain) => effect.(kind := ConstantForce, duration := duration, delay := delay, gain := gain)
    case SetEnvelope(_, attackLevel, fadeLevel, attackMs, fadeMs) =>
      effect.(attackLevel := attackLevel, fadeLevel := fadeLevel, attackMs := attackMs, fadeMs := fadeMs)
    case SetConstant(_, force) => effect.(constant := force)
    case Operate(_, _, loops) => Started(effect, loops)
    case Advance(dt) => Tick(effect, dt)
  }

  lemma {:induction false} FirstNext(cs: seq<Command>, effect: Effect, c: Command)
    requires First(Exec(cs).engine, effect) && Edits(c)
    ensures First(Exec(cs + [c]).engine, Edited(effect, c))
  {
    ExecNext(cs, c);
  }

  lemma {:induction false} FirstEdited(cs: seq<Command>, effect: Effect, a: Command, b: Command, c: Command, d: Command, e: Command)
    requires First(Exec(cs).engine, effect) && Edits(a) && Edits(b) && Edits(c) && Edits(d) && Edits(e)
    ensures First(Exec(cs + [a] + [b] + [c] + [d] + [e]).engine, Edited(Edited(Edited(Edited(Edited(effect, a), b), c), d), e))
  {
    FirstNext(cs, effect, a);
    FirstNext(cs + [a], Edited(effect, a), b);
    FirstNext(cs + [a] + [b], Edited(Edited(effect, a), b), c);
    FirstNext(cs + [a] + [b] + [c], Edited(Edited(Edited(effect, a), b), c), d);
    FirstNext(cs + [a] + [b] + [c] + [d], Edited(Edited(Edited(Edited(effect, a), b), c), d), e);
  }

  /** What a host sends to get such an effect, 900 ms into its play. */
  function Session(): seq<Command> {
    [Create(1)] + [SetEffect(1, 1, 1000, 0, 255)] + [SetEnvelope(1, 0, 5000, 0, 100)] + [SetConstant(1, 10000)]
    + [Operate(1, 1, 1)] + [Advance(900)]
  }

  lemma {:induction false} FirstOfAll()
    ensures First(Exec([Create(1)]).engine, BLANK.(inUse := true, kind := ConstantForce, gain := 255))
  {
    assert [] + [Create(1)] == [Create(1)];
    ExecNext([], Create(1));
    FirstCreated();
  }

  /** The effect plays after the six commands, and overruns after the seventh: the
      overrun is reached by a run from power-on. */
  lemma {:induction false} ARunOverruns()
    ensures First(Exec(Session()).engine, Playing()) && Timely(Playing())
    ensures First(Exec(Session() + [SetEffect(1, 1, 100, 0, 255)]).engine, Overrun()) && !Timely(Overrun())
  {
    FirstOfAll();
    FirstEdited([Create(1)], BLANK.(inUse := true, kind := ConstantForce, gain := 255), SetEffect(1, 1, 1000, 0, 255),
                SetEnvelope(1, 0, 5000, 0, 100), SetConstant(1, 10000), Operate(1, 1, 1), Advance(900));
    FirstNext(Session(), Playing(), SetEffect(1, 1, 100, 0, 255));
  }

  /** Meanwhile it escapes its envelope: every level it was given is at least
      5000, but the fade runs past its end and the motor falls silent. */
  lemma {:induction false} OverrunIsSilent()
    ensures Contributes(Overrun()) && Magnitude(Overrun(), 900) == 10000 && Overrun().fadeLevel == 5000
    ensures Level(Overrun(), 255) == 0
  {
    assert TruncDiv((5000 - 10000) * 900, 100) == -45000;
    assert Faded(Overrun(), 900, 10000) == -35000;
    assert ApplyEnvelope(Overrun(), 900, 10000) == 0;
  }

  /** Each motor runs at the level of its strongest contributing effect, and
      rests when there is none. */
  lemma {:induction false} StrongestIsMaximum(s: Blocks, n: nat, gain: uint8, periodic: bool)
    requires n <= MAX_EFFECTS
    ensures forall i :: 0 <= i < n && Drives(s[i], periodic) ==> Level(s[i], gain) <= Strongest(s, n, gain, periodic)
    ensures Strongest(s, n, gain, periodic) == 0
      || exists i :: 0 <= i < n && Drives(s[i], periodic) && Level(s[i], gain) == Strongest(s, n, gain, periodic)
  {
    if n > 0 { StrongestIsMaximum(s, n - 1, gain, periodic); }
  }
}
