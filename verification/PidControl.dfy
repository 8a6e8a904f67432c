/** What a host can rely on when it plays, stops, pauses and shapes effects, said
    through what plays and what the motors do, for every sequence of commands. */
module PidControl {
  import opened Ring
  import opened PidEffects
  import opened PidEngines
  import opened PidRuns

  // ----- Runs -------------------------------------------------------------

  function After(e: Engine, cs: seq<Command>): Engine {
    if cs == [] then e else After(e, cs[..|cs| - 1]).Apply(cs[|cs| - 1]).0
  }

  lemma {:induction false} ExecAfter(cs: seq<Command>, more: seq<Command>)
    ensures Exec(cs + more).engine == After(Exec(cs).engine, more)
  {
    if more == [] {
      assert cs + more == cs;
    } else {
      var n := |more| - 1;
      assert cs + more == (cs + more[..n]) + [more[n]];
      ExecAfter(cs, more[..n]);
      ExecNext(cs + more[..n], more[n]);
    }
  }

  // ----- Stopping ---------------------------------------------------------

  predicate Plays(e: Engine, block: uint8) { 1 <= block as int <= MAX_EFFECTS && e.effects[block as int - 1].playing }

  predicate StartsBlock(c: Command, block: uint8) {
    c.Operate? && c.block == block && (c.operation == 1 || c.operation == 2)
  }

  /** Only a start that names it makes a block play. */
  lemma {:induction false} StaysStill(e: Engine, c: Command, block: uint8)
    requires !Plays(e, block) && !StartsBlock(c, block)
    ensures !Plays(e.Apply(c).0, block)
  {
    if 1 <= block as int <= MAX_EFFECTS {
      match c
      case Operate(_, _, _) =>
      case Control(_) =>
      case Advance(dt) =>
      case _ =>
    }
  }

  lemma {:induction false} StaysStillAfter(e: Engine, cs: seq<Command>, block: uint8)
    requires !Plays(e, block) && forall c :: c in cs ==> !StartsBlock(c, block)
    ensures !Plays(After(e, cs), block)
  {
    if cs != [] {
      StaysStillAfter(e, cs[..|cs| - 1], block);
      assert cs[|cs| - 1] in cs;
      StaysStill(After(e, cs[..|cs| - 1]), cs[|cs| - 1], block);
    }
  }

  /** A stop stops: from an accepted one on, until a start names the block again, it
      neither plays nor moves a motor, whatever else the host sends. */
  lemma {:induction false} StopHolds(cs: seq<Command>, block: uint8, loops: uint8, more: seq<Command>)
    requires Exec(cs).engine.Apply(Operate(block, 3, loops)).1
    requires forall c :: c in more ==> !StartsBlock(c, block)
    ensures 1 <= block as int <= MAX_EFFECTS
    ensures var e := Exec(cs + [Operate(block, 3, loops)] + more).engine.effects[block as int - 1];
      !e.playing && !Contributes(e)
  {
    ExecNext(cs, Operate(block, 3, loops));
    ExecAfter(cs + [Operate(block, 3, loops)], more);
    StaysStillAfter(Exec(cs + [Operate(block, 3, loops)]).engine, more, block);
  }

  /** A stopped effect is rewound and otherwise kept, so that a later start plays it as
      it was shaped. */
  lemma {:induction false} StopRewinds(e: Engine, block: uint8, loops: uint8)
    ensures var (e', ok) := e.Apply(Operate(block, 3, loops));
      && (ok <==> 1 <= block as int <= MAX_EFFECTS && e.effects[block as int - 1].inUse)
      && (ok ==> e' == e.(effects := e.effects[block as int - 1 := e.effects[block as int - 1].(playing := false, elapsed := 0)]))
  {}

  lemma {:induction false} SilentWhenStill(e: Engine, n: nat, periodic: bool)
    requires n <= MAX_EFFECTS && forall i :: 0 <= i < n ==> !e.effects[i].playing
    ensures Strongest(e.effects, n, e.deviceGain, periodic) == 0
  {
    if n > 0 { SilentWhenStill(e, n - 1, periodic); }
  }

  predicate AllStill(e: Engine) { forall i :: 0 <= i < MAX_EFFECTS ==> !e.effects[i].playing }

  lemma {:induction false} StillIsSilent(e: Engine)
    requires AllStill(e)
    ensures !e.NeedsTick() && e.Output() == Rumble(0, 0)
  {
    SilentWhenStill(e, MAX_EFFECTS, false);
    SilentWhenStill(e, MAX_EFFECTS, true);
  }

  lemma {:induction false} StopsAll(e: Engine, control: uint8)
    requires control == 3 || control == 4
    ensures e.Apply(Control(control)).1 && AllStill(e.Apply(Control(control)).0)
  {}

  /** Stopping every effect, or resetting the device, leaves nothing to play and the
      motors at rest, in every state. */
  lemma {:induction false} StopAllSilences(e: Engine, control: uint8)
    requires control == 3 || control == 4
    ensures var (e', ok) := e.Apply(Control(control));
      ok && !e'.NeedsTick() && e'.Output() == Rumble(0, 0)
  {
    StopsAll(e, control);
    StillIsSilent(e.Apply(Control(control)).0);
  }

  /** A start plays its block from the beginning with the loops asked for, and leaves
      every other block alone; a solo start leaves only it playing. */
  lemma {:induction false} StartPlays(e: Engine, block: uint8, operation: uint8, loops: uint8)
    requires operation == 1 || operation == 2
    ensures var (e', ok) := e.Apply(Operate(block, operation, loops));
      && (ok <==> 1 <= block as int <= MAX_EFFECTS && e.effects[block as int - 1].inUse)
      && (ok ==>
            var at := block as int - 1;
            && e'.effects[at] == e.effects[at].(playing := true, elapsed := 0, loops := loops)
            && (operation == 1 ==> forall i :: 0 <= i < MAX_EFFECTS && i != at ==> e'.effects[i] == e.effects[i])
            && (operation == 2 ==> forall i :: 0 <= i < MAX_EFFECTS ==> (e'.effects[i].playing <==> i == at)))
      && (!ok ==> e' == e)
  {}

  /** What the engine accepts: blocks the host has created, the three operations, the
      six controls and any gain. What it refuses changes nothing but the load status. */
  lemma {:induction false} AcceptedExactly(e: Engine, c: Command)
    ensures var (e', ok) := e.Apply(c);
      && (c.Operate? ==> (ok <==> e.Names(c.block) && 1 <= c.operation <= 3))
      && (c.Free? ==> (ok <==> e.Names(c.block)))
      && (c.Control? ==> (ok <==> 1 <= c.control <= 6))
      && (c.DeviceGain? || c.Advance? ==> ok)
      && (!ok ==> e' == if c.Create? then e.(lastStatus := e'.lastStatus) else e)
  {
    match c
    case Create(kind) => CreateOutcome(e, kind);
    case _ =>
  }

  /** A reset device is as it was switched on: no block in use, the whole pool free, full
      gain, the actuators on and nothing paused. */
  lemma {:induction false} ResetRestores(e: Engine)
    ensures var e' := e.Apply(Control(4)).0;
      && e' == Exec([]).engine && e'.deviceGain == 255 && e'.actuators && !e'.paused && e'.lastAllocated == 0
      && e'.PoolAvailable() == 1024 && forall i :: 0 <= i < MAX_EFFECTS ==> !e'.effects[i].inUse && !e'.effects[i].playing
  {
    NoneInUse(AllBlank(), MAX_EFFECTS);
  }

  /** The device gain is the one set last, and nothing else. */
  lemma {:induction false} GainIsSet(e: Engine, gain: uint8)
    ensures e.Apply(DeviceGain(gain)).0 == e.(deviceGain := gain)
  {}

  // ----- Pausing ----------------------------------------------------------

  predicate OnlyTime(cs: seq<Command>) { forall c :: c in cs ==> c.Advance? }

  lemma {:induction false} TimeStandsStill(e: Engine, cs: seq<Command>)
    requires e.paused && OnlyTime(cs)
    ensures After(e, cs) == e
  {
    if cs != [] {
      TimeStandsStill(e, cs[..|cs| - 1]);
      assert cs[|cs| - 1] in cs;
    }
  }

  /** A pause silences the motors, and however long it lasts the device goes on as if
      it had not happened. */
  lemma {:induction false} PauseIsTransparent(e: Engine, cs: seq<Command>)
    requires !e.paused && OnlyTime(cs)
    ensures var paused := After(e.Apply(Control(5)).0, cs);
      paused.Output() == Rumble(0, 0) && paused.Apply(Control(6)).0 == e
  {
    TimeStandsStill(e.Apply(Control(5)).0, cs);
  }

  /** Switching the actuators off silences the motors but not the clock: switching them
      on again finds the effects where time has brought them. */
  lemma {:induction false} SwitchedOffKeepsTime(e: Engine, dt: u32)
    requires e.actuators
    ensures var off := e.Apply(Control(2)).0;
      && off.Output() == Rumble(0, 0)
      && off.Apply(Advance(dt)).0.Output() == Rumble(0, 0)
      && off.Apply(Advance(dt)).0.Apply(Control(1)).0 == e.Apply(Advance(dt)).0
  {}

  // ----- Shaping ----------------------------------------------------------

  /** The motor of an effect type by its number in the reports: the strong one for
      constant force and ramp, the weak one for the five waveforms, none for the rest. */
  lemma {:induction false} MotorOfType(e: Engine, kind: uint8)
    ensures var (e', ok) := e.Apply(Create(kind));
      ok ==>
        var effect := e'.effects[e'.lastAllocated as int - 1].(playing := true);
        && (Drives(effect, false) <==> kind == 1 || kind == 2)
        && (Drives(effect, true) <==> 3 <= kind <= 7)
  {}

  predicate ShapesBlock(c: Command) {
    c.SetEffect? || c.SetEnvelope? || c.SetCondition? || c.SetPeriodic? || c.SetConstant? || c.SetRamp?
  }

  /** A parameter report is accepted exactly for a created block. It never moves a
      block's clock, and touches no other block and nothing of the device. */
  lemma {:induction false} ShapingIsLocal(e: Engine, c: Command)
    requires ShapesBlock(c)
    ensures var (e', ok) := e.Apply(c);
      && (ok <==> 1 <= c.block as int <= MAX_EFFECTS && e.effects[c.block as int - 1].inUse)
      && e' == e.(effects := e'.effects)
      && (forall i :: 0 <= i < MAX_EFFECTS && (!ok || i != c.block as int - 1) ==> e'.effects[i] == e.effects[i])
      && (forall i :: 0 <= i < MAX_EFFECTS ==>
            var was, now := e.effects[i], e'.effects[i];
            now.inUse == was.inUse && now.playing == was.playing && now.elapsed == was.elapsed && now.loops == was.loops)
  {}

  /** A constant force is felt by its size, in either direction, and a waveform by its amplitude. */
  lemma {:induction false} ForcesAreFelt(e: Engine, block: uint8, force: i16, amplitude: u16, active: u32)
    requires e.Names(block)
    ensures var at := block as int - 1;
      && (e.effects[at].kind == ConstantForce ==>
            var m := Magnitude(e.Apply(SetConstant(block, force)).0.effects[at], active);
            m >= 0 && (m == force || m + force == 0))
      && (IsPeriodic(e.effects[at].kind) ==> Magnitude(e.Apply(SetPeriodic(block, amplitude)).0.effects[at], active) == amplitude)
  {}

  lemma {:induction false} WholeSpan(span: int, length: nat)
    requires length > 0
    ensures TruncDiv(span * length, length) == span && TruncDiv(span * 0, length) == 0
  {
    if span >= 0 { Cancels(span, length); } else { Cancels(-span, length); assert span * length == -((-span) * length); }
  }

  lemma {:induction false} Cancels(a: nat, b: nat)
    requires b > 0
    ensures a * b >= 0 && a * b / b == a
  {
    var q := a * b / b;
    assert (a - q) * b == a * b % b;
    if a - q >= 1 { AtLeastOnce(a - q, b); } else if q - a >= 1 { AtLeastOnce(q - a, b); }
  }

  /** A ramp runs from its start to its end over the duration, holds there, and is felt
      by its size. */
  lemma {:induction false} RampRuns(e: Engine, block: uint8, first: i16, last: i16, active: u32)
    requires e.Names(block) && e.effects[block as int - 1].duration != 0
    ensures var effect := e.Apply(SetRamp(block, first, last)).0.effects[block as int - 1];
      && RampValue(effect, 0) == first && (active >= effect.duration ==> RampValue(effect, active) == last)
      && (effect.kind == Ramp ==>
            var m := Magnitude(effect, active);
            m >= 0 && (m == RampValue(effect, active) || m + RampValue(effect, active) == 0))
  {
    WholeSpan(last - first, e.effects[block as int - 1].duration);
  }

  /** An envelope starts a play at its attack level, ends it at its fade level, and
      leaves the force alone between attack and fade. */
  lemma {:induction false} EnvelopeRuns(e: Engine, c: Command, active: u32, force: int)
    requires c.SetEnvelope? && e.Names(c.block) && 0 <= force <= NOMINAL_MAX
    ensures var effect := e.Apply(c).0.effects[c.block as int - 1];
      var fades := effect.duration != 0 && c.fadeMs != 0;
      && (c.attackMs > 0 && !(fades && effect.duration <= c.fadeMs) ==> ApplyEnvelope(effect, 0, force) == Clamp(c.attackLevel))
      && (fades && c.attackMs <= effect.duration ==>
            ApplyEnvelope(effect, effect.duration, force) == if c.fadeLevel < force then c.fadeLevel else force)
      && (active >= c.attackMs && !(fades && active + c.fadeMs >= effect.duration) ==> ApplyEnvelope(effect, active, force) == force)
  {
    var effect := e.Apply(c).0.effects[c.block as int - 1];
    if c.attackMs > 0 { WholeSpan(force - c.attackLevel, c.attackMs); }
    if effect.duration != 0 && c.fadeMs != 0 { WholeSpan(c.fadeLevel - force, effect.duration - FadeStart(effect)); }
  }

  /** A delayed effect does not contribute before its delay is over, and one that plays
      and renders does from then on. */
  lemma {:induction false} DelayIsKept(e: Engine, c: Command)
    requires c.SetEffect? && e.Names(c.block)
    ensures var effect := e.Apply(c).0.effects[c.block as int - 1];
      effect.playing && Renders(effect.kind) ==> (Contributes(effect) <==> c.delay <= effect.elapsed)
  {}

  lemma {:induction false} ScaleEnds(level: nat, gain: int, deviceGain: int)
    requires 0 <= gain <= 255 && 0 <= deviceGain <= 255
    ensures gain == 255 && deviceGain == 255 ==> level * gain / 255 * deviceGain / 255 == level
    ensures gain == 0 || deviceGain == 0 ==> level * gain / 255 * deviceGain / 255 == 0
  {
    if gain == 255 {
      Cancels(level, 255);
    } else if gain == 0 {
      assert level * gain == 0;
    }
    if deviceGain == 0 { assert level * gain / 255 * deviceGain == 0; }
  }

  /** With both gains full an effect is felt as its envelope says; with either at zero
      it is not felt at all. */
  lemma {:induction false} GainsScale(e: Effect, deviceGain: uint8)
    requires Contributes(e)
    ensures var active: u32 := e.elapsed - e.delay;
      && (e.gain == 255 && deviceGain == 255 ==> Level(e, deviceGain) == ApplyEnvelope(e, active, Magnitude(e, active)))
      && (e.gain == 0 || deviceGain == 0 ==> Level(e, deviceGain) == 0)
  {
    var active: u32 := e.elapsed - e.delay;
    ScaleEnds(ApplyEnvelope(e, active, Magnitude(e, active)), e.gain as int, deviceGain as int);
  }

  /** The motors' range: rest at zero, full at the nominal maximum, and never weaker for more. */
  lemma {:induction false} RumbleRange(a: int, b: int)
    ensures ToRumble(0) == 0 && ToRumble(NOMINAL_MAX) == 65535
    ensures a <= b ==> ToRumble(a) <= ToRumble(b)
  {}
}
