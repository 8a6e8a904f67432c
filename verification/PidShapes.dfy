/** How strongly the motors run: an effect from its creation to the motor, the
    proportions of gains, envelopes and ramps, and effects that never end. */
module PidShapes {
  import opened Ring
  import opened PidEffects
  import opened PidEngines
  import opened PidRuns
  import opened PidControl

  // ----- Proportions ------------------------------------------------------

  predicate Within(x: int, bound: int) { 0 - bound < x < bound }

  /** A truncated quotient is less than one away from the true one. */
  lemma {:induction false} NearQuotient(a: int, b: nat)
    requires b > 0
    ensures Within(a - TruncDiv(a, b) * b, b)
  {
    if a >= 0 { Division(a, b); } else { Division(-a, b); }
  }

  lemma {:induction false} Division(a: nat, b: nat)
    requires b > 0
    ensures 0 <= a - a / b * b < b
  {
    assert a == a / b * b + a % b;
  }

  /** During the attack the level moves in a straight line from the attack level to
      the force, to within one unit. */
  lemma {:induction false} AttackIsStraight(e: Effect, active: u32, force: int)
    requires e.attackMs > 0 && active < e.attackMs && 0 <= force < 0x1_0000
    ensures var done := (force - e.attackLevel) * active;
      Within(done - (Attack(e, active, force) - e.attackLevel) * e.attackMs, e.attackMs)
  {
    Interpolates(force - e.attackLevel, active, e.attackMs);
    NearQuotient((force - e.attackLevel) * active, e.attackMs);
  }

  /** So it does during the fade, from the force to the fade level. */
  lemma {:induction false} FadeIsStraight(e: Effect, active: u32, force: int)
    requires Fading(e, active) && active <= e.duration && 0 <= force < 0x1_0000
    ensures var first, span := if e.duration > e.fadeMs then e.duration - e.fadeMs else 0, Min(e.fadeMs, e.duration);
      var done := (e.fadeLevel - force) * (active - first);
      Within(done - (Faded(e, active, force) - force) * span, span)
  {
    var span := Min(e.fadeMs, e.duration);
    assert span == e.duration - FadeStart(e);
    Interpolates(e.fadeLevel - force, active - FadeStart(e), span);
    NearQuotient((e.fadeLevel - force) * (active - FadeStart(e)), span);
  }

  /** And so does a ramp over its whole duration. */
  lemma {:induction false} RampIsStraight(e: Effect, active: u32)
    requires 0 < e.duration && active <= e.duration
    ensures var done := (e.rampEnd - e.rampStart) * active;
      Within(done - (RampValue(e, active) - e.rampStart) * e.duration, e.duration)
  {
    Interpolates(e.rampEnd - e.rampStart, active, e.duration);
    NearQuotient((e.rampEnd - e.rampStart) * active, e.duration);
  }

  lemma {:induction false} ScaleBounds(level: nat, gain: nat, deviceGain: nat)
    requires gain <= 255 && deviceGain <= 255
    ensures level * gain * deviceGain - 129540 <= level * gain / 255 * deviceGain / 255 * 65025 <= level * gain * deviceGain
  {
    var a := level * gain / 255;
    var b := a * deviceGain / 255;
    assert level * gain - 254 <= 255 * a <= level * gain;
    assert a * deviceGain - 254 <= 255 * b <= a * deviceGain;
    Times(255 * a, level * gain, deviceGain);
    Times(level * gain - 254, 255 * a, deviceGain);
    assert 255 * a * deviceGain == 255 * (a * deviceGain);
    assert (level * gain - 254) * deviceGain == level * gain * deviceGain - 254 * deviceGain;
  }

  lemma {:induction false} Times(a: int, b: int, n: nat)
    requires a <= b
    ensures a * n <= b * n
  {}

  /** What an effect asks of its motor is its enveloped force times both gains, over
      255 each, to within two units. */
  lemma {:induction false} GainsMultiply(e: Effect, deviceGain: uint8)
    requires Contributes(e)
    ensures var active: u32 := e.elapsed - e.delay;
      var product := ApplyEnvelope(e, active, Magnitude(e, active)) * e.gain as int * deviceGain as int;
      product - 2 * 65025 < Level(e, deviceGain) * 65025 <= product
  {
    var active: u32 := e.elapsed - e.delay;
    var level := ApplyEnvelope(e, active, Magnitude(e, active));
    ScaleBounds(level, e.gain as nat, deviceGain as nat);
    GainLowers(level, e.gain);
    GainLowers(level * e.gain as int / 255, deviceGain);
  }

  /** The motor value is the level in its own range, to within one unit. */
  lemma {:induction false} RumbleIsProportional(level: int)
    requires 0 <= level <= NOMINAL_MAX
    ensures 0 <= level * 65535 - ToRumble(level) * 10000 < 10000
  {}

  // ----- Motors -----------------------------------------------------------

  lemma {:induction false} OnlyDriver(s: Blocks, n: nat, at: nat, gain: uint8, periodic: bool)
    requires n <= MAX_EFFECTS && at < MAX_EFFECTS && forall i :: 0 <= i < n && i != at ==> !Contributes(s[i])
    ensures Strongest(s, n, gain, periodic) == if at < n && Drives(s[at], periodic) then Max(0, Level(s[at], gain)) else 0
  {
    if n > 0 { OnlyDriver(s, n - 1, at, gain, periodic); }
  }

  /** An effect that plays alone drives its own motor at its level and leaves the
      other one at rest. */
  lemma {:induction false} AloneOnItsMotor(e: Engine, at: nat)
    requires e.actuators && !e.paused && at < MAX_EFFECTS && Contributes(e.effects[at])
    requires forall i :: 0 <= i < MAX_EFFECTS && i != at ==> !Contributes(e.effects[i])
    ensures var level := ToRumble(Level(e.effects[at], e.deviceGain));
      e.Output() == if IsPeriodic(e.effects[at].kind) then Rumble(0, level) else Rumble(level, 0)
  {
    OnlyDriver(e.effects, MAX_EFFECTS, at, e.deviceGain, false);
    OnlyDriver(e.effects, MAX_EFFECTS, at, e.deviceGain, true);
    GainLowers(ApplyEnvelope(e.effects[at], e.effects[at].elapsed - e.effects[at].delay,
                             Magnitude(e.effects[at], e.effects[at].elapsed - e.effects[at].delay)), e.effects[at].gain);
  }

  lemma {:induction false} NothingAtZero(s: Blocks, n: nat, periodic: bool)
    requires n <= MAX_EFFECTS
    ensures Strongest(s, n, 0, periodic) == 0
  {
    if n > 0 {
      NothingAtZero(s, n - 1, periodic);
      if Contributes(s[n - 1]) { GainsScale(s[n - 1], 0); }
    }
  }

  /** Turning the device gain down to zero silences both motors; no effect changes. */
  lemma {:induction false} GainZeroSilences(e: Engine)
    ensures var e' := e.Apply(DeviceGain(0)).0;
      e'.Output() == Rumble(0, 0) && e'.effects == e.effects
  {
    NothingAtZero(e.effects, MAX_EFFECTS, false);
    NothingAtZero(e.effects, MAX_EFFECTS, true);
  }

  /** The block is created, given a force, and started. */
  function Constant(e: Engine, force: i16, loops: uint8): Engine {
    var created := e.Apply(Create(1)).0;
    var shaped := created.Apply(SetConstant(created.lastAllocated, force)).0;
    shaped.Apply(Operate(created.lastAllocated, 1, loops)).0
  }

  lemma {:induction false} ConstantPlays(e: Engine, force: i16, loops: uint8)
    requires e.Apply(Create(1)).1
    ensures var e', at := Constant(e, force, loops), e.Apply(Create(1)).0.lastAllocated as int - 1;
      && 0 <= at < MAX_EFFECTS && e' == e.(effects := e'.effects, lastAllocated := e'.lastAllocated, lastStatus := e'.lastStatus)
      && e'.effects[at] == BLANK.(inUse := true, playing := true, kind := ConstantForce, gain := 255, constant := force, loops := loops)
      && forall i :: 0 <= i < MAX_EFFECTS && i != at ==> e'.effects[i] == e.effects[i]
  {
    CreateOutcome(e, 1);
  }

  /** From creation to the motor: a constant force that a host creates, sets and starts
      beside nothing else runs the strong motor at its size at once, whichever
      way it points, and the weak one not at all. */
  lemma {:induction false} ConstantIsFelt(e: Engine, force: i16, loops: uint8)
    requires e.actuators && !e.paused && e.deviceGain == 255 && e.Apply(Create(1)).1
    requires forall i :: 0 <= i < MAX_EFFECTS ==> !Contributes(e.effects[i])
    ensures Constant(e, force, loops).Output() == Rumble(ToRumble(if force < 0 then -(force as int) else force), 0)
  {
    ConstantPlays(e, force, loops);
    var at := e.Apply(Create(1)).0.lastAllocated as int - 1;
    AloneOnItsMotor(Constant(e, force, loops), at);
    GainsScale(Constant(e, force, loops).effects[at], 255);
  }

  // ----- Creation ---------------------------------------------------------

  /** What Block Load then reports: success with the block handed out, full when the
      type is known but every block is in use, and an error for an unknown type. */
  lemma {:induction false} LoadStatusIsTrue(e: Engine, kind: uint8)
    ensures var (e', ok) := e.Apply(Create(kind));
      && (e'.lastStatus == 1 <==> ok)
      && (e'.lastStatus == 2 <==> 1 <= kind <= 12 && forall i :: 0 <= i < MAX_EFFECTS ==> e.effects[i].inUse)
      && (e'.lastStatus == 3 <==> kind == 0 || kind > 12)
      && (!ok ==> e'.effects == e.effects && e'.lastAllocated == e.lastAllocated)
  {
    CreateOutcome(e, kind);
  }

  // ----- Endless effects --------------------------------------------------

  predicate Endless(e: Effect) { e.inUse && e.playing && (e.duration == 0 || e.loops == FOREVER) }

  /** An effect without a duration, or with the endless loop count, plays until a
      command stops it. */
  lemma {:induction false} EndlessPlays(e: Effect, dt: u32, n: nat)
    requires Endless(e)
    ensures Endless(Ticks(e, dt, n))
    ensures Ticks(e, dt, n) == e.(elapsed := Ticks(e, dt, n).elapsed)
  {
    if n > 0 { EndlessPlays(e, dt, n - 1); }
  }

  /** Playing on past the delay, an effect never waits for it again: a loop begins
      right behind it. */
  lemma {:induction false} LoopsSkipTheDelay(e: Effect, dt: u32)
    requires e.inUse && e.playing && e.delay <= e.elapsed && e.elapsed + dt < TWO_TO_32
    ensures Tick(e, dt).playing ==> e.delay <= Tick(e, dt).elapsed
    ensures Tick(e, dt).playing && e.duration != 0 && e.elapsed + dt >= e.delay + e.duration ==> Tick(e, dt).elapsed == e.delay
  {}
}
