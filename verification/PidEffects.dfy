/** One force-feedback effect block: its clock, its envelope and the rumble it
    asks for, in the widths the engine uses. */
module PidEffects {
  import opened Ring

  type u16 = x: int | 0 <= x < 0x1_0000
  type u32 = x: int | 0 <= x < 0x1_0000_0000
  type i16 = x: int | -0x8000 <= x < 0x8000

  const NOMINAL_MAX := 10000
  const FOREVER: uint8 := 0xFF

  datatype EffectType =
    | NoEffect | ConstantForce | Ramp | Square | Sine | Triangle | SawtoothUp | SawtoothDown
    | Spring | Damper | Inertia | Friction | CustomForceData

  datatype Effect = Effect(
    inUse: bool,
    playing: bool,
    kind: EffectType,
    duration: u16,
    delay: u16,
    gain: uint8,
    loops: uint8,
    constant: i16,
    periodic: u16,
    rampStart: i16,
    rampEnd: i16,
    attackLevel: u16,
    fadeLevel: u16,
    attackMs: u16,
    fadeMs: u16,
    elapsed: u32)

  const BLANK := Effect(false, false, NoEffect, 0, 0, 0, 0, 0, 0, 0, 0, 0, 0, 0, 0, 0)

  // ----- The clock --------------------------------------------------------

  function Total(e: Effect): (t: int)
    ensures 0 <= t < 0x2_0000
  {
    e.delay + e.duration
  }

  /** One unpaused clock tick of `dt` milliseconds; `elapsed` is 32 bits wide. */
  function Tick(e: Effect, dt: u32): Effect {
    if !e.inUse || !e.playing then e
    else
      var now: u32 := (e.elapsed + dt) % TWO_TO_32;
      if e.duration == 0 || now < Total(e) then e.(elapsed := now)
      else if e.loops == FOREVER then e.(elapsed := e.delay)
      else if e.loops > 1 then e.(loops := e.loops - 1, elapsed := e.delay)
      else e.(playing := false, elapsed := 0)
  }

  function Ticks(e: Effect, dt: u32, n: nat): Effect {
    if n == 0 then e else Tick(Ticks(e, dt, n - 1), dt)
  }

  function CeilDiv(a: nat, b: nat): (c: nat)
    requires b > 0
  {
    (a + b - 1) / b
  }

  lemma {:induction false} CeilDivStep(a: nat, b: nat)
    requires b > 0
    ensures a > b ==> CeilDiv(a, b) == CeilDiv(a - b, b) + 1
    ensures 0 < a <= b ==> CeilDiv(a, b) == 1
  {
    if a > b {
      assert a + b - 1 == (a - 1) + b;
      DivPlusOne(a - 1, b);
    } else if a > 0 {
      DivPlusOne(a - 1, b);
      SmallDiv(a - 1, b);
    }
  }

  lemma {:induction false} DivPlusOne(a: nat, b: nat)
    requires b > 0
    ensures (a + b) / b == a / b + 1
  {
    var q, q' := a / b, (a + b) / b;
    var d := q' - (q + 1);
    assert d * b == a % b - (a + b) % b by {
      assert a == q * b + a % b;
      assert a + b == q' * b + (a + b) % b;
      assert d * b == q' * b - q * b - b;
    }
    if d != 0 { AtLeastOnce(if d > 0 then d else -d, b); }
  }

  lemma {:induction false} AtLeastOnce(d: nat, b: nat)
    requires d >= 1
    ensures d * b >= b
  {}

  lemma {:induction false} SmallDiv(a: nat, b: nat)
    requires a < b
    ensures a / b == 0
  {}

  /** A finite effect that is playing and inside its current play. */
  predicate Finite(e: Effect) {
    e.inUse && e.playing && e.duration != 0 && e.loops != FOREVER && e.elapsed < Total(e)
  }

  function PlaysLeft(e: Effect): (n: nat)
    ensures n >= 1
  {
    if e.loops > 1 then e.loops as nat else 1
  }

  /** How many more ticks a finite effect plays. */
  function TicksLeft(e: Effect, dt: u32): (n: nat)
    requires Finite(e) && dt > 0
  {
    CeilDiv(Total(e) - e.elapsed, dt) + (PlaysLeft(e) - 1) * CeilDiv(e.duration, dt)
  }

  /** The 32-bit clock does not wrap: neither now nor when a loop restarts. */
  predicate ClockFits(e: Effect, dt: u32) {
    e.elapsed + dt < TWO_TO_32 && (e.loops <= 1 || e.delay + dt < TWO_TO_32)
  }

  lemma {:induction false} TickCountsDown(e: Effect, dt: u32)
    requires Finite(e) && dt > 0 && ClockFits(e, dt)
    ensures var e' := Tick(e, dt);
      if e'.playing then Finite(e') && ClockFits(e', dt) && TicksLeft(e', dt) == TicksLeft(e, dt) - 1
      else TicksLeft(e, dt) == 1
  {
    var e', left := Tick(e, dt), Total(e) - e.elapsed;
    CeilDivStep(left, dt);
    if dt < left {
      assert e'.elapsed == e.elapsed + dt && Total(e') - e'.elapsed == left - dt;
    } else if e.loops > 1 {
      assert PlaysLeft(e) - 1 == PlaysLeft(e');
      assert Total(e') - e'.elapsed == e.duration;
      MulStep(PlaysLeft(e) - 1, CeilDiv(e.duration, dt));
    } else {
      assert PlaysLeft(e) == 1;
    }
  }

  lemma {:induction false} MulStep(n: nat, c: nat)
    requires n >= 1
    ensures n * c == c + (n - 1) * c
  {}

  lemma {:induction false} PlaysUntil(e: Effect, dt: u32, k: nat)
    requires Finite(e) && dt > 0 && ClockFits(e, dt) && k < TicksLeft(e, dt)
    ensures var e' := Ticks(e, dt, k);
      Finite(e') && ClockFits(e', dt) && TicksLeft(e', dt) == TicksLeft(e, dt) - k
  {
    if k > 0 {
      PlaysUntil(e, dt, k - 1);
      TickCountsDown(Ticks(e, dt, k - 1), dt);
    }
  }

  lemma {:induction false} StaysStopped(e: Effect, dt: u32, n: nat)
    requires !e.playing
    ensures Ticks(e, dt, n) == e
  {
    if n > 0 { StaysStopped(e, dt, n - 1); }
  }

  lemma {:induction false} TicksAdd(e: Effect, dt: u32, m: nat, n: nat)
    ensures Ticks(e, dt, m + n) == Ticks(Ticks(e, dt, m), dt, n)
  {
    if n > 0 { TicksAdd(e, dt, m, n - 1); }
  }

  lemma {:induction false} SomeTicksLeft(e: Effect, dt: u32)
    requires Finite(e) && dt > 0
    ensures TicksLeft(e, dt) >= 1
  {
    CeilIsPositive(Total(e) - e.elapsed, dt);
    AtLeast(CeilDiv(Total(e) - e.elapsed, dt), PlaysLeft(e) - 1, CeilDiv(e.duration, dt));
  }

  lemma {:induction false} CeilIsPositive(a: nat, b: nat)
    requires 0 < a && b > 0
    ensures CeilDiv(a, b) >= 1
  {
    CeilDivStep(a, b);
  }

  lemma {:induction false} AtLeast(c: nat, n: nat, m: nat)
    ensures c + n * m >= c
  {}

  lemma {:induction false} StopsAfterLast(e: Effect, dt: u32)
    requires Finite(e) && dt > 0 && ClockFits(e, dt)
    ensures !Ticks(e, dt, TicksLeft(e, dt)).playing
  {
    var left := TicksLeft(e, dt);
    SomeTicksLeft(e, dt);
    PlaysUntil(e, dt, left - 1);
    var last := Ticks(e, dt, left - 1);
    TickCountsDown(last, dt);
    if Tick(last, dt).playing { SomeTicksLeft(Tick(last, dt), dt); }
  }

  /** A finite effect left alone plays for exactly `TicksLeft` ticks. */
  lemma {:induction false} PlaysExactly(e: Effect, dt: u32, n: nat)
    requires Finite(e) && dt > 0 && ClockFits(e, dt)
    ensures Ticks(e, dt, n).playing <==> n < TicksLeft(e, dt)
  {
    var left := TicksLeft(e, dt);
    if n < left {
      PlaysUntil(e, dt, n);
    } else {
      StopsAfterLast(e, dt);
      TicksAdd(e, dt, left, n - left);
      StaysStopped(Ticks(e, dt, left), dt, n - left);
    }
  }

  /** An effect the host has just started with a finite duration and loop count. */
  predicate JustStarted(e: Effect) {
    e.inUse && e.playing && e.duration != 0 && e.loops != FOREVER && e.elapsed == 0
  }

  function PlayTicks(e: Effect, dt: u32): (n: nat)
    requires dt > 0
  {
    CeilDiv(Total(e), dt) + (PlaysLeft(e) - 1) * CeilDiv(e.duration, dt)
  }

  predicate StopsAfter(e: Effect, dt: u32, n: nat) {
    (forall k: nat :: k < n ==> Ticks(e, dt, k).playing) && !Ticks(e, dt, n).playing
  }

  lemma {:induction false} TickKeepsLoops(e: Effect, dt: u32, n: nat)
    requires e.inUse && e.playing && e.loops != FOREVER && n < e.loops as nat
    ensures var e' := Ticks(e, dt, n);
      e'.inUse && e'.playing && e'.loops != FOREVER && e'.loops as nat + n >= e.loops as nat
  {
    if n > 0 { TickKeepsLoops(e, dt, n - 1); }
  }

  /** When restarting a loop would carry the clock past 32 bits, the second play
      outlasts the first tick it is given, so the effect overruns. */
  lemma {:induction false} WrapOverruns(e: Effect, dt: u32)
    requires JustStarted(e) && dt > 0 && e.loops > 1 && e.delay + dt >= TWO_TO_32
    ensures Ticks(e, dt, PlayTicks(e, dt)).playing
  {
    CeilDivStep(Total(e), dt);
    CeilDivStep(e.duration, dt);
    var n := e.loops as nat;
    assert PlayTicks(e, dt) == n by { assert (PlaysLeft(e) - 1) * 1 == n - 1; }
    var first := Tick(e, dt);
    assert Ticks(e, dt, 1) == Tick(Ticks(e, dt, 0), dt) == first;
    assert first == e.(loops := e.loops - 1, elapsed := e.delay);
    var second := Tick(first, dt);
    assert Ticks(e, dt, 2) == Tick(Ticks(e, dt, 1), dt) == second;
    assert (e.delay + dt) % TWO_TO_32 == e.delay + dt - TWO_TO_32;
    assert second == first.(elapsed := e.delay + dt - TWO_TO_32);
    TicksAdd(e, dt, 2, n - 2);
    TickKeepsLoops(second, dt, n - 2);
  }

  /** A started finite effect stops after exactly
      ceil((delay+duration)/dt) + (plays-1)*ceil(duration/dt) ticks, if and only
      if it plays once or restarting a loop does not carry the clock past 32 bits. */
  lemma {:induction false} StopsOnTime(e: Effect, dt: u32)
    requires JustStarted(e) && dt > 0
    ensures StopsAfter(e, dt, PlayTicks(e, dt)) <==> e.loops <= 1 || e.delay + dt < TWO_TO_32
  {
    if e.loops <= 1 || e.delay + dt < TWO_TO_32 {
      assert TicksLeft(e, dt) == PlayTicks(e, dt);
      forall k: nat ensures Ticks(e, dt, k).playing <==> k < PlayTicks(e, dt) { PlaysExactly(e, dt, k); }
    } else {
      WrapOverruns(e, dt);
    }
  }

  const TICK_MS: u32 := 10

  /** The driver's own timer always ticks 10 ms, so there every effect stops on time. */
  lemma {:induction false} DriverTicksAreExact(e: Effect)
    requires JustStarted(e)
    ensures StopsAfter(e, TICK_MS, PlayTicks(e, TICK_MS))
  {
    StopsOnTime(e, TICK_MS);
  }

  // ----- The envelope -----------------------------------------------------

  /** C++ integer division: the quotient is truncated toward zero. */
  function TruncDiv(a: int, b: int): (q: int)
    requires b > 0
  {
    if a >= 0 then a / b else -((-a) / b)
  }

  predicate IsInt32(x: int) { -0x8000_0000 <= x < 0x8000_0000 }

  /** A narrowing cast of a 64-bit value. */
  function ToInt32(x: int): (r: int)
    ensures IsInt32(r)
    ensures IsInt32(x) ==> r == x
  {
    (x + 0x8000_0000) % TWO_TO_32 - 0x8000_0000
  }

  function Clamp(x: int): (r: int)
    ensures 0 <= r <= NOMINAL_MAX
  {
    if x < 0 then 0 else if x > NOMINAL_MAX then NOMINAL_MAX else x
  }

  function Min(a: int, b: int): int { if a < b then a else b }

  function Max(a: int, b: int): int { if a > b then a else b }

  function Attack(e: Effect, active: u32, magnitude: int): int {
    if e.attackMs != 0 && active < e.attackMs then
      e.attackLevel + ToInt32(TruncDiv((magnitude - e.attackLevel) * active, e.attackMs))
    else magnitude
  }

  function FadeStart(e: Effect): (t: nat)
    ensures t <= e.duration
  {
    if e.duration > e.fadeMs then e.duration - e.fadeMs else 0
  }

  predicate Fading(e: Effect, active: u32) {
    e.duration != 0 && e.fadeMs != 0 && active >= FadeStart(e)
  }

  function Faded(e: Effect, active: u32, magnitude: int): int
    requires Fading(e, active)
  {
    magnitude + ToInt32(TruncDiv((e.fadeLevel - magnitude) * (active - FadeStart(e)), e.duration - FadeStart(e)))
  }

  function ApplyEnvelope(e: Effect, active: u32, magnitude: int): (level: int)
    ensures 0 <= level <= NOMINAL_MAX
  {
    var result := Attack(e, active, magnitude);
    Clamp(if Fading(e, active) then Min(result, Faded(e, active, magnitude)) else result)
  }

  /** Interpolating part of a span never leaves the span. */
  lemma {:induction false} Interpolates(span: int, position: nat, length: nat)
    requires 0 < length && position <= length
    ensures Min(0, span) <= TruncDiv(span * position, length) <= Max(0, span)
  {
    if span >= 0 {
      ScaledDown(span, position, length);
      assert span * position >= 0;
    } else {
      ScaledDown(-span, position, length);
      assert -(span * position) == (-span) * position;
      if position > 0 { assert span * position < 0; }
    }
  }

  lemma {:induction false} ScaledDown(span: nat, position: nat, length: nat)
    requires 0 < length && position <= length
    ensures 0 <= span * position / length <= span
  {
    var q, r := span * position / length, span * position % length;
    assert q * length + r == span * position;
    assert span * position <= span * length;
    assert q <= span;
  }

  /** Inside a play the envelope's 32-bit arithmetic is exact and its result lies
      between the least and the greatest of attack level, magnitude and fade
      level, each clamped. */
  lemma {:induction false} EnvelopeStaysBetween(e: Effect, active: u32, magnitude: int)
    requires 0 <= magnitude < 0x1_0000
    requires e.duration != 0 ==> active <= e.duration
    ensures IsInt32(Attack(e, active, magnitude))
    ensures Fading(e, active) ==> IsInt32(Faded(e, active, magnitude))
    ensures var low := Min(magnitude, Min(e.attackLevel, e.fadeLevel));
      var high := Max(magnitude, Max(e.attackLevel, e.fadeLevel));
      Clamp(low) <= ApplyEnvelope(e, active, magnitude) <= Clamp(high)
  {
    if e.attackMs != 0 && active < e.attackMs {
      Interpolates(magnitude - e.attackLevel, active, e.attackMs);
    }
    if Fading(e, active) {
      Interpolates(e.fadeLevel - magnitude, active - FadeStart(e), e.duration - FadeStart(e));
    }
  }

  /** The envelope never lifts a magnitude above both itself and the attack level,
      whatever the clock reads. */
  lemma {:induction false} EnvelopeNeverLifts(e: Effect, active: u32, magnitude: int)
    requires 0 <= magnitude < 0x1_0000
    ensures ApplyEnvelope(e, active, magnitude) <= Clamp(Max(magnitude, e.attackLevel))
  {
    if e.attackMs != 0 && active < e.attackMs {
      Interpolates(magnitude - e.attackLevel, active, e.attackMs);
    }
  }

  // ----- The rumble of one effect -----------------------------------------

  function Absolute(x: int): int { if x < 0 then -x else x }

  predicate IsPeriodic(kind: EffectType) {
    kind == Square || kind == Sine || kind == Triangle || kind == SawtoothUp || kind == SawtoothDown
  }

  predicate Renders(kind: EffectType) {
    kind == ConstantForce || kind == Ramp || IsPeriodic(kind)
  }

  function RampValue(e: Effect, active: u32): int {
    if e.duration == 0 then e.rampStart
    else
      var position := if active > e.duration then e.duration else active;
      e.rampStart + ToInt32(TruncDiv((e.rampEnd - e.rampStart) * position, e.duration))
  }

  function Magnitude(e: Effect, active: u32): int {
    if e.kind == ConstantForce then Absolute(e.constant)
    else if e.kind == Ramp then Absolute(RampValue(e, active))
    else e.periodic
  }

  lemma {:induction false} MagnitudeInRange(e: Effect, active: u32)
    ensures 0 <= Magnitude(e, active) < 0x1_0000
    ensures e.kind == Ramp ==>
      Min(e.rampStart, e.rampEnd) <= RampValue(e, active) <= Max(e.rampStart, e.rampEnd)
  {
    if e.duration != 0 {
      Interpolates(e.rampEnd - e.rampStart, if active > e.duration then e.duration else active, e.duration);
    }
  }

  predicate Contributes(e: Effect) {
    e.inUse && e.playing && e.elapsed >= e.delay && Renders(e.kind)
  }

  /** What one contributing effect asks of its motor, gains applied. */
  function Level(e: Effect, deviceGain: uint8): (level: int)
    requires Contributes(e)
  {
    var active := e.elapsed - e.delay;
    Clamp(ApplyEnvelope(e, active, Magnitude(e, active)) * e.gain as int / 255 * deviceGain as int / 255)
  }

  lemma {:induction false} GainLowers(x: int, gain: uint8)
    requires 0 <= x <= NOMINAL_MAX
    ensures IsInt32(x * gain as int) && 0 <= x * gain as int / 255 <= x
  {
    AtMostTimes(x, gain as nat, 255);
    ScaledDown(x, gain as nat, 255);
  }

  lemma {:induction false} AtMostTimes(x: nat, m: nat, n: nat)
    requires m <= n
    ensures 0 <= x * m <= x * n
  {}

  /** A playing finite effect still inside its current play. */
  predicate Timely(e: Effect) {
    e.playing && e.duration != 0 ==> e.elapsed < Total(e)
  }

  /** What the whole rumble computation of one effect keeps to. */
  predicate RumbleSafe(e: Effect, deviceGain: uint8)
    requires Contributes(e)
  {
    var active: u32 := e.elapsed - e.delay;
    var magnitude := Magnitude(e, active);
    && IsInt32(Attack(e, active, magnitude))
    && (Fading(e, active) ==> IsInt32(Faded(e, active, magnitude)))
    && 0 <= Level(e, deviceGain) <= Clamp(Max(magnitude, Max(e.attackLevel, e.fadeLevel)))
  }

  /** Everything the rumble computation does with one effect stays in 32 bits;
      the gains only ever lower the enveloped level, and the envelope keeps it
      between attack level, magnitude and fade level. */
  lemma {:induction false} LevelIsSafe(e: Effect, deviceGain: uint8)
    requires Contributes(e) && Timely(e)
    ensures var active: u32 := e.elapsed - e.delay;
      var magnitude := Magnitude(e, active);
      var enveloped := ApplyEnvelope(e, active, magnitude);
      && IsInt32(Attack(e, active, magnitude)) && (Fading(e, active) ==> IsInt32(Faded(e, active, magnitude)))
      && IsInt32(enveloped * e.gain as int) && IsInt32(enveloped * e.gain as int / 255 * deviceGain as int)
      && 0 <= Level(e, deviceGain) <= enveloped
      && Clamp(Min(magnitude, Min(e.attackLevel, e.fadeLevel))) <= enveloped
      && enveloped <= Clamp(Max(magnitude, Max(e.attackLevel, e.fadeLevel)))
    ensures RumbleSafe(e, deviceGain)
  {
    var active := e.elapsed - e.delay;
    MagnitudeInRange(e, active);
    EnvelopeStaysBetween(e, active, Magnitude(e, active));
    var enveloped := ApplyEnvelope(e, active, Magnitude(e, active));
    GainLowers(enveloped, e.gain);
    GainLowers(enveloped * e.gain as int / 255, deviceGain);
  }

  function ToRumble(level: int): (r: int)
    ensures 0 <= r <= 65535 && IsInt32(Clamp(level) * 65535)
  {
    Clamp(level) * 65535 / NOMINAL_MAX
  }
}
