/** The force-feedback engine: sixteen effect blocks, a byte pool that mirrors
    them, and the rumble they add up to. `Engine` is the abstract value;
    `PidEngine` is the object that VHF callbacks and the effect clock update. */
module PidEngines {
  import opened Ring
  import opened PidEffects

  const MAX_EFFECTS := 16
  const POOL_BYTES := 1024
  const BYTES_PER_EFFECT := 64
  const LOAD_SUCCESS: uint8 := 1
  const LOAD_FULL: uint8 := 2
  const LOAD_ERROR: uint8 := 3

  type Blocks = s: seq<Effect> | |s| == MAX_EFFECTS witness seq(MAX_EFFECTS, _ => BLANK)

  datatype Rumble = Rumble(low: int, high: int)

  datatype Command =
    | Create(kind: uint8)
    | SetEffect(block: uint8, kind: uint8, duration: u16, delay: u16, gain: uint8)
    | SetEnvelope(block: uint8, attackLevel: u16, fadeLevel: u16, attackMs: u16, fadeMs: u16)
    | SetCondition(block: uint8)
    | SetPeriodic(block: uint8, magnitude: u16)
    | SetConstant(block: uint8, force: i16)
    | SetRamp(block: uint8, rampStart: i16, rampEnd: i16)
    | Operate(block: uint8, operation: uint8, loops: uint8)
    | Free(block: uint8)
    | Control(control: uint8)
    | DeviceGain(gain: uint8)
    | Advance(dt: u32)

  function TypeOf(ordinal: uint8): (t: EffectType)
  {
    if ordinal == 1 then ConstantForce else if ordinal == 2 then Ramp else if ordinal == 3 then Square
    else if ordinal == 4 then Sine else if ordinal == 5 then Triangle else if ordinal == 6 then SawtoothUp
    else if ordinal == 7 then SawtoothDown else if ordinal == 8 then Spring else if ordinal == 9 then Damper
    else if ordinal == 10 then Inertia else if ordinal == 11 then Friction
    else if ordinal == 12 then CustomForceData else NoEffect
  }

  predicate ValidType(ordinal: uint8) { 1 <= ordinal <= 12 }

  function Stopped(e: Effect): Effect { e.(playing := false, elapsed := 0) }

  function Started(e: Effect, loops: uint8): Effect { e.(playing := true, elapsed := 0, loops := loops) }

  function StopAll(s: Blocks): (t: Blocks)
    ensures forall i :: 0 <= i < MAX_EFFECTS ==> t[i] == Stopped(s[i])
  {
    seq(MAX_EFFECTS, i requires 0 <= i < MAX_EFFECTS => Stopped(s[i]))
  }

  function TickAll(s: Blocks, dt: u32): (t: Blocks)
    ensures forall i :: 0 <= i < MAX_EFFECTS ==> t[i] == Tick(s[i], dt)
  {
    seq(MAX_EFFECTS, i requires 0 <= i < MAX_EFFECTS => Tick(s[i], dt))
  }

  function AllBlank(): (t: Blocks)
    ensures forall i :: 0 <= i < MAX_EFFECTS ==> t[i] == BLANK
  {
    seq(MAX_EFFECTS, _ => BLANK)
  }

  /** The lowest block not in use, or sixteen. */
  function FirstFree(s: Blocks, from: nat): (i: nat)
    requires from <= MAX_EFFECTS
    ensures from <= i <= MAX_EFFECTS && (i < MAX_EFFECTS ==> !s[i].inUse)
    ensures forall k :: from <= k < i ==> s[k].inUse
    decreases MAX_EFFECTS - from
  {
    if from == MAX_EFFECTS || !s[from].inUse then from else FirstFree(s, from + 1)
  }

  function InUse(s: Blocks, n: nat): (c: nat)
    requires n <= MAX_EFFECTS
    ensures c <= n
  {
    if n == 0 then 0 else InUse(s, n - 1) + (if s[n - 1].inUse then 1 else 0)
  }

  /** The strongest contributing effect among the first `n`, of one motor. */
  function Strongest(s: Blocks, n: nat, deviceGain: uint8, periodic: bool): (level: int)
    requires n <= MAX_EFFECTS
    ensures 0 <= level <= NOMINAL_MAX
  {
    if n == 0 then 0
    else
      var before := Strongest(s, n - 1, deviceGain, periodic);
      if Drives(s[n - 1], periodic) then Max(before, Level(s[n - 1], deviceGain)) else before
  }

  predicate Drives(e: Effect, periodic: bool) {
    Contributes(e) && IsPeriodic(e.kind) == periodic
  }

  datatype Engine = Engine(
    effects: Blocks,
    lastAllocated: uint8,
    lastStatus: uint8,
    deviceGain: uint8,
    actuators: bool,
    paused: bool)
  {
    /** A block number names an effect the host has created. */
    predicate Names(block: uint8) {
      1 <= block as int <= MAX_EFFECTS && effects[block as int - 1].inUse
    }

    function With(block: uint8, e: Effect): Engine
      requires 1 <= block as int <= MAX_EFFECTS
    {
      this.(effects := effects[block as int - 1 := e])
    }

    function Apply(c: Command): (r: (Engine, bool)) {
      match c
      case Create(kind) => Allocate(kind)
      case SetEffect(block, kind, duration, delay, gain) =>
        if !Names(block) then (this, false)
        else
          var e := effects[block as int - 1];
          (With(block, e.(kind := if ValidType(kind) then TypeOf(kind) else e.kind,
                          duration := duration, delay := delay, gain := gain)), true)
      case SetEnvelope(block, attackLevel, fadeLevel, attackMs, fadeMs) =>
        if !Names(block) then (this, false)
        else
          (With(block, effects[block as int - 1].(attackLevel := attackLevel, fadeLevel := fadeLevel,
                                                  attackMs := attackMs, fadeMs := fadeMs)), true)
      case SetCondition(block) => (this, Names(block))
      case SetPeriodic(block, magnitude) =>
        if !Names(block) then (this, false)
        else (With(block, effects[block as int - 1].(periodic := magnitude)), true)
      case SetConstant(block, force) =>
        if !Names(block) then (this, false)
        else (With(block, effects[block as int - 1].(constant := force)), true)
      case SetRamp(block, rampStart, rampEnd) =>
        if !Names(block) then (this, false)
        else (With(block, effects[block as int - 1].(rampStart := rampStart, rampEnd := rampEnd)), true)
      case Operate(block, operation, loops) => Operation(block, operation, loops)
      case Free(block) => if !Names(block) then (this, false) else (With(block, BLANK), true)
      case Control(control) => Controlled(control)
      case DeviceGain(gain) => (this.(deviceGain := gain), true)
      case Advance(dt) => (Advanced(dt), true)
    }

    function Allocate(kind: uint8): (r: (Engine, bool)) {
      var free := FirstFree(effects, 0);
      if !ValidType(kind) then (this.(lastStatus := LOAD_ERROR), false)
      else if free == MAX_EFFECTS then (this.(lastStatus := LOAD_FULL), false)
      else
        (this.(effects := effects[free := BLANK.(inUse := true, kind := TypeOf(kind), gain := 255)],
               lastAllocated := (free + 1) as uint8, lastStatus := LOAD_SUCCESS), true)
    }

    function Operation(block: uint8, operation: uint8, loops: uint8): (r: (Engine, bool)) {
      if !Names(block) then (this, false)
      else if operation == 2 then
        (this.(effects := StopAll(effects)).With(block, Started(effects[block as int - 1], loops)), true)
      else if operation == 1 then (With(block, Started(effects[block as int - 1], loops)), true)
      else if operation == 3 then (With(block, Stopped(effects[block as int - 1])), true)
      else (this, false)
    }

    function Controlled(control: uint8): (r: (Engine, bool)) {
      if control == 1 then (this.(actuators := true), true)
      else if control == 2 then (this.(actuators := false), true)
      else if control == 3 then (this.(effects := StopAll(effects)), true)
      else if control == 4 then (PowerOn(), true)
      else if control == 5 then (this.(paused := true), true)
      else if control == 6 then (this.(paused := false), true)
      else (this, false)
    }

    function Advanced(dt: u32): Engine {
      if paused then this else this.(effects := TickAll(effects, dt))
    }

    predicate NeedsTick() {
      exists i :: 0 <= i < MAX_EFFECTS && effects[i].inUse && effects[i].playing
    }

    function PoolAvailable(): (bytes: int)
      ensures 0 <= bytes <= POOL_BYTES
    {
      POOL_BYTES - BYTES_PER_EFFECT * InUse(effects, MAX_EFFECTS)
    }

    function Output(): Rumble {
      if !actuators || paused then Rumble(0, 0)
      else
        Rumble(ToRumble(Strongest(effects, MAX_EFFECTS, deviceGain, false)),
               ToRumble(Strongest(effects, MAX_EFFECTS, deviceGain, true)))
    }
  }

  function PowerOn(): Engine {
    Engine(AllBlank(), 0, LOAD_SUCCESS, 255, true, false)
  }

  // ----- The object -------------------------------------------------------

  class PidEngine {
    const effects: array<Effect>
    var lastAllocated: uint8
    var lastStatus: uint8
    var deviceGain: uint8
    var actuators: bool
    var paused: bool

    ghost predicate Valid()
      reads this
    {
      effects.Length == MAX_EFFECTS
    }

    ghost function Model(): Engine
      reads this, effects
      requires Valid()
    {
      Engine(effects[..], lastAllocated, lastStatus, deviceGain, actuators, paused)
    }

    constructor ()
      ensures Valid() && fresh(effects) && Model() == PowerOn()
    {
      effects := new Effect[MAX_EFFECTS](_ => BLANK);
      lastAllocated, lastStatus, deviceGain, actuators, paused := 0, LOAD_SUCCESS, 255, true, false;
      new;
      assert effects[..] == AllBlank();
    }

    method Reset()
      requires Valid()
      modifies this, effects
      ensures Valid() && Model() == PowerOn()
    {
      for i := 0 to MAX_EFFECTS
        invariant forall k :: 0 <= k < i ==> effects[k] == BLANK
        modifies effects
      {
        effects[i] := BLANK;
      }
      assert effects[..] == AllBlank();
      lastAllocated, lastStatus, deviceGain, actuators, paused := 0, LOAD_SUCCESS, 255, true, false;
    }

    method StopEveryEffect()
      requires Valid()
      modifies effects
      ensures Valid() && effects[..] == StopAll(old(effects[..]))
    {
      for i := 0 to MAX_EFFECTS
        invariant forall k :: 0 <= k < i ==> effects[k] == Stopped(old(effects[k]))
        invariant forall k :: i <= k < MAX_EFFECTS ==> effects[k] == old(effects[k])
      {
        effects[i] := Stopped(effects[i]);
      }
      assert effects[..] == StopAll(old(effects[..]));
    }

    method CreateNewEffect(kind: uint8) returns (ok: bool)
      requires Valid()
      modifies this`lastAllocated, this`lastStatus, effects
      ensures Valid() && (Model(), ok) == old(Model()).Apply(Create(kind))
    {
      if !ValidType(kind) {
        lastStatus := LOAD_ERROR;
        return false;
      }
      ghost var before := effects[..];
      var index := 0;
      while index < MAX_EFFECTS
        invariant 0 <= index <= MAX_EFFECTS && effects[..] == before
        invariant FirstFree(before, 0) == FirstFree(before, index)
        invariant Model() == old(Model())
      {
        if !effects[index].inUse {
          effects[index] := BLANK.(inUse := true, kind := TypeOf(kind), gain := 255);
          lastAllocated := (index + 1) as uint8;
          lastStatus := LOAD_SUCCESS;
          assert effects[..] == before[index := effects[index]];
          return true;
        }
        index := index + 1;
      }
      lastStatus := LOAD_FULL;
      return false;
    }

    method BlockLoad() returns (block: uint8, status: uint8, available: int)
      requires Valid()
      ensures block == lastAllocated && status == lastStatus && available == Model().PoolAvailable()
    {
      var used := 0;
      for i := 0 to MAX_EFFECTS
        invariant used == BYTES_PER_EFFECT * InUse(effects[..], i)
      {
        if effects[i].inUse { used := used + BYTES_PER_EFFECT; }
      }
      return lastAllocated, lastStatus, POOL_BYTES - used;
    }

    /** The reports that rewrite the parameters of one block. */
    method SetParameters(c: Command) returns (ok: bool)
      requires Valid()
      requires c.SetEffect? || c.SetEnvelope? || c.SetCondition? || c.SetPeriodic? || c.SetConstant? || c.SetRamp?
      modifies effects
      ensures Valid() && (Model(), ok) == old(Model()).Apply(c)
    {
      if c.block == 0 || c.block as int > MAX_EFFECTS || !effects[c.block as int - 1].inUse {
        return false;
      }
      var at := c.block as int - 1;
      var e := effects[at];
      match c {
        case SetEffect(_, kind, duration, delay, gain) =>
          e := e.(kind := if ValidType(kind) then TypeOf(kind) else e.kind, duration := duration, delay := delay, gain := gain);
        case SetEnvelope(_, attackLevel, fadeLevel, attackMs, fadeMs) =>
          e := e.(attackLevel := attackLevel, fadeLevel := fadeLevel, attackMs := attackMs, fadeMs := fadeMs);
        case SetCondition(_) =>
        case SetPeriodic(_, magnitude) => e := e.(periodic := magnitude);
        case SetConstant(_, force) => e := e.(constant := force);
        case SetRamp(_, rampStart, rampEnd) => e := e.(rampStart := rampStart, rampEnd := rampEnd);
      }
      Store(at, e);
      assert c.SetCondition? ==> effects[..] == old(effects[..]);
      return true;
    }

    method Store(at: nat, e: Effect)
      requires Valid() && at < MAX_EFFECTS
      modifies effects
      ensures Valid() && effects[..] == old(effects[..])[at := e]
    {
      effects[at] := e;
    }

    method EffectOperation(block: uint8, operation: uint8, loops: uint8) returns (ok: bool)
      requires Valid()
      modifies effects
      ensures Valid() && (Model(), ok) == old(Model()).Apply(Operate(block, operation, loops))
    {
      if block == 0 || block as int > MAX_EFFECTS || !effects[block as int - 1].inUse {
        return false;
      }
      var at := block as int - 1;
      var e := effects[at];
      if operation == 1 || operation == 2 {
        if operation == 2 {
          StopEveryEffect();
        }
        Store(at, Started(e, loops));
        return true;
      }
      if operation == 3 {
        Store(at, Stopped(e));
        return true;
      }
      return false;
    }

    method BlockFree(block: uint8) returns (ok: bool)
      requires Valid()
      modifies effects
      ensures Valid() && (Model(), ok) == old(Model()).Apply(Free(block))
    {
      if block == 0 || block as int > MAX_EFFECTS || !effects[block as int - 1].inUse {
        return false;
      }
      Store(block as int - 1, BLANK);
      return true;
    }

    method DeviceControl(control: uint8) returns (ok: bool)
      requires Valid()
      modifies this, effects
      ensures Valid() && (Model(), ok) == old(Model()).Apply(Control(control))
    {
      if control == 1 { actuators := true; return true; }
      if control == 2 { actuators := false; return true; }
      if control == 3 { StopEveryEffect(); return true; }
      if control == 4 { Reset(); return true; }
      if control == 5 { paused := true; return true; }
      if control == 6 { paused := false; return true; }
      return false;
    }

    /** One effect at a time, in place, exactly as the timer callback does it. */
    method AdvanceClock(dt: u32)
      requires Valid()
      modifies effects
      ensures Valid() && Model() == old(Model()).Advanced(dt)
    {
      if paused { return; }
      ghost var before := effects[..];
      for i := 0 to MAX_EFFECTS
        invariant forall k :: 0 <= k < i ==> effects[k] == Tick(before[k], dt)
        invariant forall k :: i <= k < MAX_EFFECTS ==> effects[k] == before[k]
      {
        var e := effects[i];
        if !e.inUse || !e.playing { continue; }
        effects[i] := e.(elapsed := (e.elapsed + dt) % TWO_TO_32);
        if e.duration == 0 { continue; }
        var total := e.delay + e.duration;
        if effects[i].elapsed < total { continue; }
        if e.loops == FOREVER {
          effects[i] := effects[i].(elapsed := e.delay);
          continue;
        }
        if e.loops > 1 {
          effects[i] := effects[i].(loops := e.loops - 1, elapsed := e.delay);
          continue;
        }
        effects[i] := effects[i].(playing := false, elapsed := 0);
      }
      assert effects[..] == TickAll(before, dt);
    }

    method NeedsTick() returns (b: bool)
      requires Valid()
      ensures b == Model().NeedsTick()
    {
      for i := 0 to MAX_EFFECTS
        invariant forall k :: 0 <= k < i ==> !(effects[k].inUse && effects[k].playing)
      {
        if effects[i].inUse && effects[i].playing {
          assert Model().effects[i] == effects[i];
          return true;
        }
      }
      return false;
    }

    method CurrentRumble() returns (r: Rumble)
      requires Valid()
      ensures r == Model().Output()
    {
      if !actuators || paused { return Rumble(0, 0); }
      var low, high := 0, 0;
      for i := 0 to MAX_EFFECTS
        invariant low == Strongest(effects[..], i, deviceGain, false)
        invariant high == Strongest(effects[..], i, deviceGain, true)
      {
        var e := effects[i];
        if !e.inUse || !e.playing || e.elapsed < e.delay { continue; }
        if !Renders(e.kind) { continue; }
        var active := e.elapsed - e.delay;
        var level := ApplyEnvelope(e, active, Magnitude(e, active));
        level := level * e.gain as int / 255;
        level := Clamp(level * deviceGain as int / 255);
        if IsPeriodic(e.kind) {
          high := if high > level then high else level;
        } else {
          low := if low > level then low else level;
        }
      }
      return Rumble(ToRumble(low), ToRumble(high));
    }
  }
}
