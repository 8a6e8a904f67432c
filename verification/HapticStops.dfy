/** Which of Steam's haptic reports are explicit stops, and which stops are the same,
    stated from the fields a host puts into them. */
module HapticStops {
  import opened Ring
  import opened SteamHaptics

  type u16 = x: int | 0 <= x < 0x1_0000

  /** The output reports by their fields; the three families without stops are bytes. */
  datatype Haptic =
    | Rumble(kind: uint8, intensity: u16, leftSpeed: u16, leftGain: uint8, rightSpeed: u16, rightGain: uint8)
    | Pulse(side: uint8, on: u16, off: u16, repetitions: u16)
    | Command(side: uint8, command: uint8, argument: uint8)
    | OtherHaptic(id: uint8, bytes: seq<uint8>)

  predicate Sendable(h: Haptic) {
    h.OtherHaptic? ==> 0x83 <= h.id <= 0x85 && |h.bytes| + 1 >= DeclaredSize(h.id)
  }

  function Le(v: u16): (b: seq<uint8>)
    ensures |b| == 2 && b[0] as int + 0x100 * b[1] as int == v
  {
    [(v % 0x100) as uint8, (v / 0x100) as uint8]
  }

  /** The bytes a host sends, and whatever padding its transfer adds. */
  function Wire(h: Haptic, padding: seq<uint8>): (b: seq<uint8>) {
    (match h
     case Rumble(kind, intensity, leftSpeed, leftGain, rightSpeed, rightGain) =>
       [0x80, kind] + Le(intensity) + Le(leftSpeed) + [leftGain] + Le(rightSpeed) + [rightGain]
     case Pulse(side, on, off, repetitions) => [0x81, side] + Le(on) + Le(off) + Le(repetitions)
     case Command(side, command, argument) => [0x82, side, command, argument]
     case OtherHaptic(id, bytes) => [id] + bytes)
    + padding
  }

  /** A rumble stops when neither motor turns, a pulse when it is never on or never
      repeated, a command when it is number zero; the last two for a known actuator. */
  predicate IsStop(h: Haptic) {
    match h
    case Rumble(_, _, leftSpeed, _, rightSpeed, _) => leftSpeed == 0 && rightSpeed == 0
    case Pulse(side, on, _, repetitions) => side <= 2 && (on == 0 || repetitions == 0)
    case Command(side, command, _) => side <= 2 && command == 0
    case OtherHaptic(_, _) => false
  }

  /** A stop stops the same thing as another: of one family, at the same actuators. */
  predicate SameStop(g: Haptic, h: Haptic) {
    || (g.Rumble? && h.Rumble?)
    || (g.Pulse? && h.Pulse? && g.side == h.side)
    || (g.Command? && h.Command? && g.side == h.side)
  }

  /** The event the driver forwards holds the report behind its length. */
  lemma {:induction false} Forwarded(h: Haptic, padding: seq<uint8>) returns (e: Event)
    requires Sendable(h)
    ensures ApplyOutput(Wire(h, padding)) == Some(e)
    ensures var report := e.payload[4..16];
      e.kind == SteamHaptic && e.payloadSize == HAPTIC_PAYLOAD_SIZE && e.payload[0] as nat == DeclaredSize(Wire(h, padding)[0])
      && forall k :: 0 <= k < DeclaredSize(Wire(h, padding)[0]) ==> report[k] == Wire(h, padding)[k]
  {
    var data := Wire(h, padding);
    e := ApplyOutput(data).value;
    var length := DeclaredSize(data[0]);
    assert e.payload == [length as uint8, 0, 0, 0] + data[..length] + Zeros(28 - length);
  }

  /** A report is kept as a stop if and only if it is one, whatever follows it in the
      transfer: neither a click nor a sweep is ever taken for one. */
  lemma {:induction false} StopsAreKnown(h: Haptic, padding: seq<uint8>)
    requires Sendable(h)
    ensures ApplyOutput(Wire(h, padding)).Some?
    ensures StopKey(ApplyOutput(Wire(h, padding)).value) != 0 <==> IsStop(h)
  {
    var e := Forwarded(h, padding);
  }

  /** Left, right or both actuators, as a mask. */
  function Mask(side: uint8): nat { if side == 2 then 3 else side as nat + 1 }

  lemma {:induction false} KeyOfStop(h: Haptic, padding: seq<uint8>)
    requires Sendable(h) && IsStop(h)
    ensures ApplyOutput(Wire(h, padding)).Some?
    ensures StopKey(ApplyOutput(Wire(h, padding)).value) ==
      if h.Rumble? then 0x203 else (if h.Pulse? then 0x204 else 0x208) + Mask(h.side)
  {
    var e := Forwarded(h, padding);
  }

  /** Two stops replace each other if and only if they are of one family and at the
      same actuators. */
  lemma {:induction false} StopsShareKeys(g: Haptic, h: Haptic, padding: seq<uint8>, more: seq<uint8>)
    requires Sendable(g) && Sendable(h) && IsStop(g) && IsStop(h)
    ensures ApplyOutput(Wire(g, padding)).Some? && ApplyOutput(Wire(h, more)).Some?
    ensures StopKey(ApplyOutput(Wire(g, padding)).value) == StopKey(ApplyOutput(Wire(h, more)).value) <==> SameStop(g, h)
  {
    KeyOfStop(g, padding);
    KeyOfStop(h, more);
    assert g.Pulse? || g.Command? ==> 1 <= Mask(g.side) <= 3;
    assert h.Pulse? || h.Command? ==> 1 <= Mask(h.side) <= 3;
  }

  /** Bytes of the six reports, the report id included: rumble, pulse, command,
      oscillation, sweep and script. */
  const SIZES: seq<nat> := [10, 8, 4, 10, 9, 4]

  /** A transfer is forwarded exactly when it holds a whole haptic report, of which a
      client then reads every byte and no byte more. */
  lemma {:induction false} WholeReportsOnly(data: seq<uint8>)
    ensures ApplyOutput(data).Some? <==>
      |data| >= 2 && 0x80 <= data[0] <= 0x85 && |data| >= SIZES[data[0] as int - 0x80]
    ensures ApplyOutput(data).Some? ==>
      var e := ApplyOutput(data).value;
      e.payload[0] as nat <= 28 && ReportOf(e) == data[..SIZES[data[0] as int - 0x80]]
  {
    OutputRoundTrip(data);
  }
}
