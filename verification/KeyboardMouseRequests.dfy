/** A byte keeps the number it was made from. */
module ByteValues {
  lemma {:induction false} ByteBack(n: int)
    requires 0 <= n < 0x100
    ensures (n as bv8) as int == n
  {
    if n < 16 {
    } else if n < 32 {
    } else if n < 64 {
    } else if n < 128 {
    } else {
    }
  }
}

/** What one request does to the devices behind the endpoint, read from the bytes of
    its report; when it is accepted; and that a closed session drains. */
module KeyboardMouseRequests {
  import opened Ring
  import opened KeyboardMouse
  import opened KeyboardMouseRuns
  import opened ByteValues

  // ----- Reading a report -------------------------------------------------

  function Unsigned(low: byte, high: byte): int { low as int + 0x100 * high as int }

  /** Two's complement of 16 and of 8 bits. */
  function FromWord(w: int): int { if w < 0x8000 then w else w - 0x1_0000 }

  function FromByte(b: int): int { if b < 0x80 then b else b - 0x100 }

  function Signed(low: byte, high: byte): int { FromWord(Unsigned(low, high)) }

  function Small(b: byte): int { FromByte(b as int) }

  lemma {:induction false} FromWordBack(x: i16)
    ensures FromWord(x % 0x1_0000) == x
  {}

  lemma {:induction false} FromByteBack(x: i8)
    ensures 0 <= x % 0x1_0000 % 0x100 < 0x100 && FromByte(x % 0x1_0000 % 0x100) == x
  {}

  lemma {:induction false} WordBack(x: int)
    ensures Unsigned(Low(x), High(x)) == x % 0x1_0000
  {
    var m := x % 0x1_0000;
    ByteBack(m % 0x100);
    ByteBack(m / 0x100);
  }

  lemma {:induction false} SignedReads(x: i16)
    ensures Signed(Low(x), High(x)) == x
  {
    WordBack(x);
    FromWordBack(x);
  }

  lemma {:induction false} UnsignedReads(x: u16)
    ensures Unsigned(Low(x), High(x)) == x
  {
    WordBack(x);
  }

  lemma {:induction false} SmallReads(x: i8)
    ensures Small(Low(x)) == x
  {
    FromByteBack(x);
    ByteBack(x % 0x1_0000 % 0x100);
  }

  /** The newest report after an accepted request. */
  function Queued(s: Session, caller: nat, q: Request): (r: Report)
    requires s.e.Submit(caller, q).1 == Accepted && s.e.Submit(caller, q).0.queue != []
  {
    var queue := s.e.Submit(caller, q).0.queue;
    queue[|queue| - 1]
  }

  lemma {:induction false} RelativeReads(buttons: byte, x: i16, y: i16, wheel: i8, pan: i8)
    ensures var b := RelativeReport(buttons, x, y, wheel, pan).bytes;
      && b[0] == 2 && b[1] == buttons && Signed(b[2], b[3]) == x && Signed(b[4], b[5]) == y
      && Small(b[6]) == wheel && Small(b[7]) == pan
  {
    SignedReads(x);
    SignedReads(y);
    SmallReads(wheel);
    SmallReads(pan);
  }

  lemma {:induction false} AbsoluteReads(x: u16, y: u16)
    ensures var b := AbsoluteReport(x, y).bytes;
      b[0] == 3 && b[1] == 0 && Unsigned(b[2], b[3]) == x / 2 && Unsigned(b[4], b[5]) == y / 2
  {
    UnsignedReads(x / 2);
    UnsignedReads(y / 2);
  }

  lemma {:induction false} RelativeQueued(s: Session, caller: nat, q: Request)
    requires q.Relative? && s.e.Submit(caller, q).1 == Accepted
    ensures s.e.Submit(caller, q).0.queue == s.e.queue + [RelativeReport(s.e.buttons, q.dx, q.dy, q.wheel, q.pan)]
  {}

  lemma {:induction false} AbsoluteQueued(s: Session, caller: nat, q: Request)
    requires q.Absolute? && s.e.Submit(caller, q).1 == Accepted
    ensures s.e.Submit(caller, q).0.queue == s.e.queue + [AbsoluteReport(q.ax, q.ay)]
  {}

  lemma {:induction false} ButtonChanges(e: Endpoint, caller: nat, q: Request)
    requires q.Button? && e.SubmitButton(caller, q).1 == Accepted
    ensures 1 <= q.button <= 5 && q.pressed <= 1
    ensures e.SubmitButton(caller, q).0.buttons == WithBit(e.buttons, q.button as nat - 1, q.pressed != 0)
  {}

  lemma {:induction false} ButtonQueued(e: Endpoint, caller: nat, q: Request)
    requires q.Button? && e.SubmitButton(caller, q).1 == Accepted
    ensures var e' := e.SubmitButton(caller, q).0; e'.queue == e.queue + [RelativeReport(e'.buttons, 0, 0, 0, 0)]
  {}

  /** An accepted motion is reported as it was asked for, each axis in its own place with
      its sign, and the buttons as they are; an absolute position at half its resolution. */
  lemma {:induction false} MotionIsReported(s: Session, caller: nat, q: Request)
    requires Good(s) && (q.Relative? || q.Absolute?) && s.e.Submit(caller, q).1 == Accepted
    ensures s.e.Submit(caller, q).0.queue != []
    ensures var r := Queued(s, caller, q);
      if q.Relative? then
        && r.bytes[0] == 2 && r.length == 8 && r.bytes[1] == s.e.buttons
        && Signed(r.bytes[2], r.bytes[3]) == q.dx && Signed(r.bytes[4], r.bytes[5]) == q.dy
        && Small(r.bytes[6]) == q.wheel && Small(r.bytes[7]) == q.pan
      else
        && r.bytes[0] == 3 && r.length == 6 && r.bytes[1] == 0
        && Unsigned(r.bytes[2], r.bytes[3]) == q.ax / 2 && Unsigned(r.bytes[4], r.bytes[5]) == q.ay / 2
  {
    if q.Relative? {
      RelativeQueued(s, caller, q);
      RelativeReads(s.e.buttons, q.dx, q.dy, q.wheel, q.pan);
    } else {
      AbsoluteQueued(s, caller, q);
      AbsoluteReads(q.ax, q.ay);
    }
  }

  /** An accepted button request changes that button and no other, and moves nothing. */
  lemma {:induction false} OneButtonChanges(s: Session, caller: nat, q: Request, k: nat)
    requires Good(s) && q.Button? && k < 8 && s.e.Submit(caller, q).1 == Accepted
    ensures 1 <= q.button <= 5 && s.e.Submit(caller, q).0.queue != []
    ensures var r := Queued(s, caller, q);
      && Bit(r.bytes[1], k) == (if k == q.button as nat - 1 then q.pressed == 1 else Bit(s.e.buttons, k))
      && r.bytes[0] == 2 && r.length == 8 && Signed(r.bytes[2], r.bytes[3]) == Signed(r.bytes[4], r.bytes[5]) == 0
      && Small(r.bytes[6]) == Small(r.bytes[7]) == 0
  {
    ButtonChanges(s.e, caller, q);
    ButtonQueued(s.e, caller, q);
    RelativeReads(s.e.SubmitButton(caller, q).0.buttons, 0, 0, 0, 0);
    OneBitChanges(s.e.buttons, q.button as nat - 1, q.pressed != 0, k);
  }

  /** The consumer keys in the order of their bits: mute, volume up and down,
      play/pause, next, previous, stop. */
  const CONSUMER_KEYS: seq<int> := [0xE2, 0xE9, 0xEA, 0xCD, 0xB5, 0xB6, 0xB7]

  lemma {:induction false} OneConsumerKeyChanges(s: Session, caller: nat, q: Request, k: nat)
    requires Good(s) && q.Consumer? && k < 7 && s.e.Submit(caller, q).1 == Accepted
    ensures q.usage in CONSUMER_KEYS && s.e.Submit(caller, q).0.queue != []
    ensures Bit(Queued(s, caller, q).bytes[1], k) == if CONSUMER_KEYS[k] == q.usage then q.pressed == 1 else Bit(s.e.consumer, k)
  {
    ConsumerBitIs(q.usage);
    OneBitChanges(s.e.consumer, ConsumerBit(q.usage), q.pressed != 0, k);
  }

  lemma {:induction false} ConsumerBitIs(usage: u16)
    ensures ConsumerBit(usage) < 8 <==> usage in CONSUMER_KEYS
    ensures forall k :: 0 <= k < 7 ==> (CONSUMER_KEYS[k] == usage <==> ConsumerBit(usage) == k)
  {}

  // ----- When a request is accepted ---------------------------------------

  /** The request is well formed, as the protocol says for each kind. */
  predicate WellFormed(q: Request) {
    && q.prefix.version == 1 && q.prefix.reserved == 0
    && match q
       case Keyboard(prefix, usage, pressed, reserved) => prefix.size == 12 && reserved == 0 && pressed <= 1 && 4 <= usage <= 0xE7
       case Consumer(prefix, usage, pressed, reserved) => prefix.size == 12 && reserved == 0 && pressed <= 1 && usage in CONSUMER_KEYS
       case Button(prefix, button, pressed, reserved16) => prefix.size == 12 && reserved16 == 0 && pressed <= 1 && 1 <= button <= 5
       case Relative(prefix, _, _, wheel, pan, reserved16) => prefix.size == 16 && reserved16 == 0 && wheel != -128 && pan != -128
       case Absolute(prefix, _, _, _) => prefix.size == 16
  }

  /** The request asks for something new: a key, button or consumer key that the newest
      accepted report shows otherwise, any motion at all, or a position for the
      display arrangement the session was opened for. */
  predicate AsksForChange(s: Session, q: Request)
    requires WellFormed(q)
  {
    match q
    case Keyboard(_, usage, pressed, _) => KeyDown(Newest(s.accepted, KEYBOARD_ID), usage) != (pressed == 1)
    case Consumer(_, usage, pressed, _) =>
      ConsumerBit(usage) < 8 && Bit(Newest(s.accepted, CONSUMER_ID).bytes[1], ConsumerBit(usage)) != (pressed == 1)
    case Button(_, button, pressed, _) => Bit(Newest(s.accepted, RELATIVE_ID).bytes[1], button as nat - 1) != (pressed == 1)
    case Relative(_, dx, dy, wheel, pan, _) => dx != 0 || dy != 0 || wheel != 0 || pan != 0
    case Absolute(_, _, _, generation) => s.e.generation != 0 && generation == s.e.generation
  }

  lemma {:induction false} KeyShown(s: Session, usage: nat)
    requires Good(s) && s.e.state == Active && usage <= 0xE7
    ensures KeyDown(Newest(s.accepted, KEYBOARD_ID), usage) == Bit(s.e.keys[usage / 8], usage % 8)
  {
    var r := Newest(s.accepted, KEYBOARD_ID);
    assert r.bytes[1 + usage / 8] == r.bytes[1..][usage / 8];
  }

  /** In an open session a request is accepted exactly when it is its owner's, well
      formed, asks for a change, and fewer than 64 accepted reports wait to be handed out. */
  lemma {:induction false} AcceptedExactly(s: Session, caller: nat, q: Request)
    requires Good(s) && s.e.state == Active
    ensures s.e.Submit(caller, q).1 == Accepted <==>
      caller == s.e.owner && WellFormed(q) && AsksForChange(s, q) && |s.accepted| - |s.handed| < 64
  {
    match q
    case Keyboard(_, usage, _, _) => if usage <= 0xE7 { KeyShown(s, usage); }
    case Consumer(_, usage, _, _) => ConsumerBitIs(usage);
    case Button(_, _, _, _) =>
    case Relative(_, _, _, _, _, _) =>
    case Absolute(_, _, _, _) =>
  }

  /** Nobody else's request, and none of anybody's after the close or a fault, is
      accepted in any session. */
  lemma {:induction false} OnlyTheOwner(s: Session, caller: nat, q: Request)
    requires Good(s) && (caller != s.e.owner || s.e.state != Active)
    ensures s.e.Submit(caller, q).1 != Accepted && s.e.Submit(caller, q).0 == s.e
  {
    SubmitAppends(s.e, caller, q);
  }

  /** Why a request is refused, the first reason that applies: no open endpoint, another
      owner, a malformed request, no arrangement or another one than the session's,
      nothing new, no room. */
  lemma {:induction false} RefusalsAreRanked(s: Session, caller: nat, q: Request)
    requires Good(s)
    ensures var answer := s.e.Submit(caller, q).1;
      if s.e.state != Active then answer == NotReady
      else if caller != s.e.owner then answer == NotOwner
      else if !WellFormed(q) then answer == Invalid
      else if q.Absolute? && s.e.generation == 0 then answer == Unsupported
      else if q.Absolute? && q.generation != s.e.generation then answer == NotReady
      else if !AsksForChange(s, q) then answer == Unchanged
      else answer == if |s.accepted| - |s.handed| < 64 then Accepted else Busy
  {
    if s.e.state == Active {
      AcceptedExactly(s, caller, q);
      match q
      case Keyboard(_, usage, _, _) => if usage <= 0xE7 { KeyShown(s, usage); }
      case Consumer(_, usage, _, _) => ConsumerBitIs(usage);
      case Button(_, _, _, _) =>
      case Relative(_, _, _, _, _, _) =>
      case Absolute(_, _, _, _) =>
    }
  }

  /** Only the owner closes a session, once; and while the child exists nobody opens
      another. */
  lemma {:induction false} OnlyTheOwnerCloses(s: Session, caller: nat, verified: u32)
    requires Good(s)
    ensures var (e, answer) := s.e.Close(caller);
      && (answer == Accepted <==> caller == s.e.owner && s.e.state == Active)
      && (answer == Accepted ==> e.state == Closing && e.queue == Neutral())
      && (answer != Accepted ==> e == s.e)
      && (answer == NotOwner <==> caller != s.e.owner)
    ensures s.e.Open(caller, verified) == (s.e, if caller == 0 then Invalid else Busy)
  {}

  /** A failure ends the session at once, whatever its state: nothing waits any more, no
      credit is left, and the report VHF may still read is kept. */
  lemma {:induction false} FailureEnds(s: Session)
    requires Good(s)
    ensures var f := Step(s, Failed);
      f.e.state == Faulted && f.e.queue == [] && !f.e.credit && f.e.retained == s.e.retained && f.handed == s.handed
  {}

  // ----- A credit is used, and a close drains ------------------------------

  /** In every session a report is handed out exactly when a credit is unused and a
      report waits: the oldest one, which is then the one retained. */
  lemma {:induction false} CreditIsUsed(s: Session)
    requires Good(s)
    ensures var s' := Step(s, Take);
      && (s'.handed != s.handed <==> s.e.credit && s.e.queue != [])
      && (s'.handed != s.handed ==> s'.handed == s.handed + [s.e.queue[0]] && s'.e.retained == s.e.queue[0] && !s'.e.credit)
  {}

  /** One readiness and one hand-over. */
  function Drain(s: Session, n: nat): Session {
    if n == 0 then s else Step(Step(Drain(s, n - 1), Ready), Take)
  }

  lemma {:induction false} DrainOne(s: Session)
    requires s.e.state == Closing && s.e.queue != []
    ensures var d := Step(Step(s, Ready), Take);
      d.e.state == Closing && d.e.queue == s.e.queue[1..] && d.handed == s.handed + [s.e.queue[0]]
  {}

  lemma {:induction false} SliceNext(queue: seq<Report>, n: nat)
    requires 0 < n <= |queue|
    ensures queue[n - 1..] != [] && queue[n - 1..][0] == queue[n - 1] && queue[n - 1..][1..] == queue[n..]
    ensures queue[..n] == queue[..n - 1] + [queue[n - 1]]
  {}

  /** The first `n` waiting reports have been handed out. */
  predicate DrainedTo(s: Session, d: Session, n: nat)
    requires n <= |s.e.queue|
  {
    d.e.state == Closing && d.e.queue == s.e.queue[n..] && d.handed == s.handed + s.e.queue[..n]
  }

  lemma {:induction false} DrainedNext(s: Session, d: Session, n: nat)
    requires 0 < n <= |s.e.queue| && DrainedTo(s, d, n - 1)
    ensures DrainedTo(s, Step(Step(d, Ready), Take), n)
  {
    SliceNext(s.e.queue, n);
    DrainOne(d);
  }

  lemma {:induction false} DrainHands(s: Session, n: nat)
    requires s.e.state == Closing && n <= |s.e.queue|
    ensures DrainedTo(s, Drain(s, n), n)
  {
    if n > 0 {
      DrainHands(s, n - 1);
      DrainedNext(s, Drain(s, n - 1), n);
    }
  }

  /** Every close can drain: three more hand-overs, each at its readiness, and one last
      readiness, and the three neutral reports are the last thing VHF got. */
  lemma {:induction false} CloseDrains(s: Session)
    requires Good(s) && s.e.state == Active
    ensures var d := Step(Drain(Step(s, Close(s.e.owner)), 3), Ready);
      d.e.state == Drained && d.handed == s.handed + Neutral() && d.retired == |d.handed|
  {
    var closed := Step(s, Close(s.e.owner));
    DrainHands(closed, 3);
    assert Neutral()[..3] == Neutral();
  }
}
