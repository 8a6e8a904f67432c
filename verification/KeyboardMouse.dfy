/** The keyboard/mouse endpoint: one owner, a 64-report queue, one submission
    credit per VHF readiness, and a close that must neutralise every device.
    `Endpoint` is the abstract value; `KeyboardMouseEndpoint` is the object whose
    methods update it in place. */
module KeyboardMouse {
  import opened Ring

  type u16 = x: int | 0 <= x < 0x1_0000
  type u32 = x: int | 0 <= x < 0x1_0000_0000
  type i16 = x: int | -0x8000 <= x < 0x8000
  type i8 = x: int | -0x80 <= x < 0x80

  const KEY_BYTES := 29
  const REPORT_BYTES := 30
  const QUEUE_CAPACITY := 64
  const KEYBOARD_ID: byte := 1
  const RELATIVE_ID: byte := 2
  const ABSOLUTE_ID: byte := 3
  const CONSUMER_ID: byte := 4

  // ----- Bits of a byte ---------------------------------------------------

  type byte = bv8

  function Mask(k: nat): (m: byte)
    requires k < 8
  {
    if k == 0 then 0x01 else if k == 1 then 0x02 else if k == 2 then 0x04 else if k == 3 then 0x08
    else if k == 4 then 0x10 else if k == 5 then 0x20 else if k == 6 then 0x40 else 0x80
  }

  predicate Bit(b: byte, k: nat)
    requires k < 8
  {
    b & Mask(k) != 0
  }

  /** `b` with bit `k` made equal to `on`. */
  function WithBit(b: byte, k: nat, on: bool): (r: byte)
    requires k < 8
  {
    if on then b | Mask(k) else b & !Mask(k)
  }

  /** Changing one bit changes no other. */
  lemma OneBitChanges(b: byte, k: nat, on: bool, j: nat)
    requires k < 8 && j < 8
    ensures Bit(WithBit(b, k, on), j) == if j == k then on else Bit(b, j)
  {}

  // ----- Reports and requests ---------------------------------------------

  datatype ReportRecord = Report(bytes: seq<byte>, length: nat, id: byte)

  type Report = r: ReportRecord | |r.bytes| == REPORT_BYTES witness BlankReport()

  function Zeros(n: nat): (s: seq<byte>)
    ensures |s| == n && forall i :: 0 <= i < n ==> s[i] == 0
  {
    seq(n, _ => 0)
  }

  function BlankReport(): ReportRecord { Report(Zeros(REPORT_BYTES), 0, 0) }

  type KeyBits = k: seq<byte> | |k| == KEY_BYTES witness Zeros(KEY_BYTES)

  function Low(x: int): byte { (x % 0x1_0000 % 0x100) as byte }

  function High(x: int): byte { (x % 0x1_0000 / 0x100) as byte }

  function KeyboardReport(keys: KeyBits): Report {
    Report([KEYBOARD_ID] + keys, 30, KEYBOARD_ID)
  }

  function ConsumerReport(buttons: byte): Report {
    Report([CONSUMER_ID, buttons] + Zeros(28), 2, CONSUMER_ID)
  }

  function RelativeReport(buttons: byte, x: i16, y: i16, wheel: i8, pan: i8): Report {
    Report([RELATIVE_ID, buttons, Low(x), High(x), Low(y), High(y), Low(wheel), Low(pan)] + Zeros(22), 8, RELATIVE_ID)
  }

  function AbsoluteReport(x: u16, y: u16): Report {
    Report([ABSOLUTE_ID, 0, Low(x / 2), High(x / 2), Low(y / 2), High(y / 2)] + Zeros(24), 6, ABSOLUTE_ID)
  }

  datatype Header = Header(size: u32, version: u16, reserved: u16)

  predicate HeaderValid(h: Header, size: int) {
    h.size == size && h.version == 1 && h.reserved == 0
  }

  datatype Request =
    | Keyboard(prefix: Header, usage: u16, pressed: uint8, reserved: uint8)
    | Consumer(prefix: Header, usage: u16, pressed: uint8, reserved: uint8)
    | Button(prefix: Header, button: uint8, pressed: uint8, reserved16: u16)
    | Relative(prefix: Header, dx: i16, dy: i16, wheel: i8, pan: i8, reserved16: u16)
    | Absolute(prefix: Header, ax: u16, ay: u16, generation: u32)

  datatype Result = Accepted | Unchanged | Invalid | NotOwner | NotReady | Busy | Unsupported

  datatype State = Closed | Active | Closing | Drained | Faulted

  /** The bit of the consumer byte that carries a usage; 8 for the others. */
  function ConsumerBit(usage: u16): (k: nat)
    ensures k <= 8
  {
    if usage == 0xE2 then 0 else if usage == 0xE9 then 1 else if usage == 0xEA then 2
    else if usage == 0xCD then 3 else if usage == 0xB5 then 4 else if usage == 0xB6 then 5
    else if usage == 0xB7 then 6 else 8
  }

  // ----- The abstract endpoint --------------------------------------------

  datatype Endpoint = Endpoint(
    owner: nat,
    state: State,
    generation: u32,
    keys: KeyBits,
    buttons: byte,
    consumer: byte,
    queue: seq<Report>,
    retained: Report,
    credit: bool)
  {
    predicate Bounded() { |queue| <= QUEUE_CAPACITY }

    function Admission(caller: nat): Result {
      if state != Active then NotReady
      else if caller == 0 || caller != owner then NotOwner
      else Accepted
    }

    function Open(caller: nat, verified: u32): (r: (Endpoint, Result)) {
      if caller == 0 then (this, Invalid)
      else if state != Closed then (this, Busy)
      else (Endpoint(caller, Active, verified, Zeros(KEY_BYTES), 0, 0, [], BlankReport(), false), Accepted)
    }

    /** The keyboard, button and consumer requests: one bit changes, and a
        report carrying the whole new state is queued. */
    function SubmitKeyboard(caller: nat, q: Request): (r: (Endpoint, Result))
      requires q.Keyboard?
      ensures r.1 != Accepted ==> r.0 == this
    {
      if Admission(caller) != Accepted then (this, Admission(caller))
      else if !HeaderValid(q.prefix, 12) || q.reserved != 0 || q.pressed > 1 || q.usage < 4 || q.usage > 0xE7 then
        (this, Invalid)
      else if Bit(keys[q.usage / 8], q.usage % 8) == (q.pressed != 0) then (this, Unchanged)
      else if |queue| >= QUEUE_CAPACITY then (this, Busy)
      else
        var keys' := keys[q.usage / 8 := WithBit(keys[q.usage / 8], q.usage % 8, q.pressed != 0)];
        (this.(keys := keys', queue := queue + [KeyboardReport(keys')]), Accepted)
    }

    function SubmitButton(caller: nat, q: Request): (r: (Endpoint, Result))
      requires q.Button?
      ensures r.1 != Accepted ==> r.0 == this
    {
      if Admission(caller) != Accepted then (this, Admission(caller))
      else if !HeaderValid(q.prefix, 12) || q.reserved16 != 0 || q.pressed > 1 || q.button < 1 || q.button > 5 then
        (this, Invalid)
      else if Bit(buttons, q.button as nat - 1) == (q.pressed != 0) then (this, Unchanged)
      else if |queue| >= QUEUE_CAPACITY then (this, Busy)
      else
        var buttons' := WithBit(buttons, q.button as nat - 1, q.pressed != 0);
        (this.(buttons := buttons', queue := queue + [RelativeReport(buttons', 0, 0, 0, 0)]), Accepted)
    }

    function SubmitConsumer(caller: nat, q: Request): (r: (Endpoint, Result))
      requires q.Consumer?
      ensures r.1 != Accepted ==> r.0 == this
    {
      if Admission(caller) != Accepted then (this, Admission(caller))
      else if !HeaderValid(q.prefix, 12) || q.reserved != 0 || q.pressed > 1 || ConsumerBit(q.usage) == 8 then
        (this, Invalid)
      else if ConsumerBit(q.usage) < 8 && Bit(consumer, ConsumerBit(q.usage)) == (q.pressed != 0) then (this, Unchanged)
      else if |queue| >= QUEUE_CAPACITY then (this, Busy)
      else
        var consumer' := WithBit(consumer, ConsumerBit(q.usage), q.pressed != 0);
        (this.(consumer := consumer', queue := queue + [ConsumerReport(consumer')]), Accepted)
    }

    function SubmitRelative(caller: nat, q: Request): (r: (Endpoint, Result))
      requires q.Relative?
      ensures r.1 != Accepted ==> r.0 == this
    {
      if Admission(caller) != Accepted then (this, Admission(caller))
      else if !HeaderValid(q.prefix, 16) || q.reserved16 != 0 || q.wheel == -128 || q.pan == -128 then (this, Invalid)
      else if q.dx == 0 && q.dy == 0 && q.wheel == 0 && q.pan == 0 then (this, Unchanged)
      else if |queue| >= QUEUE_CAPACITY then (this, Busy)
      else (this.(queue := queue + [RelativeReport(buttons, q.dx, q.dy, q.wheel, q.pan)]), Accepted)
    }

    function SubmitAbsolute(caller: nat, q: Request): (r: (Endpoint, Result))
      requires q.Absolute?
      ensures r.1 != Accepted ==> r.0 == this
    {
      if Admission(caller) != Accepted then (this, Admission(caller))
      else if !HeaderValid(q.prefix, 16) then (this, Invalid)
      else if generation == 0 then (this, Unsupported)
      else if q.generation != generation then (this, NotReady)
      else if |queue| >= QUEUE_CAPACITY then (this, Busy)
      else (this.(queue := queue + [AbsoluteReport(q.ax, q.ay)]), Accepted)
    }

    function Submit(caller: nat, q: Request): (r: (Endpoint, Result)) {
      match q
      case Keyboard(_, _, _, _) => SubmitKeyboard(caller, q)
      case Consumer(_, _, _, _) => SubmitConsumer(caller, q)
      case Button(_, _, _, _) => SubmitButton(caller, q)
      case Relative(_, _, _, _, _, _) => SubmitRelative(caller, q)
      case Absolute(_, _, _, _) => SubmitAbsolute(caller, q)
    }

    function Close(caller: nat): (r: (Endpoint, Result)) {
      if caller == 0 || caller != owner then (this, NotOwner)
      else if state == Closing then (this, Unchanged)
      else if state != Active then (this, NotReady)
      else
        (this.(state := Closing, keys := Zeros(KEY_BYTES), buttons := 0, consumer := 0, queue := Neutral()), Accepted)
    }

    function Ready(): Endpoint {
      if state != Active && state != Closing then this
      else if state == Closing && queue == [] then this.(state := Drained, credit := false)
      else this.(credit := true)
    }

    function Take(): (r: (Endpoint, Option<Report>)) {
      if !credit || queue == [] || (state != Active && state != Closing) then (this, None)
      else (this.(retained := queue[0], queue := queue[1..], credit := false), Some(queue[0]))
    }

    function Failed(): Endpoint {
      if state == Closed then this else this.(state := Faulted, credit := false, queue := [])
    }
  }

  /** The three reports that leave every device at rest. */
  function Neutral(): seq<Report> {
    [KeyboardReport(Zeros(KEY_BYTES)), RelativeReport(0, 0, 0, 0, 0), ConsumerReport(0)]
  }

  // ----- The object -------------------------------------------------------

  class KeyboardMouseEndpoint {
    var owner: nat
    var state: State
    var generation: u32
    const keys: array<byte>
    var buttons: byte
    var consumerButtons: byte
    const queue: array<Report>
    var head: nat
    var count: nat
    var retained: Report
    var credit: bool

    ghost predicate Valid()
      reads this
    {
      && keys.Length == KEY_BYTES && queue.Length == QUEUE_CAPACITY
      && head < QUEUE_CAPACITY && count <= QUEUE_CAPACITY
    }

    ghost function Model(): (e: Endpoint)
      reads this, keys, queue
      requires Valid()
      ensures e.Bounded()
    {
      Endpoint(owner, state, generation, keys[..], buttons, consumerButtons,
               View(queue[..], head, count), retained, credit)
    }

    constructor ()
      ensures Valid() && fresh(keys) && fresh(queue)
      ensures Model() == Endpoint(0, Closed, 0, Zeros(KEY_BYTES), 0, 0, [], BlankReport(), false)
    {
      var blank: Report := BlankReport();
      keys := new byte[KEY_BYTES](_ => 0);
      queue := new Report[QUEUE_CAPACITY](_ => blank);
      owner, state, generation, buttons, consumerButtons := 0, Closed, 0, 0, 0;
      head, count, retained, credit := 0, 0, blank, false;
      new;
      assert keys[..] == Zeros(KEY_BYTES);
    }

    method ClearKeys()
      requires Valid()
      modifies keys
      ensures keys[..] == Zeros(KEY_BYTES)
    {
      for i := 0 to keys.Length
        invariant forall k :: 0 <= k < i ==> keys[k] == 0
      {
        keys[i] := 0;
      }
      assert keys[..] == Zeros(KEY_BYTES);
    }

    method ResetAfterDeviceDeleted()
      requires Valid()
      modifies this, keys
      ensures Valid() && Model() == Endpoint(0, Closed, 0, Zeros(KEY_BYTES), 0, 0, [], BlankReport(), false)
    {
      owner, state, generation := 0, Closed, 0;
      ClearKeys();
      buttons, consumerButtons := 0, 0;
      head, count := 0, 0;
      retained := BlankReport();
      credit := false;
    }

    method Open(caller: nat, verified: u32) returns (r: Result)
      requires Valid()
      modifies this, keys
      ensures Valid() && (Model(), r) == old(Model()).Open(caller, verified)
    {
      if caller == 0 { return Invalid; }
      if state != Closed { return Busy; }
      ResetAfterDeviceDeleted();
      owner, generation, state := caller, verified, Active;
      return Accepted;
    }

    method Enqueue(value: Report)
      requires Valid() && count < QUEUE_CAPACITY
      modifies this`count, queue
      ensures Valid() && count == old(count) + 1
      ensures View(queue[..], head, count) == old(View(queue[..], head, count)) + [value]
    {
      Push(queue[..], head, count, value);
      ghost var slots := queue[..][(head + count) % QUEUE_CAPACITY := value];
      queue[(head + count) % QUEUE_CAPACITY] := value;
      count := count + 1;
      assert queue[..] == slots;
    }

    method Admission(caller: nat) returns (r: Result)
      requires Valid()
      ensures r == Model().Admission(caller)
    {
      if state != Active { return NotReady; }
      if caller == 0 || caller != owner { return NotOwner; }
      return Accepted;
    }

    method SubmitKeyboard(caller: nat, q: Request) returns (r: Result)
      requires Valid() && q.Keyboard?
      modifies this`count, keys, queue
      ensures Valid() && (Model(), r) == old(Model()).SubmitKeyboard(caller, q)
    {
      r := Admission(caller);
      if r != Accepted { return r; }
      if !HeaderValid(q.prefix, 12) || q.reserved != 0 || q.pressed > 1 || q.usage < 4 || q.usage > 0xE7 {
        return Invalid;
      }
      var index, bit := q.usage / 8, q.usage % 8;
      if Bit(keys[index], bit) == (q.pressed != 0) { return Unchanged; }
      if count == QUEUE_CAPACITY { return Busy; }
      ghost var keys' := keys[..][index := WithBit(keys[index], bit, q.pressed != 0)];
      keys[index] := WithBit(keys[index], bit, q.pressed != 0);
      assert keys[..] == keys';
      Enqueue(KeyboardReport(keys[..]));
      return Accepted;
    }

    method SubmitButton(caller: nat, q: Request) returns (r: Result)
      requires Valid() && q.Button?
      modifies this`count, this`buttons, queue
      ensures Valid() && (Model(), r) == old(Model()).SubmitButton(caller, q)
    {
      r := Admission(caller);
      if r != Accepted { return r; }
      if !HeaderValid(q.prefix, 12) || q.reserved16 != 0 || q.pressed > 1 || q.button < 1 || q.button > 5 {
        return Invalid;
      }
      var bit := q.button as nat - 1;
      if Bit(buttons, bit) == (q.pressed != 0) { return Unchanged; }
      if count == QUEUE_CAPACITY { return Busy; }
      buttons := WithBit(buttons, bit, q.pressed != 0);
      Enqueue(RelativeReport(buttons, 0, 0, 0, 0));
      return Accepted;
    }

    method SubmitConsumer(caller: nat, q: Request) returns (r: Result)
      requires Valid() && q.Consumer?
      modifies this`count, this`consumerButtons, queue
      ensures Valid() && (Model(), r) == old(Model()).SubmitConsumer(caller, q)
    {
      r := Admission(caller);
      if r != Accepted { return r; }
      if !HeaderValid(q.prefix, 12) || q.reserved != 0 || q.pressed > 1 { return Invalid; }
      var bit := ConsumerBit(q.usage);
      if bit == 8 { return Invalid; }
      if Bit(consumerButtons, bit) == (q.pressed != 0) { return Unchanged; }
      if count == QUEUE_CAPACITY { return Busy; }
      consumerButtons := WithBit(consumerButtons, bit, q.pressed != 0);
      Enqueue(ConsumerReport(consumerButtons));
      return Accepted;
    }

    method SubmitRelative(caller: nat, q: Request) returns (r: Result)
      requires Valid() && q.Relative?
      modifies this`count, queue
      ensures Valid() && (Model(), r) == old(Model()).SubmitRelative(caller, q)
    {
      r := Admission(caller);
      if r != Accepted { return r; }
      if !HeaderValid(q.prefix, 16) || q.reserved16 != 0 || q.wheel == -128 || q.pan == -128 { return Invalid; }
      if q.dx == 0 && q.dy == 0 && q.wheel == 0 && q.pan == 0 { return Unchanged; }
      if count == QUEUE_CAPACITY { return Busy; }
      Enqueue(RelativeReport(buttons, q.dx, q.dy, q.wheel, q.pan));
      return Accepted;
    }

    method SubmitAbsolute(caller: nat, q: Request) returns (r: Result)
      requires Valid() && q.Absolute?
      modifies this`count, queue
      ensures Valid() && (Model(), r) == old(Model()).SubmitAbsolute(caller, q)
    {
      r := Admission(caller);
      if r != Accepted { return r; }
      if !HeaderValid(q.prefix, 16) { return Invalid; }
      if generation == 0 { return Unsupported; }
      if q.generation != generation { return NotReady; }
      if count == QUEUE_CAPACITY { return Busy; }
      Enqueue(AbsoluteReport(q.ax, q.ay));
      return Accepted;
    }

    method Close(caller: nat) returns (r: Result)
      requires Valid()
      modifies this, keys, queue
      ensures Valid() && (Model(), r) == old(Model()).Close(caller)
    {
      if caller == 0 || caller != owner { return NotOwner; }
      if state == Closing { return Unchanged; }
      if state != Active { return NotReady; }
      state := Closing;
      head, count := 0, 0;
      ClearKeys();
      buttons, consumerButtons := 0, 0;
      Enqueue(KeyboardReport(keys[..]));
      Enqueue(RelativeReport(buttons, 0, 0, 0, 0));
      Enqueue(ConsumerReport(consumerButtons));
      assert View(queue[..], head, count) == Neutral();
      return Accepted;
    }

    method ReadyForReport()
      requires Valid()
      modifies this`credit, this`state
      ensures Valid() && Model() == old(Model()).Ready()
    {
      if state != Active && state != Closing { return; }
      credit := true;
      if state == Closing && count == 0 {
        state := Drained;
        credit := false;
      }
    }

    method TakeReport() returns (r: Option<Report>)
      requires Valid()
      modifies this`head, this`count, this`retained, this`credit
      ensures Valid() && (Model(), r) == old(Model()).Take()
    {
      if !credit || count == 0 || (state != Active && state != Closing) { return None; }
      Pop(queue[..], head, count);
      retained := queue[head];
      head := (head + 1) % QUEUE_CAPACITY;
      count := count - 1;
      credit := false;
      return Some(retained);
    }

    method SubmissionFailed()
      requires Valid()
      modifies this`state, this`credit, this`head, this`count
      ensures Valid() && Model() == old(Model()).Failed()
    {
      if state == Closed { return; }
      state := Faulted;
      credit := false;
      head, count := 0, 0;
    }
  }
}
