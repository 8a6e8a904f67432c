/** Whole sessions of the keyboard/mouse endpoint, from an accepted open until
    the HID child is deleted: what was accepted, what was handed to VHF, and
    what VHF has retired. */
module KeyboardMouseRuns {
  import opened Ring
  import opened KeyboardMouse

  datatype Op =
    | Open(caller: nat, verified: u32)
    | Submit(caller: nat, request: Request)
    | Close(caller: nat)
    | Ready
    | Take
    | Failed

  /** `accepted` are the reports of the accepted submissions, `handed` the
      reports handed to VHF, of which the first `retired` are no longer in use. */
  datatype Session = Session(e: Endpoint, accepted: seq<Report>, handed: seq<Report>, retired: nat)

  function Start(owner: nat, verified: u32): Session {
    Session(Endpoint(owner, Active, verified, Zeros(KEY_BYTES), 0, 0, [], BlankReport(), false), [], [], 0)
  }

  function Step(s: Session, op: Op): Session {
    match op
    case Open(caller, verified) => s.(e := s.e.Open(caller, verified).0)
    case Submit(caller, request) =>
      var (e', result) := s.e.Submit(caller, request);
      s.(e := e',
         accepted := if result == Accepted && e'.queue != [] then s.accepted + [e'.queue[|e'.queue| - 1]] else s.accepted)
    case Close(caller) => s.(e := s.e.Close(caller).0)
    case Ready =>
      s.(e := s.e.Ready(), retired := if s.e.state == Active || s.e.state == Closing then |s.handed| else s.retired)
    case Take =>
      var (e', report) := s.e.Take();
      s.(e := e', handed := if report.Some? then s.handed + [report.value] else s.handed)
    case Failed => s.(e := s.e.Failed())
  }

  function Exec(s: Session, ops: seq<Op>): Session {
    if ops == [] then s else Step(Exec(s, ops[..|ops| - 1]), ops[|ops| - 1])
  }

  // ----- One accepted submission ------------------------------------------

  /** An accepted submission appends one report and touches nothing but the
      state that report describes; any other answer changes nothing at all. */
  lemma {:induction false} SubmitAppends(e: Endpoint, caller: nat, q: Request)
    requires e.Bounded()
    ensures var (e', result) := e.Submit(caller, q);
      && e'.Bounded()
      && (result != Accepted ==> e' == e)
      && (result == Accepted ==>
            && e.state == Active && caller == e.owner != 0
            && e'.queue != [] && e'.queue[..|e'.queue| - 1] == e.queue
            && e' == e.(keys := e'.keys, buttons := e'.buttons, consumer := e'.consumer, queue := e'.queue)
            && Describes(e', e'.queue[|e'.queue| - 1]))
      && (!q.Keyboard? ==> e'.keys == e.keys)
      && (!q.Button? ==> e'.buttons == e.buttons)
      && (!q.Consumer? ==> e'.consumer == e.consumer)
  {
    match q
    case Keyboard(_, _, _, _) => KeyboardAppends(e, caller, q);
    case Consumer(_, _, _, _) => ConsumerAppends(e, caller, q);
    case Button(_, _, _, _) => ButtonAppends(e, caller, q);
    case Relative(_, _, _, _, _, _) => PointerAppends(e, caller, q);
    case Absolute(_, _, _, _) => PointerAppends(e, caller, q);
  }

  /** `e` became `e'` by one more queued report that describes it. */
  predicate Appended(e: Endpoint, e': Endpoint, caller: nat) {
    && e.state == Active && caller == e.owner != 0
    && e'.queue != [] && e'.queue[..|e'.queue| - 1] == e.queue
    && e' == e.(keys := e'.keys, buttons := e'.buttons, consumer := e'.consumer, queue := e'.queue)
    && Describes(e', e'.queue[|e'.queue| - 1])
  }

  lemma {:induction false} KeyboardAppends(e: Endpoint, caller: nat, q: Request)
    requires e.Bounded() && q.Keyboard?
    ensures var (e', result) := e.SubmitKeyboard(caller, q);
      e'.Bounded() && e'.buttons == e.buttons && e'.consumer == e.consumer && (result == Accepted ==> Appended(e, e', caller))
  {
    var r := e.SubmitKeyboard(caller, q);
    if r.1 == Accepted {
      assert KeyboardReport(r.0.keys).bytes[1..] == r.0.keys;
    }
  }

  lemma {:induction false} ConsumerAppends(e: Endpoint, caller: nat, q: Request)
    requires e.Bounded() && q.Consumer?
    ensures var (e', result) := e.SubmitConsumer(caller, q);
      e'.Bounded() && e'.keys == e.keys && e'.buttons == e.buttons && (result == Accepted ==> Appended(e, e', caller))
  {}

  lemma {:induction false} ButtonAppends(e: Endpoint, caller: nat, q: Request)
    requires e.Bounded() && q.Button?
    ensures var (e', result) := e.SubmitButton(caller, q);
      e'.Bounded() && e'.keys == e.keys && e'.consumer == e.consumer && (result == Accepted ==> Appended(e, e', caller))
  {}

  lemma {:induction false} PointerAppends(e: Endpoint, caller: nat, q: Request)
    requires e.Bounded() && (q.Relative? || q.Absolute?)
    ensures var (e', result) := if q.Relative? then e.SubmitRelative(caller, q) else e.SubmitAbsolute(caller, q);
      && e'.Bounded() && e'.keys == e.keys && e'.buttons == e.buttons && e'.consumer == e.consumer
      && (result == Accepted ==> Appended(e, e', caller))
  {}

  /** A report carries the device state it is about. */
  predicate Describes(e: Endpoint, r: Report) {
    && r.id == r.bytes[0] && r.id in {KEYBOARD_ID, RELATIVE_ID, ABSOLUTE_ID, CONSUMER_ID}
    && (r.id == KEYBOARD_ID ==> r.bytes[1..] == e.keys)
    && (r.id == RELATIVE_ID ==> r.bytes[1] == e.buttons)
    && (r.id == CONSUMER_ID ==> r.bytes[1] == e.consumer)
  }

  // ----- What every session keeps -----------------------------------------

  /** The newest report of one device in a stream, or a neutral one. */
  function Newest(s: seq<Report>, id: byte): (r: Report) {
    if s == [] then
      (if id == KEYBOARD_ID then Neutral()[0] else if id == RELATIVE_ID then Neutral()[1] else Neutral()[2])
    else if s[|s| - 1].id == id then s[|s| - 1]
    else Newest(s[..|s| - 1], id)
  }

  lemma {:induction false} NewestExtend(s: seq<Report>, x: Report, id: byte)
    ensures Newest(s + [x], id) == if x.id == id then x else Newest(s, id)
  {
    assert (s + [x])[..|s|] == s;
  }

  /** The device state is what the newest accepted report of each device says. */
  predicate StateIsNewest(s: Session) {
    && Newest(s.accepted, KEYBOARD_ID).bytes[1..] == s.e.keys
    && Newest(s.accepted, RELATIVE_ID).bytes[1] == s.e.buttons
    && Newest(s.accepted, CONSUMER_ID).bytes[1] == s.e.consumer
  }

  predicate Ends(s: seq<Report>, tail: seq<Report>) {
    |tail| <= |s| && s[|s| - |tail|..] == tail
  }

  predicate Good(s: Session) {
    && s.e.Bounded()
    && s.e.owner != 0 && s.e.state != Closed
    && s.retired <= |s.handed| <= s.retired + 1
    && (s.e.credit ==> s.retired == |s.handed| && (s.e.state == Active || s.e.state == Closing))
    && (s.retired < |s.handed| ==> s.e.retained == s.handed[|s.handed| - 1])
    && (s.e.state == Active ==> s.handed + s.e.queue == s.accepted && StateIsNewest(s))
    && (s.e.state == Closing ==> Ends(s.handed + s.e.queue, Neutral()) && |s.e.queue| <= 3)
    && (s.e.state == Drained ==> s.e.queue == [] && Ends(s.handed, Neutral()) && s.retired == |s.handed|)
    && (s.e.state == Faulted ==> s.e.queue == [])
  }

  /** One more accepted report, about the one device that may have changed. */
  lemma {:induction false} AcceptedGood(s: Session, e: Endpoint, x: Report)
    requires Good(s) && s.e.state == Active && e.Bounded()
    requires e == s.e.(keys := e.keys, buttons := e.buttons, consumer := e.consumer, queue := s.e.queue + [x])
    requires Describes(e, x)
    requires x.id != KEYBOARD_ID ==> e.keys == s.e.keys
    requires x.id != RELATIVE_ID ==> e.buttons == s.e.buttons
    requires x.id != CONSUMER_ID ==> e.consumer == s.e.consumer
    ensures Good(s.(e := e, accepted := s.accepted + [x]))
  {
    NewestExtend(s.accepted, x, KEYBOARD_ID);
    NewestExtend(s.accepted, x, RELATIVE_ID);
    NewestExtend(s.accepted, x, CONSUMER_ID);
  }

  lemma {:induction false} SubmitGood(s: Session, caller: nat, q: Request)
    requires Good(s)
    ensures Good(Step(s, Submit(caller, q)))
  {
    SubmitAppends(s.e, caller, q);
    var r := s.e.Submit(caller, q);
    if r.1 == Accepted {
      var x := r.0.queue[|r.0.queue| - 1];
      assert r.0.queue == s.e.queue + [x];
      StateTracks(s.e, caller, q);
      AcceptedGood(s, r.0, x);
    }
  }

  /** A device whose state changes is the one the new report is about. */
  lemma {:induction false} StateTracks(e: Endpoint, caller: nat, q: Request)
    requires e.Bounded()
    ensures e.Submit(caller, q).1 == Accepted ==>
      var queue := e.Submit(caller, q).0.queue;
      && queue != []
      && (q.Keyboard? ==> queue[|queue| - 1].id == KEYBOARD_ID)
      && (q.Button? ==> queue[|queue| - 1].id == RELATIVE_ID)
      && (q.Consumer? ==> queue[|queue| - 1].id == CONSUMER_ID)
  {
    match q
    case Keyboard(_, _, _, _) =>
    case Consumer(_, _, _, _) =>
    case Button(_, _, _, _) =>
    case Relative(_, _, _, _, _, _) =>
    case Absolute(_, _, _, _) =>
  }

  lemma {:induction false} TakeGood(s: Session)
    requires Good(s)
    ensures Good(Step(s, Take))
  {
    var s' := Step(s, Take);
    if s.e.Take().1.Some? {
      assert s'.handed + s'.e.queue == s.handed + s.e.queue;
    }
  }

  lemma {:induction false} CloseGood(s: Session, caller: nat)
    requires Good(s)
    ensures Good(Step(s, Close(caller)))
  {
    var s' := Step(s, Close(caller));
    if s'.e.state != s.e.state { assert Ends(s.handed + Neutral(), Neutral()); }
  }

  lemma {:induction false} ReadyGood(s: Session)
    requires Good(s)
    ensures Good(Step(s, Ready))
  {
    if s.e.state == Closing && s.e.queue == [] { assert s.handed + s.e.queue == s.handed; }
  }

  lemma {:induction false} StepGood(s: Session, op: Op)
    requires Good(s)
    ensures Good(Step(s, op))
  {
    match op
    case Open(_, _) =>
    case Submit(caller, q) => SubmitGood(s, caller, q);
    case Close(caller) => CloseGood(s, caller);
    case Ready => ReadyGood(s);
    case Take => TakeGood(s);
    case Failed =>
  }

  lemma {:induction false} SessionGood(owner: nat, verified: u32, ops: seq<Op>)
    requires owner != 0
    ensures Good(Exec(Start(owner, verified), ops))
  {
    if ops == [] {
      assert Neutral()[0].bytes[1..] == Zeros(KEY_BYTES);
    } else {
      SessionGood(owner, verified, ops[..|ops| - 1]);
      StepGood(Exec(Start(owner, verified), ops[..|ops| - 1]), ops[|ops| - 1]);
    }
  }

  // ----- The results ------------------------------------------------------

  /** No stuck input: every session that drains has handed VHF a neutral
      keyboard, mouse and consumer report after everything else, and VHF has
      finished with all of them. */
  lemma {:induction false} NoStuckInput(owner: nat, verified: u32, ops: seq<Op>)
    requires owner != 0 && Exec(Start(owner, verified), ops).e.state == Drained
    ensures var s := Exec(Start(owner, verified), ops);
      && s.retired == |s.handed|
      && Newest(s.handed, KEYBOARD_ID) == KeyboardReport(Zeros(KEY_BYTES))
      && Newest(s.handed, RELATIVE_ID) == RelativeReport(0, 0, 0, 0, 0)
      && Newest(s.handed, CONSUMER_ID) == ConsumerReport(0)
  {
    SessionGood(owner, verified, ops);
    var s := Exec(Start(owner, verified), ops);
    var n := Neutral();
    var before := s.handed[..|s.handed| - 3];
    assert s.handed == before + [n[0]] + [n[1]] + [n[2]];
    NewestExtend(before, n[0], KEYBOARD_ID);
    NewestExtend(before + [n[0]], n[1], KEYBOARD_ID);
    NewestExtend(before + [n[0]], n[1], RELATIVE_ID);
    NewestExtend(before + [n[0]] + [n[1]], n[2], KEYBOARD_ID);
    NewestExtend(before + [n[0]] + [n[1]], n[2], RELATIVE_ID);
    NewestExtend(before + [n[0]] + [n[1]], n[2], CONSUMER_ID);
  }

  /** While the owner keeps the endpoint open, what was handed to VHF followed by
      what is queued is exactly the accepted submissions, in order. */
  lemma {:induction false} AcceptedInOrder(owner: nat, verified: u32, ops: seq<Op>)
    requires owner != 0 && Exec(Start(owner, verified), ops).e.state == Active
    ensures var s := Exec(Start(owner, verified), ops); s.handed + s.e.queue == s.accepted
  {
    SessionGood(owner, verified, ops);
  }

  predicate KeyDown(r: Report, usage: nat)
    requires usage <= 0xE7
  {
    Bit(r.bytes[1 + usage / 8], usage % 8)
  }

  /** In every open session an accepted keyboard request produces a report that
      differs from the previous keyboard report in the requested key and in no other. */
  lemma {:induction false} KeyboardReportsDifferInOneKey(
    owner: nat, verified: u32, ops: seq<Op>, caller: nat, q: Request, usage: nat)
    requires owner != 0 && q.Keyboard? && usage <= 0xE7
    requires Exec(Start(owner, verified), ops).e.Submit(caller, q).1 == Accepted
    ensures var s := Exec(Start(owner, verified), ops);
      var before := Newest(s.accepted, KEYBOARD_ID);
      var after := Newest(Step(s, Submit(caller, q)).accepted, KEYBOARD_ID);
      && KeyDown(after, usage) == (if usage == q.usage then q.pressed == 1 else KeyDown(before, usage))
      && (KeyDown(before, q.usage) <==> q.pressed == 0)
  {
    SessionGood(owner, verified, ops);
    var s := Exec(Start(owner, verified), ops);
    var s', r := Step(s, Submit(caller, q)), s.e.Submit(caller, q);
    SubmitAppends(s.e, caller, q);
    NewestExtend(s.accepted, r.0.queue[|r.0.queue| - 1], KEYBOARD_ID);
    var before := Newest(s.accepted, KEYBOARD_ID);
    assert before.bytes[1..][usage / 8] == s.e.keys[usage / 8];
    assert before.bytes[1..][q.usage / 8] == s.e.keys[q.usage / 8];
    OneBitChanges(s.e.keys[q.usage / 8], q.usage % 8, q.pressed != 0, usage % 8);
    assert usage == usage / 8 * 8 + usage % 8 && q.usage == q.usage / 8 * 8 + q.usage % 8;
  }

  /** Without an unused credit nothing further is handed out before the next
      readiness, and the retained report stays as it is, through a close and
      through failures alike. A report VHF still holds is such a case. */
  lemma {:induction false} RetainedUntilReady(s: Session, ops: seq<Op>)
    requires Good(s) && !s.e.credit && Ready !in ops
    ensures var s' := Exec(s, ops);
      Good(s') && s'.handed == s.handed && s'.retired == s.retired && s'.e.retained == s.e.retained && !s'.e.credit
  {
    if ops != [] {
      var front := ops[..|ops| - 1];
      RetainedUntilReady(s, front);
      StepGood(Exec(s, front), ops[|ops| - 1]);
      assert ops[|ops| - 1] in ops;
      match ops[|ops| - 1]
      case Submit(caller, q) => SubmitAppends(Exec(s, front).e, caller, q);
      case Open(_, _) =>
      case Close(_) =>
      case Take =>
      case Failed =>
    }
  }

  /** A close keeps the retained report until the next readiness, whatever happens
      in between, if and only if it does not find an unused credit. */
  lemma {:induction false} CloseKeepsRetained(s: Session)
    requires Good(s) && s.e.state == Active
    ensures var closed := Step(s, Close(s.e.owner));
      !s.e.credit <==>
        forall ops: seq<Op> :: Ready !in ops ==>
          Exec(closed, ops).handed == s.handed && Exec(closed, ops).e.retained == s.e.retained
  {
    var closed := Step(s, Close(s.e.owner));
    if !s.e.credit {
      StepGood(s, Close(s.e.owner));
      forall ops: seq<Op> | Ready !in ops
        ensures Exec(closed, ops).handed == s.handed && Exec(closed, ops).e.retained == s.e.retained
      {
        RetainedUntilReady(closed, ops);
      }
    } else {
      CloseWithCredit(s);
      assert Ready !in [Take];
    }
  }

  /** With an unused credit the first neutral report goes out at once, over the retained one. */
  lemma {:induction false} CloseWithCredit(s: Session)
    requires Good(s) && s.e.state == Active && s.e.credit
    ensures var after := Exec(Step(s, Close(s.e.owner)), [Take]);
      after.handed == s.handed + [Neutral()[0]] && after.e.retained == Neutral()[0]
  {
    var closed := Step(s, Close(s.e.owner));
    assert [Take][..|[Take]| - 1] == [] && Exec(closed, []) == closed;
    assert Exec(closed, [Take]) == Step(closed, Take);
  }

  /** Such a close exists: the session's first readiness, before anything is queued. */
  lemma {:induction false} CloseOverwrites(owner: nat, verified: u32)
    requires owner != 0
    ensures var s := Exec(Start(owner, verified), [Ready]);
      && Good(s) && s.e.state == Active && s.e.credit
      && Exec(Step(s, Close(owner)), [Take]).e.retained != s.e.retained
  {
    var s := Exec(Start(owner, verified), [Ready]);
    SessionGood(owner, verified, [Ready]);
    assert [Ready][..|[Ready]| - 1] == [] && Exec(Start(owner, verified), []) == Start(owner, verified);
    CloseWithCredit(s);
    assert Neutral()[0].length == 30 && s.e.retained == BlankReport();
  }

  /** After an uncertain failure nothing is ever handed out again, and the
      report VHF may still be reading is kept until the child is deleted. */
  lemma {:induction false} FaultIsFinal(s: Session, ops: seq<Op>)
    requires Good(s) && s.e.state == Faulted
    ensures Exec(s, ops) == s
  {
    if ops != [] {
      FaultIsFinal(s, ops[..|ops| - 1]);
      match ops[|ops| - 1]
      case Submit(caller, q) => SubmitAppends(s.e, caller, q);
      case Open(_, _) =>
      case Close(_) =>
      case Ready =>
      case Take =>
      case Failed =>
    }
  }
}
