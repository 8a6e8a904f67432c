/** The report pump's replies and asides: what must not be coalesced reaches the
    reader completely and in order, and a credit is never left unused. */
module PumpReplies {
  import opened Ring
  import opened ReportPumps
  import opened PumpRuns

  /** A pump and the log of the replies it accepted, and of everything it handed over. */
  datatype Log = Log(pump: Pump<Tag>, clock: nat, accepted: seq<Tag>, sent: seq<Tag>)

  function Begin(): Log { Log(PumpRuns.Start().pump, 0, [], []) }

  function Next(l: Log, op: Op): (l': Log)
    requires l.pump.Bounded()
    ensures l'.pump.Bounded()
  {
    match op
    case Enqueue(kind, sig) =>
      var x := Tag(l.clock, kind, sig);
      var (pump, kept) := l.pump.Enqueue(x, kind);
      l.(pump := pump, clock := l.clock + 1, accepted := if kind == Priority && kept then l.accepted + [x] else l.accepted)
    case SetReady => l.(pump := l.pump.SetReady())
    case Take =>
      var (pump, given) := l.pump.Take();
      l.(pump := pump, sent := if given.Some? then l.sent + [given.value] else l.sent)
  }

  function Logged(ops: seq<Op>): (l: Log)
    ensures l.pump.Bounded()
  {
    if ops == [] then Begin() else Next(Logged(ops[..|ops| - 1]), ops[|ops| - 1])
  }

  /** The reports of one kind, in order. */
  function Of(s: seq<Tag>, kind: Kind): (t: seq<Tag>) {
    if s == [] then [] else Of(s[..|s| - 1], kind) + (if s[|s| - 1].kind == kind then [s[|s| - 1]] else [])
  }

  lemma {:induction false} OfExtend(s: seq<Tag>, x: Tag, kind: Kind)
    ensures Of(s + [x], kind) == Of(s, kind) + (if x.kind == kind then [x] else [])
  {
    assert (s + [x])[..|s|] == s;
  }

  // ----- Kinds ------------------------------------------------------------

  lemma {:induction false} KindsNext(l: Log, op: Op)
    requires l.pump.Bounded() && KindsAgree(l.pump)
    ensures KindsAgree(Next(l, op).pump)
  {
    var r := Run(l.pump, l.clock, [], [], 0, 0, 0, 0);
    match op
    case Enqueue(kind, sig) =>
      var x := Tag(l.clock, kind, sig);
      if kind == Transition { OfferTransition(r, x); } else { OfferOther(r, x); }
    case SetReady =>
    case Take => TakeMovesBoundary(r);
  }

  lemma {:induction false} KindsLogged(ops: seq<Op>)
    ensures KindsAgree(Logged(ops).pump)
  {
    if ops != [] {
      KindsLogged(ops[..|ops| - 1]);
      KindsNext(Logged(ops[..|ops| - 1]), ops[|ops| - 1]);
    }
  }

  // ----- Replies ----------------------------------------------------------

  predicate Complete(l: Log) { l.accepted == Of(l.sent, Priority) + l.pump.priority }

  lemma {:induction false} OfferComplete(l: Log, kind: Kind, sig: Signature)
    requires l.pump.Bounded() && Complete(l)
    ensures Complete(Next(l, Enqueue(kind, sig)))
  {
    var x := Tag(l.clock, kind, sig);
    match kind
    case Priority => assert Of(l.sent, Priority) + (l.pump.priority + [x]) == (Of(l.sent, Priority) + l.pump.priority) + [x];
    case Continuous =>
    case Transition =>
    case Aside =>
  }

  /** Handing over the first of the pending moves the boundary and nothing else. */
  lemma {:induction false} HeadMoves(a: seq<Tag>, b: seq<Tag>)
    requires b != []
    ensures (a + [b[0]]) + b[1..] == a + b
  {}

  /** What a hand-over gives, from the class it comes from. */
  predicate Gives(p: Pump<Tag>, p': Pump<Tag>, x: Tag)
    requires p.Bounded() && p'.Bounded()
  {
    if p.priority != [] then x == p.priority[0] && x.kind == Priority && p'.priority == p.priority[1..] && p'.ordered == p.ordered
    else if p.ordered != [] then
      && x == p.ordered[0] && (x.kind == Transition || x.kind == Aside)
      && p'.priority == p.priority && p'.ordered == p.ordered[1..]
    else x.kind == Continuous && p'.priority == p.priority && p'.ordered == p.ordered
  }

  lemma {:induction false} TakeGives(l: Log)
    requires l.pump.Bounded() && KindsAgree(l.pump)
    ensures var l' := Next(l, Take);
      && l'.accepted == l.accepted && l'.clock == l.clock
      && if l'.sent == l.sent then l'.pump == l.pump
         else |l'.sent| == |l.sent| + 1 && l'.sent == l.sent + [l'.sent[|l.sent|]] && Gives(l.pump, l'.pump, l'.sent[|l.sent|])
  {
    var p := l.pump;
    if p.priority != [] { assert p.priority[0] in p.priority; }
  }

  lemma {:induction false} GivenComplete(accepted: seq<Tag>, sent: seq<Tag>, p: Pump<Tag>, p': Pump<Tag>, x: Tag)
    requires p.Bounded() && p'.Bounded() && Gives(p, p', x) && accepted == Of(sent, Priority) + p.priority
    ensures accepted == Of(sent + [x], Priority) + p'.priority
  {
    OfExtend(sent, x, Priority);
    if p.priority != [] { HeadMoves(Of(sent, Priority), p.priority); }
  }

  lemma {:induction false} TakeComplete(l: Log)
    requires l.pump.Bounded() && KindsAgree(l.pump) && Complete(l)
    ensures Complete(Next(l, Take))
  {
    TakeGives(l);
    var l' := Next(l, Take);
    if l'.sent != l.sent { GivenComplete(l.accepted, l.sent, l.pump, l'.pump, l'.sent[|l.sent|]); }
  }

  /** Over every run the replies accepted are exactly those handed over followed by
      those pending, each once and in order. */
  lemma {:induction false} RepliesInOrder(ops: seq<Op>)
    ensures Logged(ops).accepted == Of(Logged(ops).sent, Priority) + Logged(ops).pump.priority
  {
    if ops != [] {
      var l := Logged(ops[..|ops| - 1]);
      RepliesInOrder(ops[..|ops| - 1]);
      KindsLogged(ops[..|ops| - 1]);
      match ops[|ops| - 1]
      case Enqueue(kind, sig) => OfferComplete(l, kind, sig);
      case SetReady =>
      case Take => TakeComplete(l);
    }
  }

  /** A reply is refused only when four accepted ones have not been handed over yet. */
  lemma {:induction false} RefusedOnlyBehindFour(ops: seq<Op>, sig: Signature)
    ensures var l := Logged(ops);
      Next(l, Enqueue(Priority, sig)).accepted == l.accepted <==> |l.accepted| - |Of(l.sent, Priority)| == 4
  {
    RepliesInOrder(ops);
  }

  // ----- The ordered queue ------------------------------------------------

  /** Transitions and asides handed over, then those pending. */
  function Ordinary(l: Log): seq<Tag> { Except(l.sent) + l.pump.ordered }

  /** Everything but replies and snapshots. */
  function Except(s: seq<Tag>): (t: seq<Tag>) {
    if s == [] then []
    else Except(s[..|s| - 1]) + (if s[|s| - 1].kind == Transition || s[|s| - 1].kind == Aside then [s[|s| - 1]] else [])
  }

  lemma {:induction false} ExceptExtend(s: seq<Tag>, x: Tag)
    ensures Except(s + [x]) == Except(s) + (if x.kind == Transition || x.kind == Aside then [x] else [])
  {
    assert (s + [x])[..|s|] == s;
  }

  predicate Lined(l: Log) {
    Increasing(Ordinary(l)) && Older(Ordinary(l), l.clock)
  }

  predicate Older(s: seq<Tag>, clock: nat) { forall x :: x in s ==> x.pos < clock }

  lemma {:induction false} LineGrows(line: seq<Tag>, clock: nat, x: Tag)
    requires Increasing(line) && Older(line, clock) && x.pos == clock
    ensures Increasing(line + [x]) && Older(line + [x], clock + 1)
  {
    assert forall i :: 0 <= i < |line| ==> (line + [x])[i] == line[i] && line[i] in line;
  }

  lemma {:induction false} LineLoses(sent: seq<Tag>, queue: seq<Tag>, clock: nat)
    requires Increasing(sent + queue) && Older(sent + queue, clock) && queue != []
    ensures Increasing(sent + queue[1..]) && Older(sent + queue[1..], clock)
  {
    var line, shorter := sent + queue, sent + queue[1..];
    forall i | 0 <= i < |shorter| ensures shorter[i] == line[if i < |sent| then i else i + 1] {}
  }

  lemma {:induction false} OfferLined(l: Log, kind: Kind, sig: Signature)
    requires l.pump.Bounded() && Lined(l)
    ensures Lined(Next(l, Enqueue(kind, sig)))
  {
    var x, sent, queue := Tag(l.clock, kind, sig), Except(l.sent), l.pump.ordered;
    if (kind == Transition || kind == Aside) && |queue| < TRANSITION_CAPACITY {
      LineGrows(sent + queue, l.clock, x);
      assert sent + (queue + [x]) == (sent + queue) + [x];
    } else if kind == Transition {
      LineLoses(sent, queue, l.clock);
      LineGrows(sent + queue[1..], l.clock, x);
      assert sent + (queue[1..] + [x]) == (sent + queue[1..]) + [x];
    }
  }

  lemma {:induction false} GivenLined(sent: seq<Tag>, p: Pump<Tag>, p': Pump<Tag>, x: Tag)
    requires p.Bounded() && p'.Bounded() && Gives(p, p', x)
    ensures Except(sent + [x]) + p'.ordered == Except(sent) + p.ordered
  {
    ExceptExtend(sent, x);
    if p.priority == [] && p.ordered != [] { HeadMoves(Except(sent), p.ordered); }
  }

  lemma {:induction false} TakeLined(l: Log)
    requires l.pump.Bounded() && KindsAgree(l.pump)
    ensures Ordinary(Next(l, Take)) == Ordinary(l) && Next(l, Take).clock == l.clock
  {
    TakeGives(l);
    var l' := Next(l, Take);
    if l'.sent != l.sent { GivenLined(l.sent, l.pump, l'.pump, l'.sent[|l.sent|]); }
  }

  /** Over every run transitions and asides leave in the order they came in, among
      each other as well: an acknowledgement never overtakes the state it answers. */
  lemma {:induction false} AsidesKeepTheirPlace(ops: seq<Op>)
    ensures Lined(Logged(ops))
  {
    if ops == [] {
      assert Ordinary(Begin()) == [];
    } else {
      var l := Logged(ops[..|ops| - 1]);
      AsidesKeepTheirPlace(ops[..|ops| - 1]);
      KindsLogged(ops[..|ops| - 1]);
      match ops[|ops| - 1]
      case Enqueue(kind, sig) => OfferLined(l, kind, sig);
      case SetReady => assert Ordinary(Next(l, SetReady)) == Ordinary(l);
      case Take => TakeLined(l);
    }
  }

  /** An aside is accepted exactly when fewer than sixteen transitions and asides are
      pending, and is then the last of them. */
  lemma {:induction false} AsideIsLast(l: Log, sig: Signature)
    requires l.pump.Bounded()
    ensures var l' := Next(l, Enqueue(Aside, sig));
      if |l.pump.ordered| < 16 then Ordinary(l') == Ordinary(l) + [Tag(l.clock, Aside, sig)] else Ordinary(l') == Ordinary(l)
  {
    var x := Tag(l.clock, Aside, sig);
    if |l.pump.ordered| < 16 { assert Except(l.sent) + (l.pump.ordered + [x]) == Ordinary(l) + [x]; }
  }

  // ----- Credits ----------------------------------------------------------

  /** In every run a credit is used as soon as there is anything to send, on a reply
      before a transition or aside, and on these before a snapshot; and the buffer VHF
      reads is then the report handed over. */
  lemma {:induction false} CreditIsUsed(ops: seq<Op>)
    ensures var l, l' := Logged(ops), Next(Logged(ops), Take);
      && (l'.sent != l.sent <==> l.pump.ready && !l.pump.Empty())
      && (l'.sent != l.sent ==>
            var x := l'.sent[|l'.sent| - 1];
            && l'.sent == l.sent + [x] && !l'.pump.ready && l'.pump.inFlight == x
            && (x.kind == Priority <==> l.pump.priority != [])
            && (x.kind == Continuous <==> l.pump.priority == [] && l.pump.ordered == []))
  {
    KindsLogged(ops);
    var p := Logged(ops).pump;
    if p.priority != [] { assert p.priority[0] in p.priority; }
  }

  /** In every run a readiness brings the next report out, if and only if one waits. */
  lemma {:induction false} GrantDelivers(ops: seq<Op>)
    ensures var l := Logged(ops);
      Next(Next(l, SetReady), Take).sent != l.sent <==> !l.pump.Empty()
  {}

  /** What is kept of a report: all of it, or its first 64 bytes, under its own id. */
  lemma {:induction false} StoredWhole(data: seq<uint8>, id: uint8)
    ensures |data| <= 64 ==> Store(data, id) == Report(data, id)
    ensures |data| > 64 ==> Store(data, id) == Report(data[..64], id)
  {}
}
