/** Whole runs of the report pump. Reports are tagged with their enqueue
    position, kind and discrete signature, and every reachable state of every
    sequence of operations is described against the history of the run. */
module PumpRuns {
  import opened Ring
  import opened ReportPumps

  datatype Tag = Tag(pos: nat, kind: Kind, sig: Signature)

  datatype Op = Enqueue(kind: Kind, sig: Signature) | SetReady | Take

  /** A pump and its history. `offered` and `sent` list the state reports
      (transitions and continuous snapshots) enqueued and handed over so far,
      `clock` numbers every enqueue, `handed` counts every hand-over and `lost`
      the transitions evicted by a full queue, without wrap-around. */
  datatype Run = Run(
    pump: Pump<Tag>,
    clock: nat,
    offered: seq<Tag>,
    sent: seq<Tag>,
    transitionsOffered: nat,
    transitionsSent: nat,
    handed: nat,
    lost: nat)

  const NOTHING := Tag(0, Priority, Signature(0, false, false))

  function Start(): Run {
    Run(Pump(false, NOTHING, [], [], [], None, 0), 0, [], [], 0, 0, 0, 0)
  }

  predicate IsState(kind: Kind) { kind == Transition || kind == Continuous }

  function One(b: bool): nat { if b then 1 else 0 }

  predicate Evicts(p: Pump<Tag>, kind: Kind)
    requires p.Bounded()
  {
    kind == Transition && |p.ordered| == TRANSITION_CAPACITY && !p.asides[0]
  }

  function Offer(r: Run, x: Tag): (r': Run)
    requires r.pump.Bounded()
    ensures r'.pump.Bounded()
  {
    r.(pump := r.pump.Enqueue(x, x.kind).0,
       clock := r.clock + 1,
       offered := if IsState(x.kind) then r.offered + [x] else r.offered,
       transitionsOffered := r.transitionsOffered + One(x.kind == Transition),
       lost := r.lost + One(Evicts(r.pump, x.kind)))
  }

  function HandOver(r: Run): (r': Run)
    requires r.pump.Bounded()
    ensures r'.pump.Bounded()
  {
    var result := r.pump.Take();
    if result.1 == None then r.(pump := result.0)
    else
      var x := result.1.value;
      r.(pump := result.0,
         sent := if IsState(x.kind) then r.sent + [x] else r.sent,
         transitionsSent := r.transitionsSent + One(x.kind == Transition),
         handed := r.handed + 1)
  }

  function Step(r: Run, op: Op): (r': Run)
    requires r.pump.Bounded()
    ensures r'.pump.Bounded()
  {
    match op
    case Enqueue(kind, sig) => Offer(r, Tag(r.clock, kind, sig))
    case SetReady => r.(pump := r.pump.SetReady())
    case Take => HandOver(r)
  }

  function Exec(r: Run, ops: seq<Op>): (r': Run)
    requires r.pump.Bounded()
    ensures r'.pump.Bounded()
  {
    if ops == [] then r else Step(Exec(r, ops[..|ops| - 1]), ops[|ops| - 1])
  }

  // ----- The ordered queue without its asides -----------------------------

  function Only(x: Tag): (t: seq<Tag>)
    ensures |t| <= 1
  {
    if x.kind == Aside then [] else [x]
  }

  function Strip(s: seq<Tag>): (t: seq<Tag>)
    ensures |t| <= |s|
  {
    if s == [] then [] else Only(s[0]) + Strip(s[1..])
  }

  lemma {:induction false} StripExtend(s: seq<Tag>, x: Tag)
    ensures Strip(s + [x]) == Strip(s) + Only(x)
  {
    if s == [] {
      assert s + [x] == [x];
    } else {
      assert (s + [x])[1..] == s[1..] + [x];
      StripExtend(s[1..], x);
    }
  }

  predicate QueueKinds(ordered: seq<Tag>, asides: seq<bool>) {
    |ordered| == |asides| && forall i :: 0 <= i < |ordered| ==> ordered[i].kind == if asides[i] then Aside else Transition
  }

  lemma {:induction false} QueueKindsKept(ordered: seq<Tag>, asides: seq<bool>, x: Tag, aside: bool)
    requires QueueKinds(ordered, asides) && x.kind == if aside then Aside else Transition
    ensures QueueKinds(ordered + [x], asides + [aside])
    ensures ordered != [] ==> QueueKinds(ordered[1..], asides[1..])
  {}

  predicate KindsAgree(p: Pump<Tag>)
    requires p.Bounded()
  {
    && (forall x :: x in p.priority ==> x.kind == Priority)
    && QueueKinds(p.ordered, p.asides)
    && (p.latest.Some? ==> p.latest.value.kind == Continuous)
  }

  function Snapshot(p: Pump<Tag>): seq<Tag> {
    if p.latest.Some? then [p.latest.value] else []
  }

  /** State reports that can no longer be superseded. */
  function Line(r: Run): seq<Tag> {
    r.sent + Strip(r.pump.ordered)
  }

  /** Every state report still alive: handed over, then pending in delivery order. */
  function Kept(r: Run): seq<Tag> {
    Line(r) + Snapshot(r.pump)
  }

  // ----- One step, seen on the line ---------------------------------------

  /** A full queue gives up its oldest entry; only an evicted transition shortens the line. */
  lemma {:induction false} FullQueue(queue: seq<Tag>, x: Tag)
    requires queue != [] && x.kind == Transition
    ensures queue[0].kind != Aside ==> Strip(queue) != []
    ensures Strip(queue[1..] + [x]) == (if queue[0].kind == Aside then Strip(queue) else Strip(queue)[1..]) + [x]
  {
    StripExtend(queue[1..], x);
  }

  lemma {:induction false} OfferTransition(r: Run, x: Tag)
    requires r.pump.Bounded() && KindsAgree(r.pump) && x.kind == Transition
    ensures KindsAgree(Offer(r, x).pump)
    ensures Snapshot(Offer(r, x).pump) == []
    ensures Evicts(r.pump, Transition) ==> Strip(r.pump.ordered) != []
    ensures Strip(Offer(r, x).pump.ordered) ==
      (if Evicts(r.pump, Transition) then Strip(r.pump.ordered)[1..] else Strip(r.pump.ordered)) + [x]
  {
    var o, a, p' := r.pump.ordered, r.pump.asides, Offer(r, x).pump;
    QueueKindsKept(o, a, x, false);
    if |o| == TRANSITION_CAPACITY {
      assert p'.ordered == o[1..] + [x] && p'.asides == a[1..] + [false];
      QueueKindsKept(o[1..], a[1..], x, false);
      FullQueue(o, x);
    } else {
      assert p'.ordered == o + [x] && p'.asides == a + [false];
      StripExtend(o, x);
    }
  }

  /** Anything but a transition leaves the line alone. */
  lemma {:induction false} OfferOther(r: Run, x: Tag)
    requires r.pump.Bounded() && KindsAgree(r.pump) && x.kind != Transition
    ensures KindsAgree(Offer(r, x).pump)
    ensures Strip(Offer(r, x).pump.ordered) == Strip(r.pump.ordered)
    ensures Snapshot(Offer(r, x).pump) == if x.kind == Continuous then [x] else Snapshot(r.pump)
  {
    var p' := Offer(r, x).pump;
    match x.kind
    case Continuous => assert p' == r.pump.(latest := Some(x));
    case Priority =>
      assert p' == r.pump || p' == r.pump.(priority := r.pump.priority + [x]);
      assert KindsAgree(p');
    case Aside =>
      if |r.pump.ordered| < TRANSITION_CAPACITY {
        assert p'.ordered == r.pump.ordered + [x] && p'.asides == r.pump.asides + [true];
        QueueKindsKept(r.pump.ordered, r.pump.asides, x, true);
        StripExtend(r.pump.ordered, x);
      } else {
        assert p' == r.pump;
      }
  }

  predicate TakesSnapshot(p: Pump<Tag>) {
    p.ready && p.priority == [] && p.ordered == [] && p.latest.Some?
  }

  /** A hand-over only moves the boundary between sent and pending. */
  lemma {:induction false} TakeMovesBoundary(r: Run)
    requires r.pump.Bounded() && KindsAgree(r.pump)
    ensures KindsAgree(HandOver(r).pump)
    ensures Line(HandOver(r)) == if TakesSnapshot(r.pump) then Line(r) + Snapshot(r.pump) else Line(r)
    ensures Snapshot(HandOver(r).pump) == if TakesSnapshot(r.pump) then [] else Snapshot(r.pump)
    ensures HandOver(r).transitionsSent + |Strip(HandOver(r).pump.ordered)|
         == r.transitionsSent + |Strip(r.pump.ordered)|
  {
    var p, r' := r.pump, HandOver(r);
    if p.ready && p.priority != [] {
      assert p.priority[0].kind == Priority;
      assert r'.pump == p.(ready := false, inFlight := p.priority[0], priority := p.priority[1..]);
      assert KindsAgree(r'.pump) && Line(r') == Line(r);
    } else if p.ready && p.ordered != [] {
      assert r'.pump.ordered == p.ordered[1..] && r'.pump.asides == p.asides[1..];
      assert r'.sent == r.sent + Only(p.ordered[0]);
      assert Line(r') == Line(r);
    }
  }

  // ----- Order ------------------------------------------------------------

  predicate Increasing(s: seq<Tag>) {
    forall i, j :: 0 <= i < j < |s| ==> s[i].pos < s[j].pos
  }

  /** `kept` is in strictly increasing enqueue order and ends in the newest report offered. */
  predicate OrderedLog(kept: seq<Tag>, offered: seq<Tag>, clock: nat) {
    && Increasing(kept)
    && (forall x :: x in kept ==> x.pos < clock)
    && (offered == [] <==> kept == [])
    && (offered != [] ==> kept[|kept| - 1] == offered[|offered| - 1])
  }

  predicate InOrder(r: Run)
    requires r.pump.Bounded()
  {
    KindsAgree(r.pump) && OrderedLog(Kept(r), r.offered, r.clock)
  }

  /** Dropping the snapshot, and possibly the element at `k`, then appending a
      newer report keeps the log ordered. */
  lemma {:induction false} AppendNewest(line: seq<Tag>, snapshot: seq<Tag>, offered: seq<Tag>, clock: nat, k: nat, x: Tag)
    requires OrderedLog(line + snapshot, offered, clock) && x.pos == clock
    ensures OrderedLog(line + [x], offered + [x], clock + 1)
    ensures k < |line| ==> OrderedLog(line[..k] + line[k + 1..] + [x], offered + [x], clock + 1)
  {
    var kept, a := line + snapshot, line + [x];
    assert forall i :: 0 <= i < |line| ==> line[i] == kept[i];
    assert Increasing(a);
    assert forall y :: y in a ==> y in kept || y == x;
    if k < |line| {
      var b := line[..k] + line[k + 1..] + [x];
      assert Increasing(b);
      assert forall y :: y in b ==> y in kept || y == x;
    }
  }

  /** A transition supersedes the snapshot, and takes the place of an evicted one. */
  lemma {:induction false} TransitionKept(r: Run, x: Tag)
    requires r.pump.Bounded() && KindsAgree(r.pump) && x.kind == Transition
    ensures var line, k := Line(r), |r.sent|;
      if Evicts(r.pump, Transition) then
        k < |line| && Kept(Offer(r, x)) == line[..k] + line[k + 1..] + [x]
      else Kept(Offer(r, x)) == line + [x]
  {
    OfferTransition(r, x);
    var line, k, queued := Line(r), |r.sent|, Strip(r.pump.ordered);
    assert line[..k] == r.sent;
    if Evicts(r.pump, Transition) {
      assert line[k + 1..] == queued[1..];
      assert Kept(Offer(r, x)) == r.sent + (queued[1..] + [x]) + [];
    } else {
      assert Kept(Offer(r, x)) == r.sent + (queued + [x]) + [];
    }
  }

  lemma {:induction false} OfferTransitionInOrder(r: Run, x: Tag)
    requires r.pump.Bounded() && InOrder(r) && x.pos == r.clock && x.kind == Transition
    ensures InOrder(Offer(r, x))
  {
    OfferTransition(r, x);
    TransitionKept(r, x);
    AppendNewest(Line(r), Snapshot(r.pump), r.offered, r.clock, |r.sent|, x);
  }

  /** The log after anything but a transition. */
  lemma {:induction false} OtherKept(r: Run, x: Tag)
    requires r.pump.Bounded() && KindsAgree(r.pump) && x.kind != Transition
    ensures Kept(Offer(r, x)) == if x.kind == Continuous then Line(r) + [x] else Kept(r)
  {
    OfferOther(r, x);
  }

  lemma {:induction false} OfferOtherInOrder(r: Run, x: Tag)
    requires r.pump.Bounded() && InOrder(r) && x.pos == r.clock && x.kind != Transition
    ensures InOrder(Offer(r, x))
  {
    OfferOther(r, x);
    OtherKept(r, x);
    AppendNewest(Line(r), Snapshot(r.pump), r.offered, r.clock, 0, x);
  }

  lemma {:induction false} TakeInOrder(r: Run)
    requires r.pump.Bounded() && InOrder(r)
    ensures InOrder(HandOver(r))
  {
    TakeMovesBoundary(r);
    assert Kept(HandOver(r)) == Kept(r);
  }

  lemma {:induction false} RunInOrder(ops: seq<Op>)
    ensures InOrder(Exec(Start(), ops))
  {
    if ops == [] {
      assert Kept(Start()) == [];
    } else {
      var r, op := Exec(Start(), ops[..|ops| - 1]), ops[|ops| - 1];
      RunInOrder(ops[..|ops| - 1]);
      assert InOrder(Step(r, op)) by {
        match op
        case Enqueue(kind, sig) =>
          var x := Tag(r.clock, kind, sig);
          if kind == Transition { OfferTransitionInOrder(r, x); } else { OfferOtherInOrder(r, x); }
        case SetReady => assert Kept(Step(r, SetReady)) == Kept(r);
        case Take => TakeInOrder(r);
      }
    }
  }

  lemma {:induction false} PartsInOrder(sent: seq<Tag>, queued: seq<Tag>, snapshot: seq<Tag>)
    requires Increasing(sent + queued + snapshot)
    ensures Increasing(sent)
    ensures forall x, y :: x in sent && (y in queued || y in snapshot) ==> x.pos < y.pos
  {
    var all := sent + queued + snapshot;
    assert forall i :: 0 <= i < |sent| ==> sent[i] == all[i];
    assert forall j :: 0 <= j < |queued| ==> queued[j] == all[|sent| + j];
    assert forall j :: 0 <= j < |snapshot| ==> snapshot[j] == all[|sent| + |queued| + j];
  }

  /** Controller state never goes backwards: in every run the state reports
      handed over have strictly increasing positions, everything pending is newer
      than everything handed over, and the newest state report offered is
      handed over or still pending, whatever was superseded or evicted. */
  lemma {:induction false} StateNeverGoesBackwards(ops: seq<Op>)
    ensures var r := Exec(Start(), ops);
      var pending := Strip(r.pump.ordered) + Snapshot(r.pump);
      && Increasing(r.sent)
      && (forall x, y :: x in r.sent && y in pending ==> x.pos < y.pos)
      && (r.offered != [] ==>
            r.offered[|r.offered| - 1] in r.sent || r.offered[|r.offered| - 1] in pending)
  {
    RunInOrder(ops);
    var r := Exec(Start(), ops);
    PartsInOrder(r.sent, Strip(r.pump.ordered), Snapshot(r.pump));
  }

  predicate Conserved(r: Run) {
    && r.transitionsOffered == r.transitionsSent + |Strip(r.pump.ordered)| + r.lost
    && r.pump.dropped == r.lost % TWO_TO_32
  }

  lemma {:induction false} QueuedCount(r: Run, x: Tag)
    requires r.pump.Bounded() && KindsAgree(r.pump)
    ensures |Strip(Offer(r, x).pump.ordered)| + One(Evicts(r.pump, x.kind))
         == |Strip(r.pump.ordered)| + One(x.kind == Transition)
  {
    if x.kind == Transition { OfferTransition(r, x); } else { OfferOther(r, x); }
  }

  lemma {:induction false} OfferConserved(r: Run, x: Tag)
    requires r.pump.Bounded() && KindsAgree(r.pump) && Conserved(r)
    ensures Conserved(Offer(r, x))
  {
    DroppedCount(r, x);
    QueuedCount(r, x);
    CountOn(r.lost, One(Evicts(r.pump, x.kind)));
  }

  /** A wrapped counter counts on. */
  lemma {:induction false} CountOn(total: nat, more: nat)
    ensures (total % TWO_TO_32 + more) % TWO_TO_32 == (total + more) % TWO_TO_32
  {}

  lemma {:induction false} DroppedCount(r: Run, x: Tag)
    requires r.pump.Bounded()
    ensures Offer(r, x).pump.dropped == (r.pump.dropped + One(Evicts(r.pump, x.kind))) % TWO_TO_32
  {
    match x.kind
    case Priority => assert Offer(r, x).pump.dropped == r.pump.dropped;
    case Continuous => assert Offer(r, x).pump.dropped == r.pump.dropped;
    case Aside => assert Offer(r, x).pump.dropped == r.pump.dropped;
    case Transition =>
  }

  /** Conservation: every transition offered was handed over, is queued or was
      counted as dropped; asides and replies never enter the count. */
  lemma {:induction false} TransitionsConserved(ops: seq<Op>)
    ensures var r := Exec(Start(), ops);
      && r.transitionsOffered == r.transitionsSent + |Strip(r.pump.ordered)| + r.lost
      && r.pump.dropped == r.lost % TWO_TO_32
  {
    if ops != [] {
      var r, op := Exec(Start(), ops[..|ops| - 1]), ops[|ops| - 1];
      TransitionsConserved(ops[..|ops| - 1]);
      RunInOrder(ops[..|ops| - 1]);
      assert Conserved(Step(r, op)) by {
        match op
        case Enqueue(kind, sig) => OfferConserved(r, Tag(r.clock, kind, sig));
        case SetReady =>
        case Take => TakeMovesBoundary(r);
      }
    }
  }

  /** An aside displaces nothing: neither a queued transition nor the pending
      snapshot, whether or not the queue is full. */
  lemma {:induction false} AsideDisplacesNothing(r: Run, sig: Signature)
    requires r.pump.Bounded() && KindsAgree(r.pump)
    ensures var r' := Step(r, Enqueue(Aside, sig));
      Kept(r') == Kept(r) && r'.lost == r.lost && r'.pump.dropped == r.pump.dropped
  {
    OfferOther(r, Tag(r.clock, Aside, sig));
  }

  // ----- One credit, one retained buffer ---------------------------------

  function Grants(ops: seq<Op>): nat {
    if ops == [] then 0 else Grants(ops[..|ops| - 1]) + One(ops[|ops| - 1] == SetReady)
  }

  /** From a pump without credit, at most one report goes out per readiness
      grant, and until the next grant the buffer VHF holds does not change. */
  lemma {:induction false} OneReportPerGrant(r: Run, ops: seq<Op>)
    requires r.pump.Bounded() && !r.pump.ready
    ensures var r' := Exec(r, ops);
      && r.handed + Grants(ops) >= r'.handed + One(r'.pump.ready)
      && (Grants(ops) == 0 ==> r'.pump.inFlight == r.pump.inFlight && r'.handed == r.handed)
  {
    if ops != [] {
      OneReportPerGrant(r, ops[..|ops| - 1]);
    }
  }

  // ----- No discrete edge is lost ----------------------------------------

  /** Every continuous report repeats the signature of the state report before
      it, as `Classify` guarantees. */
  predicate Classified(offered: seq<Tag>) {
    forall i :: 0 <= i < |offered| && offered[i].kind == Continuous ==>
      0 < i && offered[i - 1].sig == offered[i].sig
  }

  /** The signatures of a sequence of reports, adjacent repetitions removed. */
  function Edges(s: seq<Tag>): seq<Signature> {
    if s == [] then []
    else if |s| >= 2 && s[|s| - 1].sig == s[|s| - 2].sig then Edges(s[..|s| - 1])
    else Edges(s[..|s| - 1]) + [s[|s| - 1].sig]
  }

  lemma {:induction false} EdgesExtend(s: seq<Tag>, x: Tag)
    ensures Edges(s + [x]) == if s != [] && s[|s| - 1].sig == x.sig then Edges(s) else Edges(s) + [x.sig]
  {
    assert (s + [x])[..|s|] == s;
  }

  /** The line and the snapshot show the client's discrete states. */
  predicate Shows(line: seq<Tag>, latest: Option<Tag>, offered: seq<Tag>) {
    if offered == [] then line == [] && latest == None
    else
      var current := offered[|offered| - 1].sig;
      && line != []
      && line[|line| - 1].sig == current
      && (latest.Some? ==> latest.value.sig == current)
      && Edges(line) == Edges(offered)
  }

  lemma {:induction false} ShowsNext(line: seq<Tag>, latest: Option<Tag>, offered: seq<Tag>, x: Tag)
    requires Shows(line, latest, offered)
    ensures Shows(line + [x], None, offered + [x])
    ensures offered != [] && offered[|offered| - 1].sig == x.sig ==> Shows(line, Some(x), offered + [x])
  {
    EdgesExtend(offered, x);
    EdgesExtend(line, x);
  }

  predicate SameEdges(r: Run) { Shows(Line(r), r.pump.latest, r.offered) }

  lemma {:induction false} OfferSameEdges(r: Run, x: Tag)
    requires r.pump.Bounded() && KindsAgree(r.pump) && SameEdges(r)
    requires !Evicts(r.pump, x.kind)
    requires x.kind == Continuous ==> r.offered != [] && r.offered[|r.offered| - 1].sig == x.sig
    ensures SameEdges(Offer(r, x))
  {
    ShowsNext(Line(r), r.pump.latest, r.offered, x);
    if x.kind == Transition {
      OfferTransition(r, x);
      assert Line(Offer(r, x)) == Line(r) + [x];
    } else {
      OfferOther(r, x);
      assert Line(Offer(r, x)) == Line(r);
    }
  }

  lemma {:induction false} TakeSameEdges(r: Run)
    requires r.pump.Bounded() && KindsAgree(r.pump) && SameEdges(r)
    ensures SameEdges(HandOver(r))
  {
    TakeMovesBoundary(r);
    if TakesSnapshot(r.pump) {
      EdgesExtend(Line(r), r.pump.latest.value);
    }
  }

  lemma {:induction false} LostGrows(r: Run, op: Op)
    requires r.pump.Bounded()
    ensures Step(r, op).lost >= r.lost
  {}

  lemma {:induction false} StepSameEdges(r: Run, op: Op)
    requires r.pump.Bounded() && KindsAgree(r.pump) && SameEdges(r)
    requires Classified(Step(r, op).offered) && Step(r, op).lost == r.lost
    ensures SameEdges(Step(r, op))
  {
    match op
    case Enqueue(kind, sig) =>
      if kind == Continuous {
        var offered := r.offered + [Tag(r.clock, kind, sig)];
        assert Step(r, op).offered == offered && offered[|r.offered|].kind == Continuous;
        assert r.offered != [] && offered[|r.offered| - 1] == r.offered[|r.offered| - 1];
      }
      OfferSameEdges(r, Tag(r.clock, kind, sig));
    case SetReady => assert Line(Step(r, op)) == Line(r);
    case Take => TakeSameEdges(r);
  }

  lemma {:induction false} RunSameEdges(ops: seq<Op>)
    requires Classified(Exec(Start(), ops).offered) && Exec(Start(), ops).lost == 0
    ensures SameEdges(Exec(Start(), ops))
  {
    if ops == [] {
      assert Line(Start()) == [];
    } else {
      var prior := ops[..|ops| - 1];
      var r, r' := Exec(Start(), prior), Exec(Start(), ops);
      assert forall i :: 0 <= i < |r.offered| ==> r'.offered[i] == r.offered[i];
      RunSameEdges(prior);
      RunInOrder(prior);
      LostGrows(r, ops[|ops| - 1]);
      StepSameEdges(r, ops[|ops| - 1]);
    }
  }

  /** No press or release is lost: while the ordered queue has evicted no
      transition, the reader sees exactly the sequence of discrete states the
      client produced, however many snapshots were coalesced or superseded. */
  lemma {:induction false} EveryEdgeReachesTheReader(ops: seq<Op>)
    requires Classified(Exec(Start(), ops).offered) && Exec(Start(), ops).lost == 0
    ensures Edges(Kept(Exec(Start(), ops))) == Edges(Exec(Start(), ops).offered)
  {
    RunSameEdges(ops);
    var r := Exec(Start(), ops);
    if r.pump.latest.Some? {
      EdgesExtend(Line(r), r.pump.latest.value);
    } else {
      assert Kept(r) == Line(r);
    }
  }

  // ----- The tagged runs are the runs of the real pump --------------------

  function Map<T, U>(s: seq<T>, f: T -> U): (t: seq<U>)
    ensures |t| == |s| && forall i :: 0 <= i < |s| ==> t[i] == f(s[i])
  {
    seq(|s|, i requires 0 <= i < |s| => f(s[i]))
  }

  function Relabel<T, U>(p: Pump<T>, f: T -> U): Pump<U> {
    Pump(p.ready, f(p.inFlight), Map(p.priority, f), Map(p.ordered, f), p.asides,
         if p.latest.Some? then Some(f(p.latest.value)) else None, p.dropped)
  }

  /** The pump never looks inside a report: replacing every tag by the bytes it
      stands for commutes with every operation. */
  lemma {:induction false} RelabelEnqueue<T, U>(p: Pump<T>, f: T -> U, x: T, kind: Kind)
    requires p.Bounded()
    ensures Relabel(p.Enqueue(x, kind).0, f) == Relabel(p, f).Enqueue(f(x), kind).0
    ensures p.Enqueue(x, kind).1 == Relabel(p, f).Enqueue(f(x), kind).1
  {
    match kind
    case Priority => assert Map(p.priority + [x], f) == Map(p.priority, f) + [f(x)];
    case Continuous =>
    case Aside => assert Map(p.ordered + [x], f) == Map(p.ordered, f) + [f(x)];
    case Transition =>
      if |p.ordered| == TRANSITION_CAPACITY {
        assert Map(p.ordered[1..] + [x], f) == Map(p.ordered, f)[1..] + [f(x)];
      } else {
        assert Map(p.ordered + [x], f) == Map(p.ordered, f) + [f(x)];
      }
  }

  lemma {:induction false} RelabelTake<T, U>(p: Pump<T>, f: T -> U)
    requires p.Bounded()
    ensures Relabel(p.Take().0, f) == Relabel(p, f).Take().0
    ensures Relabel(p, f).Take().1 == if p.Take().1.Some? then Some(f(p.Take().1.value)) else None
  {
    if p.ready && p.priority != [] {
      assert Map(p.priority[1..], f) == Map(p.priority, f)[1..];
    } else if p.ready && p.ordered != [] {
      assert Map(p.ordered[1..], f) == Map(p.ordered, f)[1..];
    }
  }
}
