/** Whole runs of the haptic ring: every event offered since the slot was
    created is accounted for by its position in the stream of writes. */
module HapticRuns {
  import opened Ring
  import opened SteamHaptics

  datatype Op = Offer(event: Event) | Poll

  /** `stamps[i]` is the stream position of `contents[i]`; `delivered` lists the
      positions the host has polled; the counters are without wrap-around. */
  datatype Run = Run(
    contents: seq<Event>,
    stamps: seq<nat>,
    log: seq<Event>,
    delivered: seq<nat>,
    refused: bool,
    ordinaryOffered: nat,
    ordinaryDelivered: nat,
    evicted: nat)

  function Start(): Run { Run([], [], [], [], false, 0, 0, 0) }

  function One(b: bool): nat { if b then 1 else 0 }

  function Add(r: Run, e: Event, capacity: nat): (r': Run)
    requires |r.stamps| == |r.contents|
    ensures |r'.stamps| == |r'.contents|
  {
    var v := Victim(r.contents, e, capacity);
    var refuses := Refuses(r.contents, e, capacity);
    r.(contents := Enqueued(r.contents, e, capacity),
       stamps := if v < |r.contents| then Remove(r.stamps, v) + [|r.log|]
                 else if refuses then r.stamps else r.stamps + [|r.log|],
       log := r.log + [e],
       refused := r.refused || refuses,
       ordinaryOffered := r.ordinaryOffered + One(StopKey(e) == 0),
       evicted := r.evicted + One(Evicts(r.contents, e, capacity)))
  }

  function Deliver(r: Run): (r': Run)
    requires |r.stamps| == |r.contents|
    ensures |r'.stamps| == |r'.contents|
  {
    if r.contents == [] then r
    else
      r.(contents := r.contents[1..], stamps := r.stamps[1..], delivered := r.delivered + [r.stamps[0]],
         ordinaryDelivered := r.ordinaryDelivered + One(StopKey(r.contents[0]) == 0))
  }

  function Step(r: Run, op: Op, capacity: nat): (r': Run)
    requires |r.stamps| == |r.contents|
    ensures |r'.stamps| == |r'.contents|
  {
    match op
    case Offer(e) => Add(r, e, capacity)
    case Poll => Deliver(r)
  }

  function Exec(ops: seq<Op>, capacity: nat): (r: Run)
    ensures |r.stamps| == |r.contents|
  {
    if ops == [] then Start() else Step(Exec(ops[..|ops| - 1], capacity), ops[|ops| - 1], capacity)
  }

  // ----- Pending stops are distinct, so a full ring is never all stops -----

  predicate DistinctStops(s: seq<Event>) {
    forall i, j :: 0 <= i < j < |s| && StopKey(s[i]) != 0 ==> StopKey(s[i]) != StopKey(s[j])
  }

  function Keys(s: seq<Event>): (keys: seq<nat>)
    ensures |keys| == |s| && forall i :: 0 <= i < |s| ==> keys[i] == StopKey(s[i])
  {
    seq(|s|, i requires 0 <= i < |s| => StopKey(s[i]))
  }

  function AsSet(keys: seq<nat>): (members: set<nat>)
    ensures forall k :: k in members <==> k in keys
  {
    if keys == [] then {} else AsSet(keys[1..]) + {keys[0]}
  }

  lemma {:induction false} DistinctCount(keys: seq<nat>)
    requires forall i, j :: 0 <= i < j < |keys| ==> keys[i] != keys[j]
    ensures |AsSet(keys)| == |keys|
  {
    if keys != [] {
      DistinctCount(keys[1..]);
      assert keys[0] !in keys[1..];
    }
  }

  const STOP_KEYS: set<nat> := {0x203, 0x205, 0x206, 0x207, 0x209, 0x20A, 0x20B}

  lemma {:induction false} SevenKeys(keys: set<nat>)
    requires keys <= STOP_KEYS
    ensures |keys| <= 7
  {
    SubsetSize(keys, STOP_KEYS);
  }

  lemma {:induction false} AtMostSeven(keys: seq<nat>)
    requires forall i, j :: 0 <= i < j < |keys| ==> keys[i] != keys[j]
    requires forall i :: 0 <= i < |keys| ==> keys[i] in STOP_KEYS
    ensures |keys| <= 7
  {
    DistinctCount(keys);
    SevenKeys(AsSet(keys));
  }

  /** Pigeonhole: there are seven stop keys, so eight pending events with
      distinct stop keys must include an ordinary one. */
  lemma {:induction false} OrdinaryAmongEight(s: seq<Event>)
    requires DistinctStops(s) && |s| >= 8
    ensures Find(s, 0) < |s|
  {
    if Find(s, 0) == |s| {
      assert forall i :: 0 <= i < |s| ==> StopKey(s[i]) in STOP_KEYS;
      AtMostSeven(Keys(s));
      assert false;
    }
  }

  lemma {:induction false} SubsetSize(a: set<nat>, b: set<nat>)
    requires a <= b
    ensures |a| <= |b|
  {
    if a != {} {
      var x :| x in a;
      SubsetSize(a - {x}, b - {x});
    }
  }

  lemma {:induction false} ReplaceDistinct(s: seq<Event>, v: nat, e: Event)
    requires DistinctStops(s) && v < |s|
    requires StopKey(e) != 0 ==> forall i :: 0 <= i < |s| && i != v ==> StopKey(s[i]) != StopKey(e)
    ensures DistinctStops(Remove(s, v) + [e])
  {
    var t := Remove(s, v) + [e];
    assert forall i :: 0 <= i < |t| - 1 ==> t[i] == s[if i < v then i else i + 1];
  }

  /** A ring of eight or more with distinct pending stops accepts every event,
      and its pending stops stay distinct. */
  lemma {:induction false} NeverRefuses(s: seq<Event>, e: Event, capacity: nat)
    requires DistinctStops(s) && |s| <= capacity && 8 <= capacity
    ensures !Refuses(s, e, capacity)
    ensures DistinctStops(Enqueued(s, e, capacity)) && |Enqueued(s, e, capacity)| <= capacity
  {
    if |s| == capacity { OrdinaryAmongEight(s); }
    var v := Victim(s, e, capacity);
    if v < |s| {
      assert StopKey(e) != 0 ==> forall i :: 0 <= i < |s| && i != v ==> StopKey(s[i]) != StopKey(e);
      ReplaceDistinct(s, v, e);
    }
  }

  /** No pending stop stops what `e` stops. */
  predicate NoTwin(s: seq<Event>, e: Event) {
    StopKey(e) == 0 || forall i :: 0 <= i < |s| ==> StopKey(s[i]) != StopKey(e)
  }

  /** Who makes room, and that nobody does while there is some: an equivalent stop is
      replaced; else a ring with a free slot grows; else the oldest event that
      is no stop goes, and every stop before it stays. */
  lemma {:induction false} RoomIsMade(s: seq<Event>, e: Event, capacity: nat, v: nat)
    requires |s| <= capacity && DistinctStops(s)
    ensures v < |s| && StopKey(e) != 0 && StopKey(s[v]) == StopKey(e) ==> Enqueued(s, e, capacity) == s[..v] + s[v + 1..] + [e]
    ensures NoTwin(s, e) && |s| < capacity ==> Enqueued(s, e, capacity) == s + [e]
    ensures NoTwin(s, e) && |s| == capacity && v < |s| && StopKey(s[v]) == 0 && (forall k :: 0 <= k < v ==> StopKey(s[k]) != 0) ==>
      Enqueued(s, e, capacity) == s[..v] + s[v + 1..] + [e]
    ensures NoTwin(s, e) && |s| == capacity && (forall k :: 0 <= k < |s| ==> StopKey(s[k]) != 0) ==> Enqueued(s, e, capacity) == s
  {
    if v < |s| {
      if StopKey(e) != 0 && StopKey(s[v]) == StopKey(e) { FindUnique(s, StopKey(e), v); }
      if StopKey(s[v]) == 0 && forall k :: 0 <= k < v ==> StopKey(s[k]) != 0 { FindUnique(s, 0, v); }
    }
    if NoTwin(s, e) && StopKey(e) != 0 { FindUnique(s, StopKey(e), |s|); }
    if forall k :: 0 <= k < |s| ==> StopKey(s[k]) != 0 { FindUnique(s, 0, |s|); }
  }

  /** An ordinary event is thrown away only by a write into a full ring. */
  lemma {:induction false} EvictsOnlyWhenFull(ops: seq<Op>, op: Op, capacity: nat)
    ensures var r, r' := Exec(ops, capacity), Exec(ops + [op], capacity);
      r'.evicted > r.evicted ==> op.Offer? && |r.contents| == capacity && r'.evicted == r.evicted + 1
  {
    ExecExtend(ops, op, capacity);
  }

  // ----- What every run keeps ---------------------------------------------

  predicate Increasing(s: seq<nat>) { forall i, j :: 0 <= i < j < |s| ==> s[i] < s[j] }

  predicate Linked(contents: seq<Event>, stamps: seq<nat>, log: seq<Event>) {
    && |stamps| == |contents|
    && (forall i :: 0 <= i < |stamps| ==> stamps[i] < |log| && contents[i] == log[stamps[i]])
  }

  /** The pending events are the log's, in log order, behind everything delivered. */
  predicate InLogOrder(r: Run)
    requires |r.stamps| == |r.contents|
  {
    && Increasing(r.delivered + r.stamps)
    && Linked(r.contents, r.stamps, r.log)
    && (forall p :: p in r.delivered ==> p < |r.log|)
  }

  predicate Superseded(log: seq<Event>, p: nat)
    requires p < |log|
  {
    exists q :: p < q < |log| && StopKey(log[q]) == StopKey(log[p])
  }

  /** A stop with no later equivalent stop has been delivered or is pending. */
  predicate StopsSurvive(r: Run) {
    forall p :: 0 <= p < |r.log| && StopKey(r.log[p]) != 0 && !Superseded(r.log, p) ==>
      p in r.delivered || p in r.stamps
  }

  function Ordinary(s: seq<Event>): (n: nat) {
    if s == [] then 0 else Ordinary(s[..|s| - 1]) + One(StopKey(s[|s| - 1]) == 0)
  }

  lemma {:induction false} OrdinaryExtend(s: seq<Event>, e: Event)
    ensures Ordinary(s + [e]) == Ordinary(s) + One(StopKey(e) == 0)
  {
    assert (s + [e])[..|s|] == s;
  }

  lemma {:induction false} OrdinaryRemove(s: seq<Event>, v: nat)
    requires v < |s|
    ensures Ordinary(Remove(s, v)) == Ordinary(s) - One(StopKey(s[v]) == 0)
  {
    var front, last := s[..|s| - 1], s[|s| - 1];
    if v == |s| - 1 {
      assert Remove(s, v) == front;
    } else {
      OrdinaryRemove(front, v);
      assert Remove(s, v) == Remove(front, v) + [last];
      OrdinaryExtend(Remove(front, v), last);
    }
  }

  /** `line` numbers the delivered events followed by the pending ones. */
  lemma {:induction false} IncreasingReplace(sent: seq<nat>, pending: seq<nat>, v: nat, n: nat)
    requires Increasing(sent + pending)
    requires (forall p :: p in sent ==> p < n) && (forall p :: p in pending ==> p < n)
    ensures Increasing(sent + (pending + [n]))
    ensures v < |pending| ==> Increasing(sent + (Remove(pending, v) + [n]))
  {
    var line, longer := sent + pending, sent + (pending + [n]);
    forall i | 0 <= i < |line|
      ensures longer[i] == line[i] < n
    {
      if i < |sent| { assert sent[i] in sent; } else { assert pending[i - |sent|] in pending; }
    }
    if v < |pending| {
      var k, line' := |sent| + v, sent + (Remove(pending, v) + [n]);
      assert forall i :: 0 <= i < |line'| - 1 ==> line'[i] == line[if i < k then i else i + 1];
    }
  }

  predicate Good(r: Run, capacity: nat)
    requires |r.stamps| == |r.contents|
  {
    && |r.contents| <= capacity
    && !r.refused
    && DistinctStops(r.contents)
    && InLogOrder(r)
    && StopsSurvive(r)
    && r.ordinaryOffered == r.ordinaryDelivered + Ordinary(r.contents) + r.evicted
  }

  lemma {:induction false} LinkedReplace(contents: seq<Event>, stamps: seq<nat>, log: seq<Event>, v: nat, e: Event)
    requires Linked(contents, stamps, log)
    ensures Linked(contents + [e], stamps + [|log|], log + [e])
    ensures v < |contents| ==> Linked(Remove(contents, v) + [e], Remove(stamps, v) + [|log|], log + [e])
  {}

  lemma {:induction false} AddInLogOrder(r: Run, e: Event, capacity: nat)
    requires |r.stamps| == |r.contents| && Good(r, capacity) && 8 <= capacity
    ensures InLogOrder(Add(r, e, capacity))
  {
    NeverRefuses(r.contents, e, capacity);
    var v := Victim(r.contents, e, capacity);
    IncreasingReplace(r.delivered, r.stamps, v, |r.log|);
    LinkedReplace(r.contents, r.stamps, r.log, v, e);
    assert Linked(Add(r, e, capacity).contents, Add(r, e, capacity).stamps, r.log + [e]);
  }

  lemma {:induction false} SupersededStays(log: seq<Event>, p: nat, e: Event)
    requires p < |log| && Superseded(log, p)
    ensures Superseded(log + [e], p)
  {
    var q :| p < q < |log| && StopKey(log[q]) == StopKey(log[p]);
    assert StopKey((log + [e])[q]) == StopKey((log + [e])[p]);
  }

  lemma {:induction false} RemoveKeeps(s: seq<nat>, v: nat, p: nat)
    requires v < |s| && p in s && p != s[v]
    ensures p in Remove(s, v)
  {
    var i :| 0 <= i < |s| && s[i] == p;
    assert Remove(s, v)[if i < v then i else i - 1] == p;
  }

  /** A stop that was still waiting and is not superseded by `e` keeps waiting. */
  lemma {:induction false} AddKeepsStop(r: Run, e: Event, capacity: nat, p: nat)
    requires |r.stamps| == |r.contents| && InLogOrder(r) && p in r.stamps && p < |r.log|
    requires StopKey(r.log[p]) != 0 && StopKey(r.log[p]) != StopKey(e)
    ensures p in Add(r, e, capacity).stamps
  {
    var v := Victim(r.contents, e, capacity);
    if v < |r.stamps| {
      assert r.contents[v] == r.log[r.stamps[v]];
      RemoveKeeps(r.stamps, v, p);
    }
  }

  /** An accepted event becomes the newest pending one. */
  lemma {:induction false} AddAppends(r: Run, e: Event, capacity: nat)
    requires |r.stamps| == |r.contents| && !Refuses(r.contents, e, capacity)
    ensures var r' := Add(r, e, capacity);
      r'.log == r.log + [e] && r'.delivered == r.delivered && r'.stamps != [] && r'.stamps[|r'.stamps| - 1] == |r.log|
  {}

  lemma {:induction false} AddStopsSurvive(r: Run, e: Event, capacity: nat)
    requires |r.stamps| == |r.contents| && InLogOrder(r) && StopsSurvive(r) && !Refuses(r.contents, e, capacity)
    ensures StopsSurvive(Add(r, e, capacity))
  {
    AddAppends(r, e, capacity);
    var n, log', stamps' := |r.log|, r.log + [e], Add(r, e, capacity).stamps;
    forall p | 0 <= p < n && StopKey(log'[p]) != 0 && !Superseded(log', p)
      ensures p in r.delivered || p in stamps'
    {
      assert log'[p] == r.log[p];
      if Superseded(r.log, p) { SupersededStays(r.log, p, e); }
      assert StopKey(log'[n]) != StopKey(log'[p]);
      if p !in r.delivered { AddKeepsStop(r, e, capacity, p); }
    }
  }

  lemma {:induction false} AddGood(r: Run, e: Event, capacity: nat)
    requires |r.stamps| == |r.contents| && Good(r, capacity) && 8 <= capacity
    ensures Good(Add(r, e, capacity), capacity)
  {
    NeverRefuses(r.contents, e, capacity);
    AddInLogOrder(r, e, capacity);
    AddStopsSurvive(r, e, capacity);
    var v := Victim(r.contents, e, capacity);
    if v < |r.contents| {
      OrdinaryRemove(r.contents, v);
      OrdinaryExtend(Remove(r.contents, v), e);
    } else {
      OrdinaryExtend(r.contents, e);
    }
  }

  lemma {:induction false} DeliverStopsSurvive(r: Run)
    requires |r.stamps| == |r.contents| && r.contents != [] && StopsSurvive(r)
    ensures StopsSurvive(Deliver(r))
  {
    var r' := Deliver(r);
    assert r'.delivered[|r.delivered|] == r.stamps[0];
    assert forall p :: p in r.stamps ==> p == r.stamps[0] || p in r.stamps[1..];
    assert forall p :: p in r.delivered ==> p in r'.delivered;
  }

  lemma {:induction false} DeliverInLogOrder(r: Run)
    requires |r.stamps| == |r.contents| && r.contents != [] && InLogOrder(r)
    ensures InLogOrder(Deliver(r))
  {
    var r' := Deliver(r);
    assert r'.delivered + r'.stamps == r.delivered + r.stamps;
    assert forall i :: 0 <= i < |r'.contents| ==>
      r'.contents[i] == r.contents[i + 1] && r'.stamps[i] == r.stamps[i + 1];
  }

  lemma {:induction false} DeliverGood(r: Run, capacity: nat)
    requires |r.stamps| == |r.contents| && Good(r, capacity)
    ensures Good(Deliver(r), capacity)
  {
    if r.contents != [] {
      DeliverInLogOrder(r);
      DeliverStopsSurvive(r);
      assert Remove(r.contents, 0) == r.contents[1..];
      OrdinaryRemove(r.contents, 0);
      assert DistinctStops(r.contents[1..]);
    }
  }

  /** Every run of a ring of eight or more slots: no write is ever refused; the
      pending events stay in write order behind everything delivered; a stop is
      delivered, pending, or superseded by a later equivalent stop; and ordinary
      events are delivered, pending or counted as evicted. */
  lemma {:induction false} NoStopIsLost(ops: seq<Op>, capacity: nat)
    requires 8 <= capacity
    ensures Good(Exec(ops, capacity), capacity)
  {
    if ops != [] {
      var r := Exec(ops[..|ops| - 1], capacity);
      NoStopIsLost(ops[..|ops| - 1], capacity);
      match ops[|ops| - 1]
      case Offer(e) => AddGood(r, e, capacity);
      case Poll => DeliverGood(r, capacity);
    }
  }

  // ----- Eight slots are necessary ----------------------------------------

  function Pulse(family: uint8, side: uint8): Event {
    Event(SteamHaptic, HAPTIC_PAYLOAD_SIZE, [12, 0, 0, 0, family, side] + Zeros(26))
  }

  lemma {:induction false} PulseKey(family: uint8, side: uint8)
    requires 0x80 <= family <= 0x82 && side <= 2
    ensures StopKey(Pulse(family, side)) ==
      if family == 0x80 then 0x203 else family as nat * 4 + (if side == 2 then 3 else side as nat + 1)
  {
    var report := Pulse(family, side).payload[4..16];
    assert report[0] == family && report[1] == side;
    assert forall k :: 2 <= k < 12 ==> report[k] == 0;
  }

  /** The seven explicit stops, one per family and actuator mask. */
  function StopEvent(i: nat): (e: Event)
    ensures i < 7 ==> StopKey(e) == [0x203, 0x205, 0x206, 0x207, 0x209, 0x20A, 0x20B][i]
  {
    if i == 0 then PulseKey(0x80, 0); Pulse(0x80, 0)
    else if i < 4 then PulseKey(0x81, (i - 1) as uint8); Pulse(0x81, (i - 1) as uint8)
    else if i < 7 then PulseKey(0x82, (i - 4) as uint8); Pulse(0x82, (i - 4) as uint8)
    else Event(OtherFeedback, 0, Zeros(PAYLOAD_BYTES))
  }

  function Stops(n: nat): (ops: seq<Op>)
    ensures |ops| == n
  {
    if n == 0 then [] else Stops(n - 1) + [Offer(StopEvent(n - 1))]
  }

  lemma {:induction false} NewStopAppends(s: seq<Event>, e: Event, capacity: nat)
    requires |s| < capacity && StopKey(e) != 0 && forall i :: 0 <= i < |s| ==> StopKey(s[i]) != StopKey(e)
    ensures Enqueued(s, e, capacity) == s + [e]
  {}

  lemma {:induction false} OrdinaryRefused(s: seq<Event>, e: Event, capacity: nat)
    requires |s| == capacity && StopKey(e) == 0 && forall i :: 0 <= i < |s| ==> StopKey(s[i]) != 0
    ensures Refuses(s, e, capacity)
  {}

  function StopEvents(n: nat): (s: seq<Event>)
    ensures |s| == n && forall i :: 0 <= i < n ==> s[i] == StopEvent(i)
  {
    if n == 0 then [] else StopEvents(n - 1) + [StopEvent(n - 1)]
  }

  lemma {:induction false} NextStopIsNew(n: nat)
    requires n < 7
    ensures StopKey(StopEvent(n)) != 0
    ensures forall i :: 0 <= i < n ==> StopKey(StopEvents(n)[i]) != StopKey(StopEvent(n))
  {
    var keys := [0x203, 0x205, 0x206, 0x207, 0x209, 0x20A, 0x20B];
    assert forall i :: 0 <= i < n ==> StopKey(StopEvents(n)[i]) == keys[i];
  }

  lemma {:induction false} ExecExtend(ops: seq<Op>, op: Op, capacity: nat)
    ensures Exec(ops + [op], capacity) == Step(Exec(ops, capacity), op, capacity)
  {
    assert (ops + [op])[..|ops|] == ops;
  }

  lemma {:induction false} StopsFill(n: nat, capacity: nat)
    requires n <= capacity <= 7
    ensures Exec(Stops(n), capacity).contents == StopEvents(n)
  {
    if n > 0 {
      StopsFill(n - 1, capacity);
      ExecExtend(Stops(n - 1), Offer(StopEvent(n - 1)), capacity);
      NextStopIsNew(n - 1);
      NewStopAppends(StopEvents(n - 1), StopEvent(n - 1), capacity);
    }
  }

  lemma {:induction false} SmallRingRefuses(capacity: nat)
    requires capacity < 8
    ensures Exec(Stops(capacity) + [Offer(StopEvent(7))], capacity).refused
  {
    StopsFill(capacity, capacity);
    ExecExtend(Stops(capacity), Offer(StopEvent(7)), capacity);
    forall i | 0 <= i < capacity ensures StopKey(StopEvents(capacity)[i]) != 0 { NextStopIsNew(i); }
    OrdinaryRefused(StopEvents(capacity), StopEvent(7), capacity);
  }

  /** A ring refuses some run of writes exactly when it has fewer than eight slots. */
  lemma {:induction false} EightSlotsAreExact(capacity: nat)
    ensures capacity < 8 <==> exists ops :: Exec(ops, capacity).refused
  {
    if capacity < 8 {
      SmallRingRefuses(capacity);
    } else {
      forall ops ensures !Exec(ops, capacity).refused { NoStopIsLost(ops, capacity); }
    }
  }
}
