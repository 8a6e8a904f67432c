/** What a whole call of the transfer engine does, to the URB and to every request
    it served, whatever the completion handlers queue in the meantime. */
module UsbTransferRuns {
  import opened Ring
  import opened UsbTransfer

  // ----- One copy ---------------------------------------------------------

  lemma {:induction false} SpliceParts(to: seq<uint8>, from: nat, at: nat, bytes: seq<uint8>)
    requires from <= at && at + |bytes| <= |to|
    ensures Splice(to, at, bytes)[from..at + |bytes|] == to[from..at] + bytes
    ensures Splice(to, at, bytes)[..from] == to[..from]
    ensures Splice(to, at, bytes)[at + |bytes|..] == to[at + |bytes|..]
  {}

  /** Both buffers advance by `len` bytes, agree on these, and change in nothing else. */
  predicate AgreeOn(urb: Urb, req: Request, urb': Urb, req': Request, len: nat) {
    && urb'.actual == urb.actual + len <= |urb.buffer| == |urb'.buffer|
    && req'.actual == req.actual + len <= |req.buffer| == |req'.buffer|
    && urb'.buffer[urb.actual..urb'.actual] == req'.buffer[req.actual..req'.actual]
    && urb'.buffer[..urb.actual] == urb.buffer[..urb.actual] && urb'.buffer[urb'.actual..] == urb.buffer[urb'.actual..]
    && req'.buffer[..req.actual] == req.buffer[..req.actual] && req'.buffer[req'.actual..] == req.buffer[req'.actual..]
    && (if urb.toHost then req'.buffer == req.buffer else urb'.buffer == urb.buffer)
    && urb'.toHost == urb.toHost && urb'.zeroPacket == urb.zeroPacket && req'.zero == req.zero && req'.status == req.status
  }

  /** A copy makes the two buffers agree on the bytes moved and changes nothing else. */
  lemma {:induction false} CopyIsFaithful(urb: Urb, req: Request, len: nat)
    requires CanMove(urb, req, len)
    ensures AgreeOn(urb, req, UrbAfter(urb, req, len), RequestAfter(urb, req, len), len)
  {
    SpliceParts(urb.buffer, urb.actual, urb.actual, Payload(urb, req, len));
    SpliceParts(req.buffer, req.actual, req.actual, Payload(urb, req, len));
  }

  // ----- What each request got --------------------------------------------

  /** A request as the call found it, and as the call left it. */
  datatype Segment = Segment(source: Request, result: Request)
  {
    function Length(): int { result.actual - source.actual }
  }

  /** The segment holds the URB's stretch from `at` on, in either direction, behind
      what the request held before, and differs from it in nothing else. */
  predicate Copied(s: Segment, urb: Urb, at: int) {
    && s.source.actual <= s.result.actual <= |s.result.buffer| == |s.source.buffer|
    && s.result.zero == s.source.zero
    && 0 <= at && at + s.Length() <= |urb.buffer|
    && s.result.buffer[s.source.actual..s.result.actual] == urb.buffer[at..at + s.Length()]
    && s.result.buffer[..s.source.actual] == s.source.buffer[..s.source.actual]
    && s.result.buffer[s.result.actual..] == s.source.buffer[s.result.actual..]
    && (urb.toHost ==> s.result.buffer == s.source.buffer)
  }

  /** The segments share the URB's bytes `from..to` among them, in order and
      without a gap. */
  predicate Chain(segments: seq<Segment>, urb: Urb, from: int, to: int) {
    if segments == [] then from == to
    else
      var last := segments[|segments| - 1];
      && Chain(segments[..|segments| - 1], urb, from, to - last.Length())
      && Copied(last, urb, to - last.Length())
  }

  /** The queue the call works on after its n-th giveback. */
  function Found(queue: seq<Request>, answers: seq<seq<Request>>, n: nat): seq<Request> {
    if n == 0 then queue else Answer(answers, n - 1)
  }

  /** A giveback takes the head, or the request behind a head that stays; every other
      request is left exactly as the call found it. */
  predicate Leaves(found: seq<Request>, g: Giveback) {
    && g.request.status != InProgress
    && (g.place == 0 ==> found != [] && g.behind == found[1..])
    && (g.place != 0 ==>
          && g.place == 1 && |found| > 1 && g.request == found[1].(status := g.request.status)
          && g.behind != [] && g.behind[1..] == found[2..])
  }

  /** The requests one giveback accounts for: a head that stays comes first. */
  function Given(found: seq<Request>, g: Giveback): seq<Segment>
    requires Leaves(found, g)
  {
    if g.place == 0 then [Segment(found[0], g.request)]
    else [Segment(found[0], g.behind[0]), Segment(found[1], g.request)]
  }

  predicate AllLeave(queue: seq<Request>, answers: seq<seq<Request>>, completed: seq<Giveback>) {
    forall k: nat :: k < |completed| ==> Leaves(Found(queue, answers, k), completed[k])
  }

  function GivenAll(queue: seq<Request>, answers: seq<seq<Request>>, completed: seq<Giveback>): seq<Segment>
    requires AllLeave(queue, answers, completed)
  {
    if completed == [] then []
    else
      var n := |completed| - 1;
      GivenAll(queue, answers, completed[..n]) + Given(Found(queue, answers, n), completed[n])
  }

  /** The head the call stopped at, when there is one. */
  function Standing(found: seq<Request>, now: seq<Request>): seq<Segment> {
    if found != [] && now != [] then [Segment(found[0], now[0])] else []
  }

  /** Every request the call served, in order. */
  function Segments(queue: seq<Request>, answers: seq<seq<Request>>, completed: seq<Giveback>, now: seq<Request>): seq<Segment>
    requires AllLeave(queue, answers, completed)
  {
    GivenAll(queue, answers, completed) + Standing(Found(queue, answers, |completed|), now)
  }

  /** Behind its head the queue is as the call found it. */
  predicate TailKept(found: seq<Request>, now: seq<Request>) {
    |now| == |found| && (found != [] ==> now[1..] == found[1..])
  }

  /** The requests served share the bytes of the URB from `from` on, and the rest
      are untouched. */
  predicate Shared(queue: seq<Request>, answers: seq<seq<Request>>, completed: seq<Giveback>, now: seq<Request>, urb: Urb, from: int) {
    && AllLeave(queue, answers, completed)
    && TailKept(Found(queue, answers, |completed|), now)
    && Chain(Segments(queue, answers, completed, now), urb, from, urb.actual)
  }

  /** Only a call without bandwidth takes a request behind a head that stays, and
      ends there. */
  predicate OvertakesLast(x: Xfer) {
    forall k: nat :: k < |x.completed| && x.completed[k].place != 0 ==>
      k == |x.completed| - 1 && x.limit == 0 && x.status != InProgress
  }

  // ----- Slices -----------------------------------------------------------

  lemma {:induction false} SameInside(s: seq<uint8>, t: seq<uint8>, end: nat, from: nat, to: nat)
    requires from <= to <= end <= |s| && end <= |t| && s[..end] == t[..end]
    ensures s[from..to] == t[from..to] && s[..from] == t[..from]
  {
    assert s[from..to] == s[..end][from..to] && t[from..to] == t[..end][from..to];
    assert s[..from] == s[..end][..from] && t[..from] == t[..end][..from];
  }

  lemma {:induction false} SameBehind(s: seq<uint8>, t: seq<uint8>, from: nat, to: nat)
    requires from <= to <= |s| == |t| && s[from..] == t[from..]
    ensures s[to..] == t[to..]
  {
    assert s[to..] == s[from..][to - from..] && t[to..] == t[from..][to - from..];
  }

  lemma {:induction false} SliceJoin(s: seq<uint8>, t: seq<uint8>, from: nat, mid: nat, to: nat, at: nat)
    requires from <= mid <= to <= |s| && at + (to - from) <= |t|
    requires s[from..mid] == t[at..at + (mid - from)] && s[mid..to] == t[at + (mid - from)..at + (to - from)]
    ensures s[from..to] == t[at..at + (to - from)]
  {
    assert s[from..to] == s[from..mid] + s[mid..to];
    assert t[at..at + (to - from)] == t[at..at + (mid - from)] + t[at + (mid - from)..at + (to - from)];
  }

  // ----- Chains -----------------------------------------------------------

  lemma {:induction false} ChainKept(segments: seq<Segment>, urb: Urb, urb': Urb, from: int, to: int, end: nat)
    requires Chain(segments, urb, from, to) && to <= end <= |urb.buffer| == |urb'.buffer|
    requires urb'.toHost == urb.toHost && urb'.buffer[..end] == urb.buffer[..end]
    ensures Chain(segments, urb', from, to)
  {
    if segments != [] {
      var last := segments[|segments| - 1];
      var at := to - last.Length();
      ChainKept(segments[..|segments| - 1], urb, urb', from, at, end);
      SameInside(urb.buffer, urb'.buffer, end, at, to);
    }
  }

  lemma {:induction false} ChainAppend(segments: seq<Segment>, s: Segment, urb: Urb, from: int, to: int)
    ensures Chain(segments + [s], urb, from, to + s.Length()) <==> Chain(segments, urb, from, to) && Copied(s, urb, to)
  {
    assert (segments + [s])[..|segments|] == segments;
  }

  function Total(segments: seq<Segment>): int {
    if segments == [] then 0 else Total(segments[..|segments| - 1]) + segments[|segments| - 1].Length()
  }

  lemma {:induction false} ChainTotal(segments: seq<Segment>, urb: Urb, from: int, to: int)
    requires Chain(segments, urb, from, to)
    ensures to == from + Total(segments)
  {
    if segments != [] {
      var n := |segments| - 1;
      ChainTotal(segments[..n], urb, from, to - segments[n].Length());
    }
  }

  /** Read from the front: the k-th segment's stretch begins behind the lengths of
      the ones before it. */
  lemma {:induction false} ChainAt(segments: seq<Segment>, urb: Urb, from: int, to: int, k: nat)
    requires Chain(segments, urb, from, to) && k < |segments|
    ensures Copied(segments[k], urb, from + Total(segments[..k]))
  {
    var n := |segments| - 1;
    var front := segments[..n];
    if k < n {
      ChainAt(front, urb, from, to - segments[n].Length(), k);
      assert front[k] == segments[k] && front[..k] == segments[..k];
    } else {
      ChainTotal(front, urb, from, to - segments[n].Length());
    }
  }

  // ----- One burst --------------------------------------------------------

  /** Copying on behind what was copied before. */
  lemma {:induction false} CopiedGrows(source: Request, head: Request, urb: Urb, head': Request, urb': Urb, at: int, len: nat)
    requires AgreeOn(urb, head, urb', head', len) && Copied(Segment(source, head), urb, at)
    requires at + (head.actual - source.actual) == urb.actual
    ensures Copied(Segment(source, head'), urb', at)
  {
    var from, mid, to := source.actual, head.actual, head.actual + len;
    SameInside(head.buffer, head'.buffer, mid, from, mid);
    SameInside(urb.buffer, urb'.buffer, urb.actual, at, urb.actual);
    SliceJoin(head'.buffer, urb'.buffer, from, mid, to, at);
    SameBehind(source.buffer, head.buffer, mid, to);
  }

  lemma {:induction false} ChainGrows(segments: seq<Segment>, source: Request, head: Request, urb: Urb,
                                      head': Request, urb': Urb, from: int, len: nat)
    requires AgreeOn(urb, head, urb', head', len) && Chain(segments + [Segment(source, head)], urb, from, urb.actual)
    ensures Chain(segments + [Segment(source, head')], urb', from, urb'.actual)
  {
    var at := urb.actual - (head.actual - source.actual);
    ChainAppend(segments, Segment(source, head), urb, from, at);
    ChainKept(segments, urb, urb', from, at, urb.actual);
    CopiedGrows(source, head, urb, head', urb', at, len);
    ChainAppend(segments, Segment(source, head'), urb', from, at);
  }

  // ----- What a call has done so far --------------------------------------

  /** The URB is the one the call was given but for the bytes sent, which the
      bandwidth paid for one by one. */
  predicate UrbTracks(urb0: Urb, limit0: nat, x: Xfer) {
    && urb0.Ok() && x.Ok()
    && x.sent + x.limit == limit0
    && x.urb.actual == urb0.actual + x.sent
    && |x.urb.buffer| == |urb0.buffer| && x.urb.toHost == urb0.toHost && x.urb.zeroPacket == urb0.zeroPacket
    && x.urb.buffer[..urb0.actual] == urb0.buffer[..urb0.actual]
    && x.urb.buffer[x.urb.actual..] == urb0.buffer[x.urb.actual..]
    && (!urb0.toHost ==> x.urb.buffer == urb0.buffer)
  }

  lemma {:induction false} MoveUrb(urb0: Urb, limit0: nat, x: Xfer, len: nat)
    requires UrbTracks(urb0, limit0, x) && x.queue != [] && len <= x.limit && CanMove(x.urb, x.queue[0], len)
    ensures Move(x, 0, len).Ok() && UrbTracks(urb0, limit0, Move(x, 0, len))
  {
    if len > 0 {
      CopyIsFaithful(x.urb, x.queue[0], len);
      var urb' := UrbAfter(x.urb, x.queue[0], len);
      SameInside(x.urb.buffer, urb'.buffer, x.urb.actual, urb0.actual, urb0.actual);
      SameBehind(x.urb.buffer, urb0.buffer, x.urb.actual, urb'.actual);
    }
  }

  /** The head goes on as `head'`. */
  lemma {:induction false} SharedGrows(queue: seq<Request>, answers: seq<seq<Request>>, completed: seq<Giveback>, now: seq<Request>,
                                       urb: Urb, from: int, head': Request, urb': Urb, len: nat)
    requires Shared(queue, answers, completed, now, urb, from) && now != [] && AgreeOn(urb, now[0], urb', head', len)
    ensures Shared(queue, answers, completed, now[0 := head'], urb', from)
  {
    var source := Found(queue, answers, |completed|)[0];
    ChainGrows(GivenAll(queue, answers, completed), source, now[0], urb, head', urb', from, len);
    assert now[0 := head'][1..] == now[1..];
  }

  lemma {:induction false} MoveRequests(queue: seq<Request>, answers: seq<seq<Request>>, x: Xfer, from: int, len: nat)
    requires Shared(queue, answers, x.completed, x.queue, x.urb, from) && x.Ok()
    requires x.queue != [] && len <= x.limit && CanMove(x.urb, x.queue[0], len)
    ensures var m := Move(x, 0, len);
      Shared(queue, answers, m.completed, m.queue, m.urb, from)
  {
    if len > 0 {
      CopyIsFaithful(x.urb, x.queue[0], len);
      SharedGrows(queue, answers, x.completed, x.queue, x.urb, from, RequestAfter(x.urb, x.queue[0], len), UrbAfter(x.urb, x.queue[0], len), len);
    }
  }

  /** Nothing is copied yet to or from the queue found after a giveback. */
  lemma {:induction false} ChainStands(segments: seq<Segment>, urb: Urb, from: int, found: seq<Request>)
    requires Chain(segments, urb, from, urb.actual) && urb.Ok() && QueueOk(found)
    ensures Chain(segments + Standing(found, found), urb, from, urb.actual)
  {
    if found != [] {
      ChainAppend(segments, Segment(found[0], found[0]), urb, from, urb.actual);
    } else {
      assert segments + Standing(found, found) == segments;
    }
  }

  lemma {:induction false} GivenAllNext(queue: seq<Request>, answers: seq<seq<Request>>, completed: seq<Giveback>, g: Giveback)
    requires AllLeave(queue, answers, completed) && Leaves(Found(queue, answers, |completed|), g)
    ensures AllLeave(queue, answers, completed + [g])
    ensures GivenAll(queue, answers, completed + [g])
      == GivenAll(queue, answers, completed) + Given(Found(queue, answers, |completed|), g)
  {
    assert (completed + [g])[..|completed|] == completed;
  }

  /** Only its status tells a request given back from the one served. */
  lemma {:induction false} ChainGiven(given: seq<Segment>, source: Request, head: Request, status: Status, urb: Urb, from: int, to: int)
    requires Chain(given + [Segment(source, head)], urb, from, to)
    ensures Chain(given + [Segment(source, head.(status := status))], urb, from, to)
  {
    var at := to - (head.actual - source.actual);
    ChainAppend(given, Segment(source, head), urb, from, at);
    ChainAppend(given, Segment(source, head.(status := status)), urb, from, at);
  }

  /** The head of the queue goes back to its owner. */
  lemma {:induction false} HeadLeaves(found: seq<Request>, now: seq<Request>, given: seq<Segment>, urb: Urb, from: int, status: Status)
    requires found != [] && TailKept(found, now) && status != InProgress
    requires Chain(given + Standing(found, now), urb, from, urb.actual)
    ensures Leaves(found, Taken(now, 0, status)) && Chain(given + Given(found, Taken(now, 0, status)), urb, from, urb.actual)
  {
    assert Taken(now, 0, status).behind == now[1..];
    ChainGiven(given, found[0], now[0], status, urb, from, urb.actual);
  }

  lemma {:induction false} SecondIsOld(found: seq<Request>, now: seq<Request>, status: Status)
    requires |found| > 1 && TailKept(found, now) && status != InProgress
    ensures Leaves(found, Taken(now, 1, status)) && Taken(now, 1, status).behind[0] == now[0]
  {
    assert now[1] == now[1..][0] == found[1..][0] == found[1];
    assert Taken(now, 1, status).behind == [now[0]] + now[2..];
    assert now[2..] == now[1..][1..] && found[2..] == found[1..][1..];
  }

  /** A request that moved nothing holds an empty stretch. */
  lemma {:induction false} ChainEmpty(given: seq<Segment>, head: Segment, second: Request, status: Status, urb: Urb, from: int)
    requires Chain(given + [head], urb, from, urb.actual) && second.actual <= |second.buffer| && urb.Ok()
    ensures Chain(given + [head, Segment(second, second.(status := status))], urb, from, urb.actual)
  {
    ChainAppend(given + [head], Segment(second, second.(status := status)), urb, from, urb.actual);
    assert given + [head, Segment(second, second.(status := status))] == (given + [head]) + [Segment(second, second.(status := status))];
  }

  /** The request behind the head goes back to its owner. */
  lemma {:induction false} SecondLeaves(found: seq<Request>, now: seq<Request>, given: seq<Segment>, urb: Urb, from: int, status: Status)
    requires |found| > 1 && TailKept(found, now) && status != InProgress && QueueOk(now) && urb.Ok()
    requires Chain(given + Standing(found, now), urb, from, urb.actual)
    ensures Leaves(found, Taken(now, 1, status)) && Chain(given + Given(found, Taken(now, 1, status)), urb, from, urb.actual)
  {
    SecondIsOld(found, now, status);
    assert now[1] == now[1..][0] == found[1..][0] == found[1];
    ChainEmpty(given, Segment(found[0], now[0]), found[1], status, urb, from);
  }

  /** One giveback: the call goes on with the queue its owner left. */
  lemma {:induction false} SharedNext(queue: seq<Request>, answers: seq<seq<Request>>, completed: seq<Giveback>, now: seq<Request>,
                                      urb: Urb, from: int, pos: nat, status: Status)
    requires Shared(queue, answers, completed, now, urb, from) && urb.Ok() && QueueOk(now) && AnswersOk(answers)
    requires pos < |now| && pos <= 1 && status != InProgress
    ensures Shared(queue, answers, completed + [Taken(now, pos, status)], Answer(answers, |completed|), urb, from)
  {
    var g, found, next := Taken(now, pos, status), Found(queue, answers, |completed|), Answer(answers, |completed|);
    var given := GivenAll(queue, answers, completed);
    if pos == 0 { HeadLeaves(found, now, given, urb, from, status); } else { SecondLeaves(found, now, given, urb, from, status); }
    GivenAllNext(queue, answers, completed, g);
    ChainStands(given + Given(found, g), urb, from, next);
    assert Found(queue, answers, |completed + [g]|) == next;
  }

  predicate Tracks(urb0: Urb, queue: seq<Request>, answers: seq<seq<Request>>, limit0: nat, x: Xfer) {
    UrbTracks(urb0, limit0, x) && Shared(queue, answers, x.completed, x.queue, x.urb, urb0.actual) && OvertakesLast(x)
  }

  lemma {:induction false} ConcludeTracks(urb0: Urb, queue: seq<Request>, answers: seq<seq<Request>>, limit0: nat, m: Xfer, pos: nat,
                                          settled: (Status, Status, bool))
    requires Tracks(urb0, queue, answers, limit0, m) && m.status == InProgress && AnswersOk(answers)
    requires pos < |m.queue| && (pos == 0 || (pos == 1 && m.limit == 0 && (settled.0 == InProgress || settled.1 != InProgress)))
    ensures Tracks(urb0, queue, answers, limit0,
                   Conclude(m, pos, settled.0, settled.1, settled.2, Answer(answers, |m.completed|)).0)
  {
    if settled.0 != InProgress {
      SharedNext(queue, answers, m.completed, m.queue, m.urb, urb0.actual, pos, settled.0);
    }
  }

  lemma {:induction false} MoveTracks(urb0: Urb, queue: seq<Request>, answers: seq<seq<Request>>, limit0: nat, x: Xfer, len: nat)
    requires Tracks(urb0, queue, answers, limit0, x) && x.status == InProgress
    requires x.queue != [] && len <= x.limit && CanMove(x.urb, x.queue[0], len)
    ensures Tracks(urb0, queue, answers, limit0, Move(x, 0, len))
  {
    MoveUrb(urb0, limit0, x, len);
    MoveRequests(queue, answers, x, urb0.actual, len);
  }

  lemma {:induction false} TurnTracks(urb0: Urb, queue: seq<Request>, answers: seq<seq<Request>>, limit0: nat, x: Xfer, pos: nat, maxPacket: nat)
    requires Tracks(urb0, queue, answers, limit0, x) && x.status == InProgress && AnswersOk(answers)
    requires pos < |x.queue| && maxPacket > 0 && (pos == 0 || (pos == 1 && x.limit == 0))
    ensures Tracks(urb0, queue, answers, limit0, Turn(x, pos, maxPacket, Answer(answers, |x.completed|)).0)
  {
    var returned := Answer(answers, |x.completed|);
    TurnActs(x, pos, maxPacket, returned);
    var len := Burst(Min(x.urb.Remaining(), x.queue[pos].Remaining()), x.limit, maxPacket);
    if len.Some? {
      var m := Move(x, pos, len.value);
      if pos == 0 {
        MoveTracks(urb0, queue, answers, limit0, x, len.value);
      } else {
        assert m == x && IsShort(Min(x.urb.Remaining(), x.queue[pos].Remaining()), x.limit, maxPacket);
      }
      ConcludeTracks(urb0, queue, answers, limit0, m, pos, Settled(x, m, pos, maxPacket));
    }
  }

  /** One turn of a run, as what the caller of the loop needs to know of it. */
  lemma {:induction false} RunStep(urb0: Urb, queue: seq<Request>, answers: seq<seq<Request>>, limit0: nat, x: Xfer, pos: nat, maxPacket: nat)
    returns (next: Xfer, what: Next)
    requires Tracks(urb0, queue, answers, limit0, x) && x.status == InProgress && AnswersOk(answers)
    requires pos < |x.queue| && maxPacket > 0 && (pos == 0 || (pos == 1 && x.limit == 0))
    ensures Tracks(urb0, queue, answers, limit0, next)
    ensures what == Stop ==> Run(x, pos, maxPacket, answers) == next
    ensures what != Stop ==> next.status == InProgress && next.limit < x.limit
    ensures what == Continue ==> pos == 0 && next.limit == 0
    ensures what != Stop ==>
      Run(x, pos, maxPacket, answers) == Run(next, if what == Rescan then 0 else pos + 1, maxPacket, answers)
  {
    var returned := Answer(answers, |x.completed|);
    TurnProgress(x, pos, maxPacket, returned);
    TurnTracks(urb0, queue, answers, limit0, x, pos, maxPacket);
    if pos == 0 { FallsThroughWhenDry(x, maxPacket, returned); }
    next, what := Turn(x, pos, maxPacket, returned).0, Turn(x, pos, maxPacket, returned).1;
  }

  lemma {:induction false} RunTracks(urb0: Urb, queue: seq<Request>, answers: seq<seq<Request>>, limit0: nat, x: Xfer, pos: nat, maxPacket: nat)
    requires Tracks(urb0, queue, answers, limit0, x) && x.status == InProgress && AnswersOk(answers)
    requires maxPacket > 0 && (pos == 0 || (pos == 1 && x.limit == 0))
    ensures Tracks(urb0, queue, answers, limit0, Run(x, pos, maxPacket, answers))
    decreases x.limit, |x.queue| - pos
  {
    if pos < |x.queue| {
      var next, what := RunStep(urb0, queue, answers, limit0, x, pos, maxPacket);
      if what != Stop {
        RunTracks(urb0, queue, answers, limit0, next, if what == Rescan then 0 else 1, maxPacket);
      }
    }
  }

  lemma {:induction false} StartTracks(urb: Urb, queue: seq<Request>, limit: nat, answers: seq<seq<Request>>)
    requires urb.Ok() && QueueOk(queue)
    ensures Tracks(urb, queue, answers, limit, Begin(urb, queue, limit))
  {
    ChainStands([], urb, urb.actual, queue);
    assert Segments(queue, answers, [], queue) == [] + Standing(queue, queue);
  }

  /** The guarantees of one call. It moves at most `limit` bytes and reports exactly
      the growth of the URB, around which the URB is untouched. The requests it
      served, each from what its owner queued to what the owner gets back or the
      queue still holds, share the bytes moved among them: in order, without a gap,
      each behind what it held before, in either direction. Every other request
      is as it was found. A request overtakes a head that stays only as the last
      act of a call that has used up its bandwidth. */
  lemma {:induction false} TransferIsContiguous(urb: Urb, queue: seq<Request>, limit: nat, maxPacket: nat, answers: seq<seq<Request>>)
    requires urb.Ok() && QueueOk(queue) && maxPacket > 0 && AnswersOk(answers)
    ensures var x := Call(urb, queue, limit, maxPacket, answers);
      && UrbTracks(urb, limit, x)
      && Shared(queue, answers, x.completed, x.queue, x.urb, urb.actual)
      && OvertakesLast(x)
  {
    StartTracks(urb, queue, limit, answers);
    RunTracks(urb, queue, answers, limit, Begin(urb, queue, limit), 0, maxPacket);
  }

  /** Each of these requests holds exactly the bytes of the URB behind those of the
      requests before it, and together they hold every byte sent. */
  predicate Stretches(segments: seq<Segment>, urb: Urb, from: int) {
    && from + Total(segments) == urb.actual
    && forall k: nat :: k < |segments| ==> Copied(segments[k], urb, from + Total(segments[..k]))
  }

  lemma {:induction false} ChainStretches(segments: seq<Segment>, urb: Urb, from: int)
    requires Chain(segments, urb, from, urb.actual)
    ensures Stretches(segments, urb, from)
  {
    ChainTotal(segments, urb, from, urb.actual);
    forall k: nat | k < |segments| ensures Copied(segments[k], urb, from + Total(segments[..k])) {
      ChainAt(segments, urb, from, urb.actual, k);
    }
  }

  /** The same, read from the front, request by request. */
  lemma {:induction false} EachRequestGetsItsStretch(urb: Urb, queue: seq<Request>, limit: nat, maxPacket: nat, answers: seq<seq<Request>>)
    requires urb.Ok() && QueueOk(queue) && maxPacket > 0 && AnswersOk(answers)
    ensures var x := Call(urb, queue, limit, maxPacket, answers);
      && AllLeave(queue, answers, x.completed)
      && Stretches(Segments(queue, answers, x.completed, x.queue), x.urb, urb.actual)
  {
    TransferIsContiguous(urb, queue, limit, maxPacket, answers);
    var x := Call(urb, queue, limit, maxPacket, answers);
    ChainStretches(Segments(queue, answers, x.completed, x.queue), x.urb, urb.actual);
  }

  // ----- The order in which requests complete ------------------------------

  /** Bandwidth ran out exactly at a packet boundary inside both the head request
      and the URB. */
  predicate RunsDry(x: Xfer, maxPacket: nat)
    requires maxPacket > 0 && x.queue != []
  {
    && 0 < x.limit < x.urb.Remaining() && x.limit < x.queue[0].Remaining()
    && x.limit % maxPacket == 0
  }

  /** The loop leaves a request queued and looks at the one behind it if and only
      if the bandwidth ran dry on the head. */
  lemma {:induction false} FallsThroughWhenDry(x: Xfer, maxPacket: nat, returned: seq<Request>)
    requires x.Ok() && x.status == InProgress && x.queue != [] && maxPacket > 0 && QueueOk(returned)
    ensures Turn(x, 0, maxPacket, returned).1 == Continue <==> RunsDry(x, maxPacket)
    ensures RunsDry(x, maxPacket) ==>
      var x' := Turn(x, 0, maxPacket, returned).0;
      && x'.limit == 0 && x'.completed == x.completed
      && x'.queue[1..] == x.queue[1..] && 0 < x'.urb.Remaining() == x.urb.Remaining() - x.limit
  {
    var req, host := x.queue[0], x.urb.Remaining();
    var want := Min(host, req.Remaining());
    var len := Burst(want, x.limit, maxPacket);
    if len.Some? && !IsShort(want, x.limit, maxPacket) {
      WholePackets(Min(want, x.limit), maxPacket);
      if RunsDry(x, maxPacket) {
        assert Min(want, x.limit) == x.limit && len.value == x.limit;
      }
    } else if RunsDry(x, maxPacket) {
      DryIsWhole(x.limit, maxPacket);
    }
  }

  lemma {:induction false} DryIsWhole(limit: nat, maxPacket: nat)
    requires maxPacket > 0 && 0 < limit && limit % maxPacket == 0
    ensures limit >= maxPacket
  {}

  /** Behind a head the bandwidth ran dry on, a request that expects nothing more
      completes first and ends the URB early; any other one ends the call. */
  lemma {:induction false} SecondRequest(x: Xfer, maxPacket: nat, returned: seq<Request>)
    requires x.Ok() && x.status == InProgress && |x.queue| > 1 && maxPacket > 0 && QueueOk(returned)
    requires x.limit == 0 && x.urb.Remaining() > 0
    ensures var (x', next) := Turn(x, 1, maxPacket, returned);
      && next == Stop
      && x'.urb == x.urb
      && (x.queue[1].Remaining() == 0 <==> x'.completed != x.completed)
      && x'.status == (if x.queue[1].Remaining() == 0 then Done else InProgress)
      && x'.sent == x.sent
      && (x.queue[1].Remaining() == 0 ==>
            |x'.completed| == |x.completed| + 1
            && x'.completed[|x.completed|].request.buffer == x.queue[1].buffer
            && x'.completed[|x.completed|].request.status != InProgress)
  {}

  /** The first turn of a dry call spends all its bandwidth on the head. */
  lemma {:induction false} DryStart(urb: Urb, queue: seq<Request>, limit: nat, maxPacket: nat, answers: seq<seq<Request>>)
    returns (first: Xfer)
    requires urb.Ok() && QueueOk(queue) && maxPacket > 0 && AnswersOk(answers)
    requires queue != [] && RunsDry(Begin(urb, queue, limit), maxPacket)
    ensures first.Ok() && first.status == InProgress && first.limit == 0 && first.sent == limit
    ensures first.urb.Remaining() > 0 && first.completed == [] && |first.queue| == |queue| && first.queue[1..] == queue[1..]
    ensures Call(urb, queue, limit, maxPacket, answers) == Run(first, 1, maxPacket, answers)
  {
    var x := Begin(urb, queue, limit);
    FallsThroughWhenDry(x, maxPacket, Answer(answers, 0));
    TurnProgress(x, 0, maxPacket, Answer(answers, 0));
    StartTracks(urb, queue, limit, answers);
    TurnTracks(urb, queue, answers, limit, x, 0, maxPacket);
    first := Turn(x, 0, maxPacket, Answer(answers, 0)).0;
  }

  /** Without bandwidth the call ends at its second request. */
  lemma {:induction false} DryEnd(first: Xfer, maxPacket: nat, answers: seq<seq<Request>>) returns (last: Xfer)
    requires first.Ok() && first.status == InProgress && first.limit == 0 && first.urb.Remaining() > 0
    requires first.queue != [] && first.completed == [] && maxPacket > 0 && AnswersOk(answers)
    ensures last == Run(first, 1, maxPacket, answers) && last.sent == first.sent && last.urb == first.urb
    ensures var overtaken := |first.queue| > 1 && first.queue[1].Remaining() == 0;
      && last.status == (if overtaken then Done else InProgress)
      && |last.completed| == (if overtaken then 1 else 0)
      && (overtaken ==> last.completed[0].request.buffer == first.queue[1].buffer && last.completed[0].request.status != InProgress)
  {
    last := first;
    if |first.queue| > 1 {
      SecondRequest(first, maxPacket, Answer(answers, 0));
      last := Turn(first, 1, maxPacket, Answer(answers, 0)).0;
    }
  }

  /** A call whose bandwidth runs dry on its head request spends all of it there.
      It then stops with the URB in progress, except when the second request
      expects nothing: that one overtakes the head, and the URB is reported as
      finished although it still expects data. */
  lemma {:induction false} DryCall(urb: Urb, queue: seq<Request>, limit: nat, maxPacket: nat, answers: seq<seq<Request>>)
    requires urb.Ok() && QueueOk(queue) && maxPacket > 0 && AnswersOk(answers)
    requires queue != [] && RunsDry(Begin(urb, queue, limit), maxPacket)
    ensures var x := Call(urb, queue, limit, maxPacket, answers);
      var overtaken := |queue| > 1 && queue[1].Remaining() == 0;
      && x.sent == limit && x.urb.Remaining() > 0
      && x.status == (if overtaken then Done else InProgress)
      && |x.completed| == (if overtaken then 1 else 0)
      && (overtaken ==> x.completed[0].request.buffer == queue[1].buffer && x.completed[0].request.status != InProgress)
  {
    var first := DryStart(urb, queue, limit, maxPacket, answers);
    var last := DryEnd(first, maxPacket, answers);
    if |queue| > 1 { assert first.queue[1] == first.queue[1..][0] == queue[1]; }
  }
}
