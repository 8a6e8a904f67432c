/** Isochronous pacing of the loopback controller (section 5.6 of USB 2.0): one
    packet per endpoint interval, with a bounded catch-up after a late timer. */
module IsoPacing {
  import opened Ring

  const TWO_TO_64: int := 0x1_0000_0000_0000_0000

  const CATCH_UP := 8

  /** Nanoseconds between packets: 125 us frames from high speed on, 1 ms below. */
  function IntervalNs(interval: int, highSpeed: bool): (ns: int)
    requires interval < 0x8000_0000
    ensures 125000 <= ns < TWO_TO_64
  {
    (if interval > 1 then interval else 1) * (if highSpeed then 125000 else 1000000)
  }

  /** An interval is at least one frame, of 125 us from high speed on and of 1 ms below. */
  lemma {:induction false} IntervalIsFrames(interval: int)
    requires interval < 0x8000_0000
    ensures interval >= 1 ==> IntervalNs(interval, true) == interval * 125000 && IntervalNs(interval, false) == 8 * IntervalNs(interval, true)
    ensures interval < 1 ==> IntervalNs(interval, true) == 125000 && IntervalNs(interval, false) == 1000000
  {}

  // ----- One packet -------------------------------------------------------

  datatype IsoStatus = Success | NoRequest | Overflow

  datatype Packet = Packet(offset: nat, length: nat, actual: nat, status: IsoStatus)

  /** The URB's side: its buffer, its packet descriptors, the next one to serve. */
  datatype IsoUrb = IsoUrb(buffer: seq<uint8>, packets: seq<Packet>, next: nat, actual: nat, errors: nat, toHost: bool)
  {
    predicate Ok() {
      next < |packets| && forall i :: 0 <= i < |packets| ==> packets[i].offset + packets[i].length <= |buffer|
    }
  }

  datatype IsoRequest = IsoRequest(buffer: seq<uint8>, actual: nat)
  {
    predicate Ok() { actual <= |buffer| }
  }

  function Min(a: int, b: int): int { if a < b then a else b }

  /** The schedule point a packet served now belongs to: the one due, or now when
      the endpoint starts or has fallen too far behind. All sums are 64 bits wide. */
  function Base(next: nat, now: nat, interval: nat): nat {
    if next == 0 || now > (next + CATCH_UP * interval) % TWO_TO_64 then now else next
  }

  /** When the next packet is due, and whether one is served now. */
  function Poll(next: nat, now: nat, interval: nat): (r: (nat, bool)) {
    if now < next then (next, false) else ((Base(next, now, interval) + interval) % TWO_TO_64, true)
  }

  predicate QueueOk(queue: seq<IsoRequest>) {
    forall i :: 0 <= i < |queue| ==> queue[i].Ok()
  }

  /** The bytes one packet carries: the descriptor's length or what the request has left. */
  function PacketLength(p: Packet, req: IsoRequest): (len: nat)
    requires req.Ok()
    ensures len <= p.length && req.actual + len <= |req.buffer|
  {
    Min(p.length, |req.buffer| - req.actual)
  }

  function Finish(urb: IsoUrb, p: Packet): IsoUrb
    requires urb.Ok()
  {
    urb.(packets := urb.packets[urb.next := p], next := urb.next + 1,
         errors := if p.status == Success then urb.errors else urb.errors + 1)
  }

  /** The URB and the request after a packet, and the packet's descriptor. */
  function Exchange(urb: IsoUrb, req: IsoRequest): (r: (IsoUrb, IsoRequest))
    requires urb.Ok() && req.Ok()
  {
    var p := urb.packets[urb.next];
    var len := PacketLength(p, req);
    var buffer := if urb.toHost
      then urb.buffer[..p.offset] + req.buffer[req.actual..req.actual + len] + urb.buffer[p.offset + len..]
      else urb.buffer;
    var data := if urb.toHost then req.buffer
      else req.buffer[..req.actual] + urb.buffer[p.offset..p.offset + len] + req.buffer[req.actual + len..];
    (Finish(urb.(buffer := buffer, actual := urb.actual + len),
            p.(actual := len, status := if len == p.length then Success else Overflow)),
     IsoRequest(data, req.actual + len))
  }

  /** A packet moves exactly the bytes it reports, in place, between its own
      stretch of the URB and the unread part of the head request; it succeeds
      exactly when the request could fill the descriptor. */
  lemma {:induction false} PacketIsFaithful(urb: IsoUrb, req: IsoRequest)
    requires urb.Ok() && req.Ok()
    ensures var (urb', req') := Exchange(urb, req);
      var p, len := urb.packets[urb.next], PacketLength(urb.packets[urb.next], req);
      && |urb'.buffer| == |urb.buffer| && |req'.buffer| == |req.buffer|
      && urb'.buffer[p.offset..p.offset + len] == req'.buffer[req.actual..req'.actual]
      && req'.actual - req.actual == urb'.actual - urb.actual == urb'.packets[urb.next].actual == len
      && urb'.buffer[..p.offset] == urb.buffer[..p.offset] && urb'.buffer[p.offset + len..] == urb.buffer[p.offset + len..]
      && req'.buffer[..req.actual] == req.buffer[..req.actual] && req'.buffer[req'.actual..] == req.buffer[req'.actual..]
      && (urb'.packets[urb.next].status == Success <==> p.length <= |req.buffer| - req.actual)
      && (forall i :: 0 <= i < |urb.packets| && i != urb.next ==> urb'.packets[i] == urb.packets[i])
  {}

  // ----- A whole URB ------------------------------------------------------

  /** One packet, exchanged with the head request when there is one. */
  function ServeOne(urb: IsoUrb, head: Option<IsoRequest>): IsoUrb
    requires urb.Ok() && (head.Some? ==> head.value.Ok())
  {
    if head.Some? then Exchange(urb, head.value).0
    else Finish(urb, urb.packets[urb.next].(actual := 0, status := NoRequest))
  }

  /** The bytes of one packet go into the URB's buffer, or into the request's. */
  method CopyPacket(toHost: bool, buffer: seq<uint8>, offset: nat, data: seq<uint8>, at: nat, len: nat)
    returns (buffer': seq<uint8>, data': seq<uint8>)
    requires offset + len <= |buffer| && at + len <= |data|
    ensures buffer' == if toHost then buffer[..offset] + data[at..at + len] + buffer[offset + len..] else buffer
    ensures data' == if toHost then data else data[..at] + buffer[offset..offset + len] + data[at + len..]
  {
    buffer', data' := buffer, data;
    if toHost {
      buffer' := buffer[..offset] + data[at..at + len] + buffer[offset + len..];
    } else {
      data' := data[..at] + buffer[offset..offset + len] + data[at + len..];
    }
  }

  /** The copy of one packet, in the direction of the URB. */
  method MovePacket(urb: IsoUrb, head: IsoRequest) returns (urb': IsoUrb, req: IsoRequest, done: Packet)
    requires urb.Ok() && head.Ok()
    ensures urb'.Ok() && |urb'.packets| == |urb.packets|
    ensures (Finish(urb', done), req) == Exchange(urb, head)
  {
    var p := urb.packets[urb.next];
    var len := Min(p.length, |head.buffer| - head.actual);
    var buffer, data := CopyPacket(urb.toHost, urb.buffer, p.offset, head.buffer, head.actual, len);
    req := IsoRequest(data, head.actual + len);
    urb' := urb.(buffer := buffer, actual := urb.actual + len);
    done := p.(actual := len, status := if len == p.length then Success else Overflow);
  }

  class IsoEndpoint {
    var nextNs: nat
    var queue: seq<IsoRequest>

    constructor ()
      ensures nextNs == 0 && queue == []
    {
      nextNs, queue := 0, [];
    }

    /** Serves at most one packet; a served head request is given back whole or not. */
    method Serve(urb: IsoUrb, now: nat, interval: nat)
      returns (served: bool, urb': IsoUrb, given: Option<IsoRequest>, complete: bool)
      requires urb.Ok() && QueueOk(queue)
      modifies this
      ensures (nextNs, served) == Poll(old(nextNs), now, interval)
      ensures !served ==> urb' == urb && given == None && !complete && queue == old(queue)
      ensures served && old(queue) == [] ==>
        given == None && queue == [] && urb' == Finish(urb, urb.packets[urb.next].(actual := 0, status := NoRequest))
      ensures served && old(queue) != [] ==>
        queue == old(queue)[1..] && (urb', given) == (Exchange(urb, old(queue)[0]).0, Some(Exchange(urb, old(queue)[0]).1))
      ensures served ==> urb' == ServeOne(urb, if old(queue) == [] then None else Some(old(queue)[0]))
      ensures served ==> complete == (urb'.next == |urb.packets|)
    {
      served, urb', given, complete := false, urb, None, false;
      if now < nextNs { return; }
      if nextNs == 0 || now > (nextNs + CATCH_UP * interval) % TWO_TO_64 {
        nextNs := now;
      }
      nextNs := (nextNs + interval) % TWO_TO_64;
      served := true;
      var done := urb.packets[urb.next].(actual := 0, status := NoRequest);
      if queue != [] {
        var req;
        urb', req, done := MovePacket(urb, queue[0]);
        queue := queue[1..];
        given := Some(req);
      }
      urb' := urb'.(packets := urb'.packets[urb'.next := done], next := urb'.next + 1,
                    errors := if done.status != Success then urb'.errors + 1 else urb'.errors);
      complete := urb'.next == |urb.packets|;
    }
  }

  // ----- Any sequence of timer polls --------------------------------------

  /** `times` are the moments packets were served and `bases` the points of the
      schedule they were served for. */
  datatype Run = Run(next: nat, times: seq<nat>, bases: seq<nat>)

  function Step(r: Run, now: nat, interval: nat): Run {
    var poll := Poll(r.next, now, interval);
    if !poll.1 then r else Run(poll.0, r.times + [now], r.bases + [Base(r.next, now, interval)])
  }

  function Exec(polls: seq<nat>, interval: nat): Run {
    if polls == [] then Run(0, [], []) else Step(Exec(polls[..|polls| - 1], interval), polls[|polls| - 1], interval)
  }

  /** A monotonic clock that stays clear of the end of its 64-bit range. */
  predicate Clock(polls: seq<nat>, interval: nat) {
    && interval > 0
    && (forall i, j :: 0 <= i < j < |polls| ==> polls[i] <= polls[j])
    && (forall i :: 0 <= i < |polls| ==> polls[i] + (CATCH_UP + 1) * interval < TWO_TO_64)
  }

  /** Each packet is served at most eight intervals after its base, bases are at
      least one interval apart, and the next one is due an interval after the last. */
  predicate Paced(r: Run, interval: nat) {
    && |r.times| == |r.bases|
    && (forall i :: 0 <= i < |r.times| ==> r.bases[i] <= r.times[i] <= r.bases[i] + CATCH_UP * interval)
    && (forall i :: 0 < i < |r.bases| ==> r.bases[i - 1] + interval <= r.bases[i])
    && (if r.bases == [] then r.next == 0 else r.next == r.bases[|r.bases| - 1] + interval)
  }

  lemma {:induction false} StepPaced(r: Run, now: nat, interval: nat)
    requires Paced(r, interval) && interval > 0
    requires now + (CATCH_UP + 1) * interval < TWO_TO_64
    requires r.times != [] ==> r.times[|r.times| - 1] + (CATCH_UP + 1) * interval < TWO_TO_64
    ensures Paced(Step(r, now, interval), interval)
  {
    var r' := Step(r, now, interval);
    assert r.bases != [] ==> r.next + CATCH_UP * interval < TWO_TO_64;
    if Poll(r.next, now, interval).1 {
      var base := Base(r.next, now, interval);
      assert base <= now <= base + CATCH_UP * interval && r.next <= base;
      assert r'.next == base + interval;
    }
  }

  lemma {:induction false} RunPaced(polls: seq<nat>, interval: nat)
    requires Clock(polls, interval)
    ensures Paced(Exec(polls, interval), interval)
    ensures forall t :: t in Exec(polls, interval).times ==> t in polls
  {
    if polls != [] {
      var prior := polls[..|polls| - 1];
      var r, now := Exec(prior, interval), polls[|polls| - 1];
      RunPaced(prior, interval);
      assert forall t :: t in prior ==> t in polls;
      if r.times != [] { assert r.times[|r.times| - 1] in prior; }
      StepPaced(r, now, interval);
    }
  }

  lemma {:induction false} BasesApart(r: Run, interval: nat, i: nat, j: nat)
    requires Paced(r, interval) && i <= j < |r.bases|
    ensures r.bases[i] + (j - i) * interval <= r.bases[j]
  {
    if i < j {
      BasesApart(r, interval, i, j - 1);
      assert (j - i) * interval == (j - 1 - i) * interval + interval;
    }
  }

  /** Bounded catch-up: on a monotonic clock any n consecutive packets span at
      least n-9 intervals, across any number of resynchronisations. */
  lemma {:induction false} PacketsAreSpaced(polls: seq<nat>, interval: nat, i: nat, n: nat)
    requires Clock(polls, interval) && n > 0 && i + n <= |Exec(polls, interval).times|
    ensures var times := Exec(polls, interval).times;
      times[i + n - 1] >= times[i] + (n - 9) * interval
  {
    RunPaced(polls, interval);
    var r := Exec(polls, interval);
    BasesApart(r, interval, i, i + n - 1);
    assert (n - 9) * interval == (i + n - 1 - i) * interval - CATCH_UP * interval;
  }

  // ----- Packets that are due are served ----------------------------------

  lemma {:induction false} ExecNext(polls: seq<nat>, now: nat, interval: nat)
    ensures Exec(polls + [now], interval) == Step(Exec(polls, interval), now, interval)
  {
    assert (polls + [now])[..|polls|] == polls;
  }

  lemma {:induction false} ClockPrefix(polls: seq<nat>, now: nat, interval: nat)
    requires Clock(polls + [now], interval)
    ensures Clock(polls, interval) && now + (CATCH_UP + 1) * interval < TWO_TO_64
    ensures forall t :: t in polls ==> t <= now
  {
    var all := polls + [now];
    assert all[|polls|] == now;
    assert forall i :: 0 <= i < |polls| ==> all[i] == polls[i];
  }

  /** Where the schedule stands after a run: between eight intervals before and right
      at one interval after the last packet. */
  lemma {:induction false} NextIsNear(polls: seq<nat>, interval: nat)
    requires Clock(polls, interval) && Exec(polls, interval).times != []
    ensures var r := Exec(polls, interval);
      var last := r.times[|r.times| - 1];
      0 < r.next <= last + interval && last + interval <= r.next + CATCH_UP * interval && last in polls
  {
    RunPaced(polls, interval);
    var r := Exec(polls, interval);
    assert r.times[|r.times| - 1] in r.times;
  }

  /** The first poll serves a packet, and so does any poll at least one interval after
      the last packet: the stream never stalls. */
  lemma {:induction false} DuePacketIsServed(polls: seq<nat>, now: nat, interval: nat)
    requires Clock(polls + [now], interval)
    ensures var times := Exec(polls, interval).times;
      times == [] || now >= times[|times| - 1] + interval ==> Exec(polls + [now], interval).times == times + [now]
  {
    ExecNext(polls, now, interval);
    ClockPrefix(polls, now, interval);
    RunPaced(polls, interval);
    if Exec(polls, interval).times != [] { NextIsNear(polls, interval); }
  }

  /** After a gap of more than nine intervals the schedule starts over: the next
      packet goes out at once and the one behind it a full interval later, neither
      sooner nor held back. */
  lemma {:induction false} GapStartsOver(polls: seq<nat>, now: nat, later: nat, interval: nat)
    requires Clock(polls + [now] + [later], interval) && Exec(polls, interval).times != []
    requires var times := Exec(polls, interval).times; now > times[|times| - 1] + 9 * interval
    ensures var times := Exec(polls, interval).times;
      && Exec(polls + [now], interval).times == times + [now]
      && Exec(polls + [now] + [later], interval).times ==
           if later >= now + interval then times + [now, later] else times + [now]
  {
    ClockPrefix(polls + [now], later, interval);
    ClockPrefix(polls, now, interval);
    DuePacketIsServed(polls, now, interval);
    NextIsNear(polls, interval);
    ExecNext(polls, now, interval);
    ExecNext(polls + [now], later, interval);
    var r := Exec(polls, interval);
    StartsOver(r.next, now, interval);
    assert r.times + [now] + [later] == r.times + [now, later];
  }

  lemma {:induction false} StartsOver(next: nat, now: nat, interval: nat)
    requires interval > 0 && now > next + CATCH_UP * interval && now + (CATCH_UP + 1) * interval < TWO_TO_64
    ensures Poll(next, now, interval) == (now + interval, true)
  {
    assert (CATCH_UP + 1) * interval == CATCH_UP * interval + interval;
  }

  // ----- The bound is exact -----------------------------------------------

  /** One timely poll, a stall of nine intervals, nine polls at once, then one poll
      an interval. */
  function Stall(start: nat, interval: nat, n: nat): (polls: seq<nat>)
    ensures |polls| == n
  {
    if n == 0 then []
    else
      Stall(start, interval, n - 1) + [StallPoll(start, interval, n)]
  }

  function StallPoll(start: nat, interval: nat, n: nat): nat
    requires n > 0
  {
    if n == 1 then start else if n <= 10 then start + 9 * interval else start + 9 * interval + (n - 10) * interval
  }

  lemma {:induction false} StallAt(start: nat, interval: nat, n: nat, k: nat)
    requires k < n
    ensures Stall(start, interval, n)[k] == StallPoll(start, interval, k + 1)
  {
    if k < n - 1 { StallAt(start, interval, n - 1, k); }
  }

  lemma {:induction false} PollsGrow(start: nat, interval: nat, a: nat, b: nat)
    requires 1 <= a <= b
    ensures start <= StallPoll(start, interval, a) <= StallPoll(start, interval, b)
  {
    if a > 10 {
      assert (b - 10) * interval == (a - 10) * interval + (b - a) * interval;
    }
  }

  lemma {:induction false} StallMonotone(start: nat, interval: nat, n: nat)
    requires n > 0
    ensures forall i, j :: 0 <= i < j < n ==> Stall(start, interval, n)[i] <= Stall(start, interval, n)[j]
    ensures forall i :: 0 <= i < n ==> start <= Stall(start, interval, n)[i] <= StallPoll(start, interval, n)
  {
    forall i, j | 0 <= i < j < n ensures Stall(start, interval, n)[i] <= Stall(start, interval, n)[j] {
      StallAt(start, interval, n, i);
      StallAt(start, interval, n, j);
      PollsGrow(start, interval, i + 1, j + 1);
    }
    forall i | 0 <= i < n ensures start <= Stall(start, interval, n)[i] <= StallPoll(start, interval, n) {
      StallAt(start, interval, n, i);
      PollsGrow(start, interval, i + 1, n);
    }
  }

  predicate Room(start: int, interval: int, n: nat) {
    0 < start && 0 < interval && start + (n + 19) * interval < TWO_TO_64
  }

  /** The polls of the stall are a clock that stays in its range. */
  lemma {:induction false} StallIsClock(start: nat, interval: nat, n: nat)
    requires n > 0 && Room(start, interval, n)
    ensures Clock(Stall(start, interval, n), interval)
  {
    StallMonotone(start, interval, n);
    LastPollFits(start, interval, n);
  }

  lemma {:induction false} LastPollFits(start: nat, interval: nat, n: nat)
    requires n > 0 && Room(start, interval, n)
    ensures StallPoll(start, interval, n) + (CATCH_UP + 1) * interval < TWO_TO_64
  {
    assert (n + 19) * interval == n * interval + 19 * interval;
    if n > 10 { assert (n - 10) * interval == n * interval - 10 * interval; }
  }

  /** From the second poll to the last one n-9 intervals go by. */
  lemma {:induction false} StallSpan(start: nat, interval: nat, n: nat)
    requires n >= 9
    ensures StallPoll(start, interval, n + 1) == StallPoll(start, interval, 2) + (n - 9) * interval
  {}

  lemma {:induction false} PollInTime(next: nat, now: nat, interval: nat)
    requires 0 < interval && now + interval < TWO_TO_64
    requires next == 0 || (next <= now <= next + CATCH_UP * interval && next + CATCH_UP * interval < TWO_TO_64)
    ensures Base(next, now, interval) == if next == 0 then now else next
    ensures Poll(next, now, interval) == (Base(next, now, interval) + interval, true)
  {}

  /** The n-th poll comes no earlier than its packet is due and at most eight intervals late. */
  lemma {:induction false} StallInTime(start: nat, interval: nat, n: nat)
    requires Room(start, interval, n) && n > 1
    ensures var due, now := start + (n - 1) * interval, StallPoll(start, interval, n);
      && due <= now <= due + CATCH_UP * interval && due + CATCH_UP * interval < TWO_TO_64
      && now + interval < TWO_TO_64 && due + interval == start + n * interval
  {
    assert (n + 19) * interval == n * interval + 19 * interval;
    assert (n - 1) * interval == n * interval - interval;
    if n <= 10 {
      assert n * interval <= 10 * interval;
      assert 2 * interval <= n * interval;
    } else {
      assert (n - 10) * interval == n * interval - 10 * interval;
    }
  }

  lemma {:induction false} StallServesAll(start: nat, interval: nat, n: nat)
    requires Room(start, interval, n)
    ensures var r := Exec(Stall(start, interval, n), interval);
      && r.times == Stall(start, interval, n)
      && r.next == (if n == 0 then 0 else start + n * interval)
  {
    if n > 0 {
      assert (n + 19) * interval == (n - 1 + 19) * interval + interval;
      StallServesAll(start, interval, n - 1);
      var polls := Stall(start, interval, n);
      assert polls[..n - 1] == Stall(start, interval, n - 1);
      assert polls[n - 1] == StallPoll(start, interval, n);
      var next := Exec(Stall(start, interval, n - 1), interval).next;
      if n == 1 {
        assert start + interval < TWO_TO_64;
        PollInTime(0, start, interval);
      } else {
        StallInTime(start, interval, n);
        PollInTime(next, StallPoll(start, interval, n), interval);
      }
    }
  }

  /** Nothing better can be promised: for every interval and every n from nine on
      some run serves n consecutive packets in exactly n-9 intervals. */
  lemma {:induction false} SpacingIsExact(start: nat, interval: nat, n: nat)
    requires n >= 9 && Room(start, interval, n + 1)
    ensures Clock(Stall(start, interval, n + 1), interval)
    ensures var times := Exec(Stall(start, interval, n + 1), interval).times;
      |times| == n + 1 && times[n] == times[1] + (n - 9) * interval
  {
    StallIsClock(start, interval, n + 1);
    StallServesAll(start, interval, n + 1);
    StallAt(start, interval, n + 1, 1);
    StallAt(start, interval, n + 1, n);
    StallSpan(start, interval, n);
  }
}
