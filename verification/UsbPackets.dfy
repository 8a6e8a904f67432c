/** When a transfer is over: the short-packet and zero-length-packet rules, stated
    from the lengths of the two buffers and the flags on both sides. */
module UsbPackets {
  import opened Ring
  import opened UsbTransfer

  // ----- The rules --------------------------------------------------------

  /** A transfer of `want` bytes ends with a packet that is not full. */
  predicate EndsShort(want: nat, maxPacket: nat)
    requires maxPacket > 0
  {
    want == 0 || want % maxPacket != 0
  }

  /** The gadget gets its request back: it sent a short packet, a zero-length one that
      it asked for and the host had room to read, or all it had; and it received
      a short packet, the host's zero-length one, or all it had room for. */
  predicate GivesBack(toHost: bool, host: nat, dev: nat, zero: bool, zeroPacket: bool, maxPacket: nat)
    requires maxPacket > 0
  {
    || EndsShort(Min(host, dev), maxPacket)
    || (if toHost then dev < host || (dev == host && !zero) else dev <= host || zeroPacket)
  }

  /** The host's URB is over: the same, seen from the other side. */
  predicate EndsUrb(toHost: bool, host: nat, dev: nat, zero: bool, zeroPacket: bool, maxPacket: nat)
    requires maxPacket > 0
  {
    || EndsShort(Min(host, dev), maxPacket)
    || (if toHost then host <= dev || zero else host < dev || (host == dev && !zeroPacket))
  }

  // ----- One head, with enough bandwidth ----------------------------------

  function Want(x: Xfer): (n: nat)
    requires x.Ok() && x.queue != []
    ensures CanMove(x.urb, x.queue[0], n)
  {
    Min(x.urb.Remaining(), x.queue[0].Remaining())
  }

  predicate HasHead(x: Xfer, maxPacket: nat, answers: seq<seq<Request>>) {
    x.Ok() && x.status == InProgress && x.queue != [] && maxPacket > 0 && AnswersOk(answers)
  }

  /** `len` bytes further on, with the URB's status and, when the head is given
      back, the status it is given back with. */
  predicate Reached(x: Xfer, y: Xfer, len: nat, status: Status, given: Option<Status>, answers: seq<seq<Request>>)
    requires x.queue != []
  {
    && y.Ok() && y.sent == x.sent + len && y.limit == x.limit - len && y.status == status
    && y.urb.actual == x.urb.actual + len && |y.urb.buffer| == |x.urb.buffer|
    && y.urb.toHost == x.urb.toHost && y.urb.zeroPacket == x.urb.zeroPacket
    && match given
       case None =>
         && y.completed == x.completed && |y.queue| == |x.queue|
         && y.queue[0].actual == x.queue[0].actual + len && |y.queue[0].buffer| == |x.queue[0].buffer|
         && y.queue[0].zero == x.queue[0].zero
       case Some(s) =>
         && y.queue == Answer(answers, |x.completed|) && |y.completed| == |x.completed| + 1
         && y.completed[..|x.completed|] == x.completed
         && y.completed[|x.completed|].place == 0
         && y.completed[|x.completed|].request.status == s
         && y.completed[|x.completed|].request.actual == x.queue[0].actual + len
         && |y.completed[|x.completed|].request.buffer| == |x.queue[0].buffer|
  }

  /** Less than a packet, or nothing, is left on one side: one more turn ends both. */
  lemma {:induction false} ShortHead(x: Xfer, maxPacket: nat, answers: seq<seq<Request>>) returns (y: Xfer)
    requires HasHead(x, maxPacket, answers) && Want(x) < maxPacket && Want(x) <= x.limit
    ensures var host, dev := x.urb.Remaining(), x.queue[0].Remaining();
      Reached(x, y, Want(x), if x.urb.toHost && dev > host then Overflow else Done,
              Some(if !x.urb.toHost && host > dev then Overflow else Done), answers)
    ensures Run(x, 0, maxPacket, answers) == y
  {
    var returned := Answer(answers, |x.completed|);
    TurnActs(x, 0, maxPacket, returned);
    y := Turn(x, 0, maxPacket, returned).0;
    assert Burst(Want(x), x.limit, maxPacket) == Some(Want(x));
  }

  /** The whole packets, moved and settled. */
  lemma {:induction false} WholeMoved(x: Xfer, maxPacket: nat, answers: seq<seq<Request>>) returns (moved: Xfer, settled: (Status, Status, bool))
    requires HasHead(x, maxPacket, answers) && maxPacket <= Want(x) <= x.limit
    ensures var host, dev, len := x.urb.Remaining(), x.queue[0].Remaining(), Want(x) - Want(x) % maxPacket;
      && len > 0 && Burst(Want(x), x.limit, maxPacket) == Some(len)
      && moved == Move(x, 0, len) && Reached(x, moved, len, InProgress, None, answers)
      && settled == Settled(x, moved, 0, maxPacket)
      && settled.0 == (if dev == len && !(x.urb.toHost && x.queue[0].zero) then Done else InProgress)
      && settled.1 == (if host == len && !(!x.urb.toHost && x.urb.zeroPacket) then Done else InProgress)
      && (settled.0 == InProgress && settled.1 == InProgress ==> settled.2)
  {
    WholePackets(Want(x), maxPacket);
    var len := Want(x) - Want(x) % maxPacket;
    moved := Move(x, 0, len);
    settled := Settled(x, moved, 0, maxPacket);
  }

  lemma {:induction false} Concluded(x: Xfer, moved: Xfer, len: nat, settled: (Status, Status, bool), answers: seq<seq<Request>>)
    returns (y: Xfer, next: Next)
    requires x.queue != [] && Reached(x, moved, len, InProgress, None, answers) && AnswersOk(answers)
    requires settled.0 == InProgress && settled.1 == InProgress ==> settled.2
    ensures (y, next) == Conclude(moved, 0, settled.0, settled.1, settled.2, Answer(answers, |x.completed|))
    ensures Reached(x, y, len, settled.1, if settled.0 == InProgress then None else Some(settled.0), answers)
    ensures next == if settled.1 != InProgress then Stop else Rescan
  {
    var c := Conclude(moved, 0, settled.0, settled.1, settled.2, Answer(answers, |x.completed|));
    y, next := c.0, c.1;
  }

  /** The turn that moves the whole packets. */
  lemma {:induction false} WholeTurn(x: Xfer, maxPacket: nat, answers: seq<seq<Request>>) returns (y: Xfer, next: Next)
    requires HasHead(x, maxPacket, answers) && maxPacket <= Want(x) <= x.limit
    ensures var host, dev, len := x.urb.Remaining(), x.queue[0].Remaining(), Want(x) - Want(x) % maxPacket;
      var given := dev == len && !(x.urb.toHost && x.queue[0].zero);
      var ended := host == len && !(!x.urb.toHost && x.urb.zeroPacket);
      && len > 0
      && Reached(x, y, len, if ended then Done else InProgress, if given then Some(Done) else None, answers)
      && next == (if ended then Stop else Rescan)
    ensures Run(x, 0, maxPacket, answers) == (if next == Stop then y else Run(y, 0, maxPacket, answers))
  {
    var moved, settled := WholeMoved(x, maxPacket, answers);
    y, next := Concluded(x, moved, Want(x) - Want(x) % maxPacket, settled, answers);
    var returned := Answer(answers, |x.completed|);
    TurnActs(x, 0, maxPacket, returned);
    TurnProgress(x, 0, maxPacket, returned);
    assert Turn(x, 0, maxPacket, returned) == (y, next);
  }

  /** Where one look at the head leads, with bandwidth for all of it: the head given
      back or not, the URB over or not, and the call going on from there. */
  lemma {:induction false} HeadFinishes(x: Xfer, maxPacket: nat, answers: seq<seq<Request>>) returns (y: Xfer)
    requires HasHead(x, maxPacket, answers) && Want(x) <= x.limit
    ensures var host, dev, toHost := x.urb.Remaining(), x.queue[0].Remaining(), x.urb.toHost;
      var short := EndsShort(Want(x), maxPacket);
      var ended := EndsUrb(toHost, host, dev, x.queue[0].zero, x.urb.zeroPacket, maxPacket);
      var given := GivesBack(toHost, host, dev, x.queue[0].zero, x.urb.zeroPacket, maxPacket);
      && Reached(x, y, Want(x),
                 if !ended then InProgress else if short && toHost && dev > host then Overflow else Done,
                 if !given then None else Some(if short && !toHost && host > dev then Overflow else Done), answers)
      && Run(x, 0, maxPacket, answers) == (if ended then y else Run(y, 0, maxPacket, answers))
  {
    if Want(x) < maxPacket {
      y := ShortHead(x, maxPacket, answers);
      SmallRemainder(Want(x), maxPacket);
    } else {
      var next;
      y, next := WholeTurn(x, maxPacket, answers);
      RemainderFits(Want(x), maxPacket);
      if y.status == InProgress && y.completed == x.completed {
        y := ShortHead(y, maxPacket, answers);
      }
    }
  }

  lemma {:induction false} SmallRemainder(n: nat, m: nat)
    requires n < m
    ensures n % m == n
  {}

  lemma {:induction false} RemainderFits(n: nat, m: nat)
    requires 0 < m <= n
    ensures 0 <= n % m < m && n % m < n
  {}

  // ----- Whole calls ------------------------------------------------------

  /** A call with bandwidth for its head request and nothing behind it. Both sides'
      statuses, and what is given back, follow from the lengths and flags alone. */
  lemma {:induction false} OneRequestCall(urb: Urb, queue: seq<Request>, limit: nat, maxPacket: nat, answers: seq<seq<Request>>)
    requires urb.Ok() && QueueOk(queue) && queue != [] && maxPacket > 0 && AnswersOk(answers) && Answer(answers, 0) == []
    requires Min(urb.Remaining(), queue[0].Remaining()) <= limit
    ensures var x, host, dev := Call(urb, queue, limit, maxPacket, answers), urb.Remaining(), queue[0].Remaining();
      var short := EndsShort(Min(host, dev), maxPacket);
      && x.sent == Min(host, dev)
      && (x.status != InProgress <==> EndsUrb(urb.toHost, host, dev, queue[0].zero, urb.zeroPacket, maxPacket))
      && (x.completed != [] <==> GivesBack(urb.toHost, host, dev, queue[0].zero, urb.zeroPacket, maxPacket))
      && (x.completed != [] ==>
            && |x.completed| == 1 && x.queue == [] && x.completed[0].place == 0
            && x.completed[0].request.actual == queue[0].actual + x.sent
            && (x.completed[0].request.status == Overflow <==> short && !urb.toHost && host > dev)
            && x.completed[0].request.status != InProgress)
      && (x.status == Overflow <==> short && urb.toHost && dev > host)
  {
    var x := Begin(urb, queue, limit);
    var y := HeadFinishes(x, maxPacket, answers);
  }

  /** A reply that is shorter than the host has room for ends the host's read exactly
      when it is empty, does not fill its last packet, or asks for a
      zero-length one; and it is given back whole in every case. */
  lemma {:induction false} ShortReplyEnds(urb: Urb, queue: seq<Request>, limit: nat, maxPacket: nat, answers: seq<seq<Request>>)
    requires urb.Ok() && QueueOk(queue) && queue != [] && maxPacket > 0 && AnswersOk(answers) && Answer(answers, 0) == []
    requires urb.toHost && queue[0].Remaining() < urb.Remaining() && queue[0].Remaining() <= limit
    ensures var x, n := Call(urb, queue, limit, maxPacket, answers), queue[0].Remaining();
      && (x.status != InProgress <==> n == 0 || n % maxPacket != 0 || queue[0].zero)
      && x.status != Overflow && x.sent == n
      && |x.completed| == 1 && x.completed[0].request.status == Done
      && x.completed[0].request.actual == |queue[0].buffer| == |x.completed[0].request.buffer|
  {
    OneRequestCall(urb, queue, limit, maxPacket, answers);
    var y := HeadFinishes(Begin(urb, queue, limit), maxPacket, answers);
  }

  /** A write that is shorter than the gadget has room for ends for the host in every
      case; the gadget gets its request back exactly when the write is empty,
      does not fill its last packet, or promises a zero-length one. */
  lemma {:induction false} ShortWriteEnds(urb: Urb, queue: seq<Request>, limit: nat, maxPacket: nat, answers: seq<seq<Request>>)
    requires urb.Ok() && QueueOk(queue) && queue != [] && maxPacket > 0 && AnswersOk(answers) && Answer(answers, 0) == []
    requires !urb.toHost && urb.Remaining() < queue[0].Remaining() && urb.Remaining() <= limit
    ensures var x, n := Call(urb, queue, limit, maxPacket, answers), urb.Remaining();
      && (x.completed != [] <==> n == 0 || n % maxPacket != 0 || urb.zeroPacket)
      && x.status == Done && x.sent == n
      && (x.completed != [] ==> |x.completed| == 1 && x.completed[0].request.status == Done
                                && x.completed[0].request.actual == queue[0].actual + n)
  {
    OneRequestCall(urb, queue, limit, maxPacket, answers);
  }

  // ----- Too little bandwidth ---------------------------------------------

  /** Without bandwidth for all of it a call moves the whole packets the bandwidth
      holds and leaves everything in progress; `DryCall` has the case where these use
      it up to the last byte. */
  lemma {:induction false} LowBandwidth(x: Xfer, maxPacket: nat, answers: seq<seq<Request>>)
    requires HasHead(x, maxPacket, answers) && x.limit < Want(x) && (x.limit == 0 || x.limit % maxPacket != 0)
    ensures var y := Run(x, 0, maxPacket, answers);
      && y.sent == x.sent + (x.limit - x.limit % maxPacket)
      && y.status == InProgress && y.completed == x.completed && |y.queue| == |x.queue|
  {
    var returned := Answer(answers, |x.completed|);
    TurnActs(x, 0, maxPacket, returned);
    if x.limit >= maxPacket {
      WholePackets(x.limit, maxPacket);
      TurnProgress(x, 0, maxPacket, returned);
      var y := Turn(x, 0, maxPacket, returned).0;
      RemainderFits(x.limit, maxPacket);
      assert Burst(Want(x), x.limit, maxPacket) == Some(x.limit - x.limit % maxPacket);
      TurnActs(y, 0, maxPacket, returned);
    } else {
      SmallRemainder(x.limit, maxPacket);
    }
  }
}
