/** The loopback transfer engine: moving one URB's data to or from the queue of
    gadget requests, packet by packet, under a bandwidth limit and the
    short-packet rules of section 5.8.3 of USB 2.0. */
module UsbTransfer {
  import opened Ring

  datatype Status = InProgress | Done | Overflow

  /** A gadget request; its buffer is as long as the request. */
  datatype Request = Request(buffer: seq<uint8>, actual: nat, zero: bool, status: Status)
  {
    predicate Ok() { actual <= |buffer| && status == InProgress }

    function Remaining(): int { |buffer| - actual }
  }

  datatype Urb = Urb(buffer: seq<uint8>, actual: nat, zeroPacket: bool, toHost: bool)
  {
    predicate Ok() { actual <= |buffer| }

    function Remaining(): int { |buffer| - actual }
  }

  predicate QueueOk(queue: seq<Request>) {
    forall i :: 0 <= i < |queue| ==> queue[i].Ok()
  }

  /** A request going back to its owner: the place it was taken from, and the
      queue the owner finds behind it. */
  datatype Giveback = Giveback(request: Request, place: nat, behind: seq<Request>)

  /** The state of one call; `limit` is the bandwidth left and `completed` the
      requests given back, oldest first. */
  datatype Xfer = Xfer(
    urb: Urb,
    queue: seq<Request>,
    limit: nat,
    sent: nat,
    status: Status,
    completed: seq<Giveback>)
  {
    predicate Ok() { urb.Ok() && QueueOk(queue) }
  }

  function Begin(urb: Urb, queue: seq<Request>, limit: nat): Xfer {
    Xfer(urb, queue, limit, 0, InProgress, [])
  }

  datatype Next = Stop | Rescan | Continue

  function Min(a: int, b: int): int { if a < b then a else b }

  function Splice(to: seq<uint8>, at: nat, bytes: seq<uint8>): (r: seq<uint8>)
    requires at + |bytes| <= |to|
    ensures |r| == |to|
  {
    to[..at] + bytes + to[at + |bytes|..]
  }

  /** How much the next packet burst moves: nothing at all (`None`) when the
      bandwidth left cannot hold it, else whole packets first, then the rest. */
  function Burst(want: nat, limit: nat, maxPacket: nat): (r: Option<nat>)
    requires maxPacket > 0
    ensures r.Some? ==> r.value <= want && r.value <= limit
  {
    if want == 0 then Some(0)
    else if limit < maxPacket && limit < want then None
    else
      var len := Min(want, limit);
      if len >= maxPacket then Some(len - len % maxPacket) else Some(len)
  }

  /** Fewer bytes than a packet were moved: the transfer ends here. */
  predicate IsShort(want: nat, limit: nat, maxPacket: nat)
    requires maxPacket > 0
  {
    want == 0 || Min(want, limit) < maxPacket
  }

  predicate CanMove(urb: Urb, req: Request, len: nat) {
    urb.actual + len <= |urb.buffer| && req.actual + len <= |req.buffer|
  }

  function Payload(urb: Urb, req: Request, len: nat): (bytes: seq<uint8>)
    requires CanMove(urb, req, len)
    ensures |bytes| == len
  {
    if urb.toHost then req.buffer[req.actual..req.actual + len] else urb.buffer[urb.actual..urb.actual + len]
  }

  function UrbAfter(urb: Urb, req: Request, len: nat): (urb': Urb)
    requires CanMove(urb, req, len)
    ensures urb'.Ok() && |urb'.buffer| == |urb.buffer| && urb'.toHost == urb.toHost
  {
    urb.(actual := urb.actual + len,
         buffer := if urb.toHost then Splice(urb.buffer, urb.actual, Payload(urb, req, len)) else urb.buffer)
  }

  function RequestAfter(urb: Urb, req: Request, len: nat): (req': Request)
    requires CanMove(urb, req, len)
    ensures req'.actual <= |req'.buffer| == |req.buffer| && req'.status == req.status
  {
    req.(actual := req.actual + len,
         buffer := if urb.toHost then req.buffer else Splice(req.buffer, req.actual, Payload(urb, req, len)))
  }

  function Move(x: Xfer, pos: nat, len: nat): (x': Xfer)
    requires x.Ok() && pos < |x.queue| && len <= x.limit && CanMove(x.urb, x.queue[pos], len)
    ensures x'.urb.Ok() && |x'.queue| == |x.queue|
  {
    if len == 0 then x
    else
      var req := x.queue[pos];
      x.(urb := UrbAfter(x.urb, req, len), queue := x.queue[pos := RequestAfter(x.urb, req, len)],
         limit := x.limit - len, sent := x.sent + len)
  }

  /** The request and URB statuses after a short packet; `host` and `dev` are what
      each side still expected before it. */
  function ShortStatus(toHost: bool, host: nat, dev: nat): (r: (Status, Status))
    ensures r.0 != InProgress && r.1 != InProgress
  {
    if host == dev then (Done, Done)
    else if toHost then (Done, if dev > host then Overflow else Done)
    else (if host > dev then Overflow else Done, Done)
  }

  /** The statuses after whole packets only, and whether a zero-length packet is
      still owed. */
  function FullStatus(req: Request, urb: Urb): (r: (Status, Status, bool)) {
    var reqFull, urbFull := |req.buffer| == req.actual, |urb.buffer| == urb.actual;
    (if reqFull && !(req.zero && urb.toHost) then Done else InProgress,
     if urbFull && !(urb.zeroPacket && !urb.toHost) then Done else InProgress,
     (reqFull && req.zero && urb.toHost) || (urbFull && urb.zeroPacket && !urb.toHost))
  }

  /** The request at `pos` leaves the queue with its status. */
  function Taken(queue: seq<Request>, pos: nat, status: Status): Giveback
    requires pos < |queue|
  {
    Giveback(queue[pos].(status := status), pos, queue[..pos] + queue[pos + 1..])
  }

  /** What a burst leads to: a request that completes is given back, and
      `returned` is the queue found when its owner returns. */
  function Conclude(moved: Xfer, pos: nat, reqStatus: Status, urbStatus: Status, owed: bool, returned: seq<Request>): (r: (Xfer, Next))
    requires moved.urb.Ok() && pos < |moved.queue| && QueueOk(returned)
    ensures r.1 != Stop ==> r.0.status == InProgress
  {
    var after :=
      if reqStatus != InProgress then
        moved.(queue := returned, status := urbStatus,
               completed := moved.completed + [Taken(moved.queue, pos, reqStatus)])
      else moved.(status := urbStatus);
    (after, if urbStatus != InProgress then Stop else if reqStatus != InProgress || owed then Rescan else Continue)
  }

  /** The statuses of request and URB after a burst, and whether the loop owes
      another look at the queue. */
  function Settled(x: Xfer, moved: Xfer, pos: nat, maxPacket: nat): (r: (Status, Status, bool))
    requires x.Ok() && pos < |x.queue| && pos < |moved.queue| && maxPacket > 0
  {
    var host, dev := x.urb.Remaining(), x.queue[pos].Remaining();
    var want := Min(host, dev);
    if IsShort(want, x.limit, maxPacket) then
      var status := ShortStatus(x.urb.toHost, host, dev);
      (status.0, status.1, false)
    else
      var status := FullStatus(moved.queue[pos], moved.urb);
      (status.0, status.1, status.2 || Min(want, x.limit) % maxPacket != 0)
  }

  /** One turn of the loop at queue position `pos`. */
  function Turn(x: Xfer, pos: nat, maxPacket: nat, returned: seq<Request>): (r: (Xfer, Next))
    requires x.Ok() && x.status == InProgress && pos < |x.queue| && maxPacket > 0 && QueueOk(returned)
    ensures r.0.Ok()
    ensures r.1 != Stop ==> r.0.status == InProgress
  {
    var len := Burst(Min(x.urb.Remaining(), x.queue[pos].Remaining()), x.limit, maxPacket);
    if len == None then (x, Stop)
    else
      var moved := Move(x, pos, len.value);
      var settled := Settled(x, moved, pos, maxPacket);
      Conclude(moved, pos, settled.0, settled.1, settled.2, returned)
  }

  /** The queue found after the n-th giveback of a call; empty once the owners
      have nothing more to say. */
  function Answer(answers: seq<seq<Request>>, n: nat): seq<Request> {
    if n < |answers| then answers[n] else []
  }

  predicate AnswersOk(answers: seq<seq<Request>>) {
    forall i :: 0 <= i < |answers| ==> QueueOk(answers[i])
  }

  /** A turn that does not end the call used up bandwidth or moved down the queue. */
  lemma {:induction false} TurnProgress(x: Xfer, pos: nat, maxPacket: nat, returned: seq<Request>)
    requires x.Ok() && x.status == InProgress && pos < |x.queue| && maxPacket > 0 && QueueOk(returned)
    ensures var (x', next) := Turn(x, pos, maxPacket, returned);
      && x'.limit <= x.limit
      && (next == Rescan ==> x'.limit < x.limit)
      && (next == Continue ==> x'.limit < x.limit && |x'.queue| == |x.queue|)
  {
    var want := Min(x.urb.Remaining(), x.queue[pos].Remaining());
    var len := Burst(want, x.limit, maxPacket);
    if len.Some? && !IsShort(want, x.limit, maxPacket) {
      WholePackets(Min(want, x.limit), maxPacket);
    }
  }

  lemma {:induction false} WholePackets(len: nat, maxPacket: nat)
    requires len >= maxPacket > 0
    ensures len - len % maxPacket >= maxPacket
  {
    assert len == len / maxPacket * maxPacket + len % maxPacket;
    assert len / maxPacket >= 1;
  }

  /** The whole call, from queue position `pos` on. */
  function Run(x: Xfer, pos: nat, maxPacket: nat, answers: seq<seq<Request>>): (x': Xfer)
    requires x.Ok() && x.status == InProgress && maxPacket > 0 && AnswersOk(answers)
    ensures x'.Ok()
    decreases x.limit, |x.queue| - pos
  {
    if pos >= |x.queue| then x
    else
      TurnProgress(x, pos, maxPacket, Answer(answers, |x.completed|));
      var (next, what) := Turn(x, pos, maxPacket, Answer(answers, |x.completed|));
      match what
      case Stop => next
      case Rescan => Run(next, 0, maxPacket, answers)
      case Continue => Run(next, pos + 1, maxPacket, answers)
  }

  function Call(urb: Urb, queue: seq<Request>, limit: nat, maxPacket: nat, answers: seq<seq<Request>>): Xfer
    requires urb.Ok() && QueueOk(queue) && maxPacket > 0 && AnswersOk(answers)
  {
    Run(Begin(urb, queue, limit), 0, maxPacket, answers)
  }

  /** The copy itself: into the URB's buffer, or into the request's. */
  method PerformTransfer(urb: Urb, req: Request, len: nat) returns (urb': Urb, req': Request)
    requires CanMove(urb, req, len)
    ensures urb' == UrbAfter(urb, req, len).(actual := urb.actual)
    ensures req' == RequestAfter(urb, req, len).(actual := req.actual)
  {
    urb', req' := urb, req;
    if urb.toHost {
      urb' := urb.(buffer := Splice(urb.buffer, urb.actual, req.buffer[req.actual..req.actual + len]));
    } else {
      req' := req.(buffer := Splice(req.buffer, req.actual, urb.buffer[urb.actual..urb.actual + len]));
    }
  }

  /** The size of the next burst, decided as the loop decides it. */
  method ChooseBurst(want: nat, limit: nat, maxPacket: nat) returns (fits: bool, len: nat, isShort: bool, rescan: bool)
    requires maxPacket > 0
    ensures fits == Burst(want, limit, maxPacket).Some?
    ensures fits ==> len == Burst(want, limit, maxPacket).value && isShort == IsShort(want, limit, maxPacket)
    ensures fits ==> rescan == (!isShort && Min(want, limit) % maxPacket != 0)
  {
    fits, len, isShort, rescan := true, want, false, false;
    if len == 0 {
      isShort := true;
      return;
    }
    if limit < maxPacket && limit < len {
      fits := false;
      return;
    }
    len := Min(len, limit);
    if len == 0 {
      fits := false;
      return;
    }
    if len >= maxPacket {
      rescan := len % maxPacket != 0;
      len := len - len % maxPacket;
    } else {
      isShort := true;
    }
  }

  /** The statuses a burst leaves on the request and on the URB. */
  method Settle(urb: Urb, req: Request, isShort: bool, hostLen: nat, devLen: nat, owed: bool)
    returns (reqStatus: Status, urbStatus: Status, rescan: bool)
    requires req.status == InProgress
    ensures isShort ==> (reqStatus, urbStatus) == ShortStatus(urb.toHost, hostLen, devLen) && rescan == owed
    ensures !isShort ==> (reqStatus, urbStatus, rescan) == (FullStatus(req, urb).0, FullStatus(req, urb).1, owed || FullStatus(req, urb).2)
  {
    reqStatus, urbStatus, rescan := InProgress, InProgress, owed;
    if isShort {
      if hostLen == devLen {
        reqStatus, urbStatus := Done, Done;
      } else if urb.toHost {
        reqStatus := Done;
        urbStatus := if devLen > hostLen then Overflow else Done;
      } else {
        urbStatus := Done;
        reqStatus := if hostLen > devLen then Overflow else Done;
      }
    } else {
      if |req.buffer| == req.actual {
        if req.zero && urb.toHost { rescan := true; } else { reqStatus := Done; }
      }
      if |urb.buffer| == urb.actual {
        if urb.zeroPacket && !urb.toHost { rescan := true; } else { urbStatus := Done; }
      }
    }
  }

  /** What `Settle` finds is what the turn is settled with. */
  lemma {:induction false} SettledIs(x: Xfer, moved: Xfer, pos: nat, maxPacket: nat, isShort: bool, owed: bool)
    requires x.Ok() && pos < |x.queue| && pos < |moved.queue| && maxPacket > 0 && moved.urb.toHost == x.urb.toHost
    requires var want := Min(x.urb.Remaining(), x.queue[pos].Remaining());
      isShort == IsShort(want, x.limit, maxPacket) && owed == (!isShort && Min(want, x.limit) % maxPacket != 0)
    ensures isShort ==>
      var status := ShortStatus(moved.urb.toHost, x.urb.Remaining(), x.queue[pos].Remaining());
      Settled(x, moved, pos, maxPacket) == (status.0, status.1, owed)
    ensures !isShort ==>
      var status := FullStatus(moved.queue[pos], moved.urb);
      Settled(x, moved, pos, maxPacket) == (status.0, status.1, owed || status.2)
  {}

  method MoveData(urb: Urb, queue: seq<Request>, left: nat, sent: nat, pos: nat, len: nat, completed: seq<Giveback>)
    returns (urb': Urb, queue': seq<Request>, left': nat, sent': nat)
    requires urb.Ok() && QueueOk(queue) && pos < |queue| && len <= left && CanMove(urb, queue[pos], len)
    ensures Xfer(urb', queue', left', sent', InProgress, completed)
      == Move(Xfer(urb, queue, left, sent, InProgress, completed), pos, len)
  {
    urb', queue', left', sent' := urb, queue, left, sent;
    if len > 0 {
      var req := queue[pos];
      urb', req := PerformTransfer(urb, req, len);
      left', sent' := left - len, sent + len;
      urb' := urb'.(actual := urb'.actual + len);
      req := req.(actual := req.actual + len);
      queue' := queue[pos := req];
    }
  }

  /** Gives the request back when it is done, and says where the loop goes on. */
  method GiveBack(urb: Urb, queue: seq<Request>, left: nat, sent: nat, completed: seq<Giveback>, pos: nat,
                  reqStatus: Status, urbStatus: Status, rescan: bool, returned: seq<Request>)
    returns (queue': seq<Request>, completed': seq<Giveback>, next: Next)
    requires urb.Ok() && pos < |queue| && QueueOk(returned)
    ensures (Xfer(urb, queue', left, sent, urbStatus, completed'), next)
      == Conclude(Xfer(urb, queue, left, sent, InProgress, completed), pos, reqStatus, urbStatus, rescan, returned)
  {
    queue', completed' := queue, completed;
    var again := rescan;
    if reqStatus != InProgress {
      completed' := completed + [Giveback(queue[pos].(status := reqStatus), pos, queue[..pos] + queue[pos + 1..])];
      queue' := returned;
      again := true;
    }
    next := if urbStatus != InProgress then Stop else if again then Rescan else Continue;
  }

  method Decide(urb: Urb, req: Request, left: nat, maxPacket: nat) returns (fits: bool, len: nat, isShort: bool, owed: bool)
    requires urb.Ok() && req.Ok() && maxPacket > 0
    ensures var want := Min(urb.Remaining(), req.Remaining());
      && fits == Burst(want, left, maxPacket).Some?
      && (fits ==> Burst(want, left, maxPacket) == Some(len) && len <= left && CanMove(urb, req, len)
                   && isShort == IsShort(want, left, maxPacket)
                   && owed == (!isShort && Min(want, left) % maxPacket != 0))
  {
    var hostLen, devLen := |urb.buffer| - urb.actual, |req.buffer| - req.actual;
    fits, len, isShort, owed := ChooseBurst(Min(hostLen, devLen), left, maxPacket);
  }

  lemma {:induction false} TurnActs(x: Xfer, pos: nat, maxPacket: nat, returned: seq<Request>)
    requires x.Ok() && x.status == InProgress && pos < |x.queue| && maxPacket > 0 && QueueOk(returned)
    ensures var len := Burst(Min(x.urb.Remaining(), x.queue[pos].Remaining()), x.limit, maxPacket);
      if len == None then Turn(x, pos, maxPacket, returned) == (x, Stop)
      else
        var moved := Move(x, pos, len.value);
        var settled := Settled(x, moved, pos, maxPacket);
        Turn(x, pos, maxPacket, returned) == Conclude(moved, pos, settled.0, settled.1, settled.2, returned)
  {}

  /** One pass of the loop body over the request at `pos`. */
  method Pass(urb: Urb, queue: seq<Request>, left: nat, sent: nat, completed: seq<Giveback>, pos: nat, maxPacket: nat,
              returned: seq<Request>)
    returns (urb': Urb, queue': seq<Request>, left': nat, sent': nat, status: Status, completed': seq<Giveback>,
             next: Next)
    requires urb.Ok() && QueueOk(queue) && pos < |queue| && maxPacket > 0 && QueueOk(returned)
    ensures (Xfer(urb', queue', left', sent', status, completed'), next)
      == Turn(Xfer(urb, queue, left, sent, InProgress, completed), pos, maxPacket, returned)
  {
    ghost var x := Xfer(urb, queue, left, sent, InProgress, completed);
    var fits, len, isShort, rescan := Decide(urb, queue[pos], left, maxPacket);
    TurnActs(x, pos, maxPacket, returned);
    if !fits {
      return urb, queue, left, sent, InProgress, completed, Stop;
    }
    urb', queue', left', sent', status, completed', next :=
      Act(urb, queue, left, sent, completed, pos, maxPacket, returned, len, isShort, rescan);
  }

  /** The burst itself, its statuses, and what follows from them. */
  method Act(urb: Urb, queue: seq<Request>, left: nat, sent: nat, completed: seq<Giveback>, pos: nat, maxPacket: nat,
             returned: seq<Request>, len: nat, isShort: bool, owed: bool)
    returns (urb': Urb, queue': seq<Request>, left': nat, sent': nat, status: Status, completed': seq<Giveback>,
             next: Next)
    requires urb.Ok() && QueueOk(queue) && pos < |queue| && maxPacket > 0 && QueueOk(returned)
    requires len <= left && CanMove(urb, queue[pos], len)
    requires var want := Min(urb.Remaining(), queue[pos].Remaining());
      isShort == IsShort(want, left, maxPacket) && owed == (!isShort && Min(want, left) % maxPacket != 0)
    ensures var x := Xfer(urb, queue, left, sent, InProgress, completed);
      var moved := Move(x, pos, len);
      var settled := Settled(x, moved, pos, maxPacket);
      (Xfer(urb', queue', left', sent', status, completed'), next)
        == Conclude(moved, pos, settled.0, settled.1, settled.2, returned)
  {
    ghost var x := Xfer(urb, queue, left, sent, InProgress, completed);
    var hostLen, devLen := |urb.buffer| - urb.actual, |queue[pos].buffer| - queue[pos].actual;
    urb', queue', left', sent' := MoveData(urb, queue, left, sent, pos, len, completed);
    SettledIs(x, Move(x, pos, len), pos, maxPacket, isShort, owed);
    var reqStatus, rescan;
    reqStatus, status, rescan := Settle(urb', queue'[pos], isShort, hostLen, devLen, owed);
    queue', completed', next := GiveBack(urb', queue', left', sent', completed, pos, reqStatus, status, rescan, returned);
  }

  /** The loop itself. It terminates whatever the completion handlers queue. */
  method Transfer(urb: Urb, queue: seq<Request>, limit: nat, maxPacket: nat, answers: seq<seq<Request>>)
    returns (sent: nat, urb': Urb, queue': seq<Request>, status: Status, completed: seq<Giveback>)
    requires urb.Ok() && QueueOk(queue) && maxPacket > 0 && AnswersOk(answers)
    ensures var x := Call(urb, queue, limit, maxPacket, answers);
      sent == x.sent && urb' == x.urb && queue' == x.queue && status == x.status && completed == x.completed
  {
    urb', queue', status, completed, sent := urb, queue, InProgress, [], 0;
    var left: nat := limit;
    var pos: nat := 0;
    while pos < |queue'|
      invariant urb'.Ok() && QueueOk(queue') && status == InProgress
      invariant Run(Xfer(urb', queue', left, sent, status, completed), pos, maxPacket, answers)
        == Run(Begin(urb, queue, limit), 0, maxPacket, answers)
      decreases left, |queue'| - pos
    {
      ghost var now := Xfer(urb', queue', left, sent, status, completed);
      var returned := Answer(answers, |completed|);
      TurnProgress(now, pos, maxPacket, returned);
      var next;
      urb', queue', left, sent, status, completed, next :=
        Pass(urb', queue', left, sent, completed, pos, maxPacket, returned);
      if next == Stop { return; }
      pos := if next == Rescan then 0 else pos + 1;
    }
  }
}
