/** What a whole isochronous URB carries: every descriptor served once and in order,
    the bytes of each packet, and the counters, whatever heads its polls find. */
module IsoUrbs {
  import opened Ring
  import opened IsoPacing

  // ----- A URB served packet by packet ------------------------------------

  predicate HeadsOk(heads: seq<Option<IsoRequest>>) {
    forall i :: 0 <= i < |heads| && heads[i].Some? ==> heads[i].value.Ok()
  }

  /** The i-th packet is served to the head its poll found. */
  predicate ServedAt(urbs: seq<IsoUrb>, heads: seq<Option<IsoRequest>>, i: nat)
    requires HeadsOk(heads)
  {
    i < |heads| && i + 1 < |urbs| ==> urbs[i].Ok() && urbs[i + 1] == ServeOne(urbs[i], heads[i])
  }

  /** The URB before its first packet served here and after each of them. */
  ghost predicate IsService(urbs: seq<IsoUrb>, heads: seq<Option<IsoRequest>>) {
    |urbs| == |heads| + 1 && urbs[0].Ok() && HeadsOk(heads) && forall i: nat :: ServedAt(urbs, heads, i)
  }

  /** What becomes of one descriptor. */
  function Served(p: Packet, head: Option<IsoRequest>): Packet
    requires head.Some? ==> head.value.Ok()
  {
    if head == None then p.(actual := 0, status := NoRequest)
    else
      var len := PacketLength(p, head.value);
      p.(actual := len, status := if len == p.length then Success else Overflow)
  }

  /** The descriptor does not name the byte `at`. */
  predicate Misses(p: Packet, at: nat) { at < p.offset || p.offset + p.length <= at }

  /** What one packet does to its URB, and what it leaves alone. */
  predicate Stepped(urb: IsoUrb, urb': IsoUrb, head: Option<IsoRequest>) {
    && urb.next < |urb.packets| && (head.Some? ==> head.value.Ok())
    && urb'.next == urb.next + 1 && |urb'.packets| == |urb.packets|
    && urb'.packets[urb.next] == Served(urb.packets[urb.next], head)
    && (forall i :: 0 <= i < |urb.packets| && i != urb.next ==> urb'.packets[i] == urb.packets[i])
    && |urb'.buffer| == |urb.buffer| && urb'.toHost == urb.toHost
    && (forall at :: 0 <= at < |urb.buffer| && (!urb.toHost || Misses(urb.packets[urb.next], at)) ==> urb'.buffer[at] == urb.buffer[at])
    && urb'.actual == urb.actual + urb'.packets[urb.next].actual
    && urb'.errors == urb.errors + (if urb'.packets[urb.next].status == Success then 0 else 1)
  }

  lemma {:induction false} OneStep(urbs: seq<IsoUrb>, heads: seq<Option<IsoRequest>>, i: nat)
    requires IsService(urbs, heads) && i < |heads|
    ensures Stepped(urbs[i], urbs[i + 1], heads[i])
  {
    assert ServedAt(urbs, heads, i);
  }

  /** Every descriptor of a URB is served once, in order and by its own packet, none
      is touched before or after its turn, and the URB completes exactly with its
      last one. */
  lemma {:induction false} DescriptorsServedInOrder(urbs: seq<IsoUrb>, heads: seq<Option<IsoRequest>>, n: nat, k: nat)
    requires IsService(urbs, heads) && n <= |heads| && k < |urbs[0].packets|
    ensures var urb, first := urbs[n], urbs[0].next;
      && urb.next == first + n <= |urb.packets| == |urbs[0].packets|
      && urb.packets[k] == (if first <= k < first + n then Served(urbs[0].packets[k], heads[k - first]) else urbs[0].packets[k])
      && (urb.next == |urb.packets| <==> n == |urbs[0].packets| - first)
  {
    if n > 0 {
      DescriptorsServedInOrder(urbs, heads, n - 1, k);
      OneStep(urbs, heads, n - 1);
    }
  }

  // ----- The bytes --------------------------------------------------------

  predicate Apart(p: Packet, q: Packet) {
    p.offset + p.length <= q.offset || q.offset + q.length <= p.offset
  }

  /** No two descriptors of the URB name the same byte. */
  predicate Disjoint(packets: seq<Packet>) {
    forall i, j :: 0 <= i < j < |packets| ==> Apart(packets[i], packets[j])
  }

  /** The stretch of the URB that the served descriptor `p` reports agrees with what
      its head gained, and nothing else of the head has changed. */
  predicate Holds(urb: IsoUrb, p: Packet, head: IsoRequest, given: IsoRequest) {
    && given.actual == head.actual + p.actual <= |given.buffer| == |head.buffer|
    && p.actual <= p.length && p.offset + p.actual <= |urb.buffer|
    && urb.buffer[p.offset..p.offset + p.actual] == given.buffer[head.actual..given.actual]
    && given.buffer[..head.actual] == head.buffer[..head.actual] && given.buffer[given.actual..] == head.buffer[given.actual..]
    && (urb.toHost ==> given.buffer == head.buffer)
  }

  lemma {:induction false} HoldsNow(urb: IsoUrb, head: IsoRequest)
    requires urb.Ok() && head.Ok()
    ensures Holds(Exchange(urb, head).0, Exchange(urb, head).0.packets[urb.next], head, Exchange(urb, head).1)
  {
    PacketIsFaithful(urb, head);
  }

  lemma {:induction false} HoldsStill(urb: IsoUrb, urb': IsoUrb, next: Option<IsoRequest>, p: Packet, head: IsoRequest, given: IsoRequest)
    requires Stepped(urb, urb', next) && Holds(urb, p, head, given) && (urb.toHost ==> Apart(p, urb.packets[urb.next]))
    ensures Holds(urb', p, head, given)
  {
    forall at | p.offset <= at < p.offset + p.actual ensures urb'.buffer[at] == urb.buffer[at] {
      assert !urb.toHost || Misses(urb.packets[urb.next], at);
    }
    assert urb'.buffer[p.offset..p.offset + p.actual] == urb.buffer[p.offset..p.offset + p.actual];
  }

  lemma {:induction false} DirectionStays(urbs: seq<IsoUrb>, heads: seq<Option<IsoRequest>>, n: nat)
    requires IsService(urbs, heads) && n <= |heads|
    ensures urbs[n].toHost == urbs[0].toHost
  {
    if n > 0 {
      DirectionStays(urbs, heads, n - 1);
      OneStep(urbs, heads, n - 1);
    }
  }

  /** What a packet moved stays where it is while later ones are served. */
  lemma {:induction false} HoldsOn(urbs: seq<IsoUrb>, heads: seq<Option<IsoRequest>>, n: nat, k: nat, head: IsoRequest, given: IsoRequest)
    requires IsService(urbs, heads) && (urbs[0].toHost ==> Disjoint(urbs[0].packets)) && k < n <= |heads|
    requires var at := urbs[0].next + k; at < |urbs[k + 1].packets| && Holds(urbs[k + 1], urbs[k + 1].packets[at], head, given)
    ensures var at := urbs[0].next + k; at < |urbs[n].packets| && Holds(urbs[n], urbs[n].packets[at], head, given)
  {
    var at, last := urbs[0].next + k, urbs[0].next + n - 1;
    DescriptorsServedInOrder(urbs, heads, n, 0);
    if k + 1 < n {
      HoldsOn(urbs, heads, n - 1, k, head, given);
      OneStep(urbs, heads, n - 1);
      DescriptorsServedInOrder(urbs, heads, n - 1, at);
      DescriptorsServedInOrder(urbs, heads, n - 1, last);
      DirectionStays(urbs, heads, n - 1);
      assert urbs[0].toHost ==> Apart(urbs[0].packets[at], urbs[0].packets[last]);
      HoldsStill(urbs[n - 1], urbs[n], heads[n - 1], urbs[n - 1].packets[at], head, given);
    }
  }

  /** Over a whole URB each descriptor's stretch ends up agreeing with its own head,
      whatever was served after it: the URB holds the head's bytes, as long as
      its descriptors are disjoint, or the head as given back holds the URB's. */
  lemma {:induction false} EachPacketHoldsItsBytes(urbs: seq<IsoUrb>, heads: seq<Option<IsoRequest>>, n: nat, k: nat)
    requires IsService(urbs, heads) && (urbs[0].toHost ==> Disjoint(urbs[0].packets)) && k < n <= |heads| && heads[k].Some?
    ensures urbs[k].Ok() && heads[k].value.Ok() && urbs[0].next + k < |urbs[n].packets|
    ensures Holds(urbs[n], urbs[n].packets[urbs[0].next + k], heads[k].value, Exchange(urbs[k], heads[k].value).1)
  {
    assert ServedAt(urbs, heads, k);
    DescriptorsServedInOrder(urbs, heads, k, 0);
    HoldsNow(urbs[k], heads[k].value);
    HoldsOn(urbs, heads, n, k, heads[k].value, Exchange(urbs[k], heads[k].value).1);
  }

  /** A byte of the URB that no served descriptor names is as it was, and so is every
      byte of a URB the host sends. */
  lemma {:induction false} OtherBytesStay(urbs: seq<IsoUrb>, heads: seq<Option<IsoRequest>>, n: nat, at: nat)
    requires IsService(urbs, heads) && n <= |heads| && at < |urbs[0].buffer|
    requires !urbs[0].toHost || forall k :: urbs[0].next <= k < urbs[0].next + n && k < |urbs[0].packets| ==> Misses(urbs[0].packets[k], at)
    ensures urbs[n].toHost == urbs[0].toHost && |urbs[n].buffer| == |urbs[0].buffer|
    ensures urbs[n].buffer[at] == urbs[0].buffer[at]
  {
    if n > 0 {
      OtherBytesStay(urbs, heads, n - 1, at);
      OneStep(urbs, heads, n - 1);
      DescriptorsServedInOrder(urbs, heads, n - 1, 0);
      DescriptorsServedInOrder(urbs, heads, n - 1, urbs[0].next + n - 1);
    }
  }

  // ----- The counters -----------------------------------------------------

  /** The bytes that `n` descriptors report, from `first` on. */
  function Moved(packets: seq<Packet>, first: nat, n: nat): nat
    requires first + n <= |packets|
  {
    if n == 0 then 0 else Moved(packets, first, n - 1) + packets[first + n - 1].actual
  }

  /** How many of them did not succeed. */
  function Failed(packets: seq<Packet>, first: nat, n: nat): nat
    requires first + n <= |packets|
  {
    if n == 0 then 0 else Failed(packets, first, n - 1) + if packets[first + n - 1].status == Success then 0 else 1
  }

  lemma {:induction false} CountsSame(packets: seq<Packet>, others: seq<Packet>, first: nat, n: nat)
    requires first + n <= |packets| && first + n <= |others|
    requires forall i :: first <= i < first + n ==> packets[i] == others[i]
    ensures Moved(packets, first, n) == Moved(others, first, n) && Failed(packets, first, n) == Failed(others, first, n)
  {
    if n > 0 { CountsSame(packets, others, first, n - 1); }
  }

  /** The URB's length grows by what its served descriptors report together, and its
      error count by the number of those that did not succeed. */
  lemma {:induction false} CountersAddUp(urbs: seq<IsoUrb>, heads: seq<Option<IsoRequest>>, n: nat)
    requires IsService(urbs, heads) && n <= |heads|
    ensures urbs[0].next + n <= |urbs[n].packets|
    ensures urbs[n].actual == urbs[0].actual + Moved(urbs[n].packets, urbs[0].next, n)
    ensures urbs[n].errors == urbs[0].errors + Failed(urbs[n].packets, urbs[0].next, n)
  {
    DescriptorsServedInOrder(urbs, heads, n, 0);
    if n > 0 {
      CountersAddUp(urbs, heads, n - 1);
      OneStep(urbs, heads, n - 1);
      DescriptorsServedInOrder(urbs, heads, n - 1, 0);
      CountsSame(urbs[n - 1].packets, urbs[n].packets, urbs[0].next, n - 1);
    }
  }
}
