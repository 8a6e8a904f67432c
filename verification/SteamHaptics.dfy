/** Steam's haptic reports: how an output report becomes a feedback event, and
    the bounded ring that keeps explicit actuator stops under back-pressure.
    `HapticRing` is the in-place ring; `Enqueued` is its effect on the contents. */
module SteamHaptics {
  import opened Ring

  datatype FeedbackType = SteamHaptic | SteamSettings | OtherFeedback

  /** A feedback event; its payload area always has its full size. */
  datatype EventRecord = Event(kind: FeedbackType, payloadSize: nat, payload: seq<uint8>)

  type Event = e: EventRecord | |e.payload| == PAYLOAD_BYTES witness Event(OtherFeedback, 0, Zeros(PAYLOAD_BYTES))

  const PAYLOAD_BYTES := 32
  const HAPTIC_PAYLOAD_SIZE := 16
  const HAPTIC_REPORT_BYTES := 12

  // ----- Stop keys --------------------------------------------------------

  /** Report family times four plus the actuator mask (1 left, 2 right, 3 both);
      zero for anything that is not an explicit stop. */
  function SteamStopKey(report: seq<uint8>, length: nat): (key: nat)
    requires |report| == HAPTIC_REPORT_BYTES
    ensures key in {0, 0x203, 0x205, 0x206, 0x207, 0x209, 0x20A, 0x20B}
  {
    if length >= 10 && report[0] == 0x80 &&
       report[4] == 0 && report[5] == 0 && report[7] == 0 && report[8] == 0 then 0x80 * 4 + 3
    else if length < 2 || report[1] > 2 then 0
    else if (length >= 8 && report[0] == 0x81 &&
             ((report[2] == 0 && report[3] == 0) || (report[6] == 0 && report[7] == 0)))
         || (length >= 4 && report[0] == 0x82 && report[2] == 0) then
      report[0] as nat * 4 + (if report[1] == 2 then 3 else report[1] as nat + 1)
    else 0
  }

  function StopKey(e: Event): (key: nat)
  {
    if e.kind != SteamHaptic || e.payloadSize != HAPTIC_PAYLOAD_SIZE then 0
    else SteamStopKey(e.payload[4..16], e.payload[0] as nat)
  }

  // ----- From an output report to an event --------------------------------

  /** Bytes on the wire of the six haptic output reports, the report id included. */
  function DeclaredSize(id: uint8): (n: nat)
    ensures n <= HAPTIC_REPORT_BYTES
  {
    if id == 0x80 || id == 0x83 then 10
    else if id == 0x81 then 8
    else if id == 0x84 then 9
    else if id == 0x82 || id == 0x85 then 4
    else 0
  }

  function Zeros(n: nat): (s: seq<uint8>)
    ensures |s| == n && forall i :: 0 <= i < n ==> s[i] == 0
  {
    seq(n, _ => 0)
  }

  function ApplyOutput(data: seq<uint8>): (r: Option<Event>)
  {
    if |data| < 2 || data[0] < 0x80 || data[0] > 0x85 || |data| < DeclaredSize(data[0]) then None
    else
      var length := DeclaredSize(data[0]);
      Some(Event(SteamHaptic, HAPTIC_PAYLOAD_SIZE,
                 [length as uint8, 0, 0, 0] + data[..length] + Zeros(28 - length)))
  }

  /** What a client reads back from a haptic event. */
  function ReportOf(e: Event): seq<uint8>
    requires e.payload[0] as nat <= 28
  {
    e.payload[4..4 + e.payload[0] as nat]
  }

  /** A report is forwarded exactly when it is a complete haptic report, and the
      client then reads it back byte for byte whatever padding followed it. */
  lemma OutputRoundTrip(data: seq<uint8>)
    ensures ApplyOutput(data).Some? <==>
      |data| >= 2 && 0x80 <= data[0] <= 0x85 && DeclaredSize(data[0]) <= |data|
    ensures ApplyOutput(data).Some? ==>
      var e := ApplyOutput(data).value;
      e.payload[0] as nat <= 28 && ReportOf(e) == data[..DeclaredSize(data[0])]
  {
    if ApplyOutput(data).Some? {
      var length := DeclaredSize(data[0]);
      var e := ApplyOutput(data).value;
      assert e.payload[4..4 + length] == data[..length];
    }
  }

  // ----- The ring's effect on its contents --------------------------------

  /** The first position whose stop key is `key`, or the length when there is none. */
  function Find(s: seq<Event>, key: nat): (i: nat)
    ensures i <= |s| && (i < |s| ==> StopKey(s[i]) == key)
    ensures forall k :: 0 <= k < i ==> StopKey(s[k]) != key
  {
    if s == [] || StopKey(s[0]) == key then 0
    else
      var rest := Find(s[1..], key);
      assert forall k :: 0 < k < rest + 1 ==> s[k] == s[1..][k - 1];
      rest + 1
  }

  /** Which event makes room: an older equivalent stop, else the oldest ordinary
      event of a full ring; the length when nothing has to, or nothing can. */
  function Victim(s: seq<Event>, e: Event, capacity: nat): (v: nat)
    ensures v <= |s|
  {
    var twin := if StopKey(e) != 0 then Find(s, StopKey(e)) else |s|;
    if twin == |s| && |s| == capacity then Find(s, 0) else twin
  }

  predicate Refuses(s: seq<Event>, e: Event, capacity: nat)
  {
    Victim(s, e, capacity) == |s| == capacity
  }

  predicate Evicts(s: seq<Event>, e: Event, capacity: nat)
  {
    Victim(s, e, capacity) < |s| && StopKey(s[Victim(s, e, capacity)]) == 0
  }

  function Enqueued(s: seq<Event>, e: Event, capacity: nat): (s': seq<Event>)
  {
    var v := Victim(s, e, capacity);
    if v < |s| then Remove(s, v) + [e]
    else if |s| == capacity then s
    else s + [e]
  }

  class HapticRing {
    const queue: array<Event>
    var head: nat
    var count: nat
    var evicted: nat

    ghost predicate Valid()
      reads this, queue
    {
      && 8 <= queue.Length <= 255
      && head < queue.Length && count <= queue.Length
      && evicted < TWO_TO_32
    }

    ghost function Contents(): (s: seq<Event>)
      reads this, queue
      requires Valid()
      ensures |s| == count
    {
      View(queue[..], head, count)
    }

    constructor (capacity: nat)
      requires 8 <= capacity <= 255
      ensures Valid() && fresh(queue) && queue.Length == capacity
      ensures Contents() == [] && evicted == 0
    {
      var blank := Event(OtherFeedback, 0, Zeros(PAYLOAD_BYTES));
      queue := new Event[capacity](_ => blank);
      head, count, evicted := 0, 0, 0;
    }

    method KeyAt(i: nat) returns (key: nat)
      requires Valid() && i < count
      ensures key == StopKey(Contents()[i])
    {
      key := StopKey(queue[(head + i) % queue.Length]);
    }

    method FindKey(key: nat) returns (at: nat)
      requires Valid()
      ensures at == Find(Contents(), key)
    {
      ghost var contents := Contents();
      at := 0;
      while at < count
        invariant at <= count
        invariant forall k :: 0 <= k < at ==> StopKey(contents[k]) != key
      {
        var here := KeyAt(at);
        if here == key {
          break;
        }
        at := at + 1;
      }
      FindUnique(contents, key, at);
    }

    method MoveForward(i: nat)
      requires Valid() && i + 1 < count
      modifies queue
      ensures Valid() && Contents() == old(Contents())[i := old(Contents())[i + 1]]
    {
      Put(queue[..], head, count, i, queue[(head + i + 1) % queue.Length]);
      ghost var slots := queue[..][(head + i) % queue.Length := queue[(head + i + 1) % queue.Length]];
      queue[(head + i) % queue.Length] := queue[(head + i + 1) % queue.Length];
      assert queue[..] == slots;
    }

    /** Closes the gap at `victim` by moving every later event one slot forward. */
    method CloseGap(victim: nat)
      requires Valid() && victim < count
      modifies this`count, queue
      ensures Valid() && count == old(count) - 1 && Contents() == Remove(old(Contents()), victim)
    {
      ghost var before := Contents();
      ClosingEnds(before, victim);
      var i := victim;
      while i + 1 < count
        invariant Valid() && victim <= i < count == |before|
        invariant Contents() == Closing(before, victim, i)
        modifies queue
      {
        MoveGap(before, victim, i);
        i := i + 1;
      }
      DropLast();
    }

    method MoveGap(ghost before: seq<Event>, ghost victim: nat, i: nat)
      requires Valid() && victim <= i && i + 1 < count == |before| && Contents() == Closing(before, victim, i)
      modifies queue
      ensures Valid() && Contents() == Closing(before, victim, i + 1)
    {
      ClosingStep(before, victim, i);
      MoveForward(i);
    }

    method DropLast()
      requires Valid() && 0 < count
      modifies this`count
      ensures Valid() && count == old(count) - 1 && Contents() == old(Contents())[..count]
    {
      Chop(queue[..], head, count);
      count := count - 1;
    }

    method ChooseVictim(e: Event) returns (victim: nat, evicts: bool)
      requires Valid()
      ensures victim == Victim(Contents(), e, queue.Length)
      ensures evicts == Evicts(Contents(), e, queue.Length)
    {
      evicts := false;
      var stop := StopKey(e);
      victim := count;
      if stop != 0 {
        victim := FindKey(stop);
      }
      if victim == count && count == queue.Length {
        victim := FindKey(0);
        evicts := victim < count;
      }
    }

    method Enqueue(e: Event) returns (accepted: bool)
      requires Valid()
      modifies this`count, this`evicted, queue
      ensures Valid() && head == old(head)
      ensures Contents() == Enqueued(old(Contents()), e, queue.Length)
      ensures accepted == !Refuses(old(Contents()), e, queue.Length)
      ensures evicted == (old(evicted) + (if Evicts(old(Contents()), e, queue.Length) then 1 else 0)) % TWO_TO_32
    {
      var victim;
      accepted, victim := Admit(e);
      if accepted {
        Replace(victim, e);
      }
    }

    /** Chooses the victim, counts an eviction, and refuses when there is no room. */
    method Admit(e: Event) returns (accepted: bool, victim: nat)
      requires Valid()
      modifies this`evicted
      ensures Valid() && Contents() == old(Contents())
      ensures accepted == !Refuses(Contents(), e, queue.Length) && victim == Victim(Contents(), e, queue.Length)
      ensures evicted == (old(evicted) + (if Evicts(Contents(), e, queue.Length) then 1 else 0)) % TWO_TO_32
    {
      var evicts;
      victim, evicts := ChooseVictim(e);
      accepted := victim < count || count < queue.Length;
      if evicts {
        CountEviction();
      }
    }

    method CountEviction()
      requires Valid()
      modifies this`evicted
      ensures Valid() && Contents() == old(Contents()) && evicted == (old(evicted) + 1) % TWO_TO_32
    {
      evicted := (evicted + 1) % TWO_TO_32;
    }

    /** Takes the victim out, when there is one, and appends the event. */
    method Replace(victim: nat, e: Event)
      requires Valid() && victim <= count && (victim == count ==> count < queue.Length)
      modifies this`count, queue
      ensures Valid()
      ensures Contents() == (if victim < old(count) then Remove(old(Contents()), victim) else old(Contents())) + [e]
    {
      if victim < count {
        CloseGap(victim);
      }
      Append(e);
    }

    method Append(e: Event)
      requires Valid() && count < queue.Length
      modifies this`count, queue
      ensures Valid() && Contents() == old(Contents()) + [e]
    {
      Push(queue[..], head, count, e);
      ghost var slots := queue[..][(head + count) % queue.Length := e];
      queue[(head + count) % queue.Length] := e;
      count := count + 1;
      assert queue[..] == slots;
    }

    /** One poll of the host removes the oldest event. */
    method Poll() returns (e: Option<Event>)
      requires Valid()
      modifies this`head, this`count
      ensures Valid()
      ensures old(Contents()) == [] ==> e == None && Contents() == []
      ensures old(Contents()) != [] ==> e == Some(old(Contents())[0]) && Contents() == old(Contents())[1..]
    {
      if count == 0 {
        return None;
      }
      Pop(queue[..], head, count);
      e := Some(queue[head]);
      head := (head + 1) % queue.Length;
      count := count - 1;
    }
  }

  lemma FindUnique(s: seq<Event>, key: nat, at: nat)
    requires at <= |s| && (at < |s| ==> StopKey(s[at]) == key)
    requires forall k :: 0 <= k < at ==> StopKey(s[k]) != key
    ensures at == Find(s, key)
  {}

  /** The ring while the gap at `victim` travels to `i`: the event at `i` appears twice. */
  function Closing(s: seq<Event>, victim: nat, i: nat): (r: seq<Event>)
    requires victim <= i < |s|
    ensures |r| == |s|
  {
    s[..victim] + s[victim + 1..i + 1] + s[i..]
  }

  lemma ClosingStep(s: seq<Event>, victim: nat, i: nat)
    requires victim <= i && i + 1 < |s|
    ensures Closing(s, victim, i)[i := Closing(s, victim, i)[i + 1]] == Closing(s, victim, i + 1)
  {}

  lemma ClosingEnds(s: seq<Event>, victim: nat)
    requires victim < |s|
    ensures Closing(s, victim, victim) == s
    ensures Closing(s, victim, |s| - 1)[..|s| - 1] == Remove(s, victim)
  {}
}
