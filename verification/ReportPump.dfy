/** The input report pump: three classes of pending report, one submission
    credit granted by VHF's readiness callback, and one buffer that VHF keeps
    until its next readiness.

    `Pump<T>` is the abstract value (sequences instead of rings), generic in what
    a report is so that whole runs can be stated over enqueue positions.
    `ReportPump` is the imperative pump, proved to refine it. */
module ReportPumps {
  import opened Ring

  const MAX_REPORT_BYTES := 64
  const TRANSITION_CAPACITY := 16
  const PRIORITY_CAPACITY := 4

  datatype Kind = Continuous | Transition | Priority | Aside

  datatype Report = Report(data: seq<uint8>, id: uint8)

  datatype Pump<T> = Pump(
    ready: bool,
    inFlight: T,
    priority: seq<T>,
    ordered: seq<T>,
    asides: seq<bool>,
    latest: Option<T>,
    dropped: nat)
  {
    predicate Bounded() {
      && |priority| <= PRIORITY_CAPACITY
      && |ordered| == |asides| <= TRANSITION_CAPACITY
      && dropped < TWO_TO_32
    }

    predicate Empty() {
      priority == [] && ordered == [] && latest == None
    }

    function SetReady(): Pump<T> {
      this.(ready := true)
    }

    /** The new pump, and whether nothing was discarded. */
    function Enqueue(x: T, kind: Kind): (r: (Pump<T>, bool))
      requires Bounded()
      ensures r.0.Bounded()
    {
      match kind
      case Priority =>
        if |priority| == PRIORITY_CAPACITY then (this, false)
        else (this.(priority := priority + [x]), true)
      case Continuous =>
        (this.(latest := Some(x)), true)
      case Aside =>
        if |ordered| == TRANSITION_CAPACITY then (this, false)
        else (this.(ordered := ordered + [x], asides := asides + [true]), true)
      case Transition =>
        if |ordered| == TRANSITION_CAPACITY then
          var lost := if asides[0] then 0 else 1;
          (this.(latest := None, ordered := ordered[1..] + [x], asides := asides[1..] + [false],
                 dropped := (dropped + lost) % TWO_TO_32), false)
        else
          (this.(latest := None, ordered := ordered + [x], asides := asides + [false]), true)
    }

    /** Hands over the next report, or nothing without credit or work. */
    function Take(): (r: (Pump<T>, Option<T>))
      requires Bounded()
      ensures r.0.Bounded()
    {
      if !ready then (this, None)
      else if priority != [] then
        (this.(ready := false, inFlight := priority[0], priority := priority[1..]), Some(priority[0]))
      else if ordered != [] then
        (this.(ready := false, inFlight := ordered[0], ordered := ordered[1..], asides := asides[1..]),
         Some(ordered[0]))
      else if latest.Some? then
        (this.(ready := false, inFlight := latest.value, latest := None), Some(latest.value))
      else (this, None)
    }
  }

  /** What the pump keeps of a caller's bytes: at most 64 of them. */
  function Store(data: seq<uint8>, id: uint8): (r: Report)
    ensures |r.data| <= MAX_REPORT_BYTES && r.data <= data
  {
    Report(if |data| > MAX_REPORT_BYTES then data[..MAX_REPORT_BYTES] else data, id)
  }

  /** The discrete part of an input state. */
  datatype Signature = Signature(buttons: nat, left: bool, right: bool)

  class ReportPump {
    var ready: bool
    var inFlight: Report
    const priority: array<Report>
    var priorityCount: nat
    const transitions: array<Report>
    const transitionAside: array<bool>
    var transitionHead: nat
    var transitionCount: nat
    var latest: Report
    var haveLatest: bool
    var dropped: nat
    var signature: Option<Signature>

    ghost predicate Valid()
      reads this
    {
      && priority.Length == PRIORITY_CAPACITY
      && transitions.Length == transitionAside.Length == TRANSITION_CAPACITY
      && priority != transitions
      && priorityCount <= PRIORITY_CAPACITY
      && transitionHead < TRANSITION_CAPACITY
      && transitionCount <= TRANSITION_CAPACITY
      && dropped < TWO_TO_32
    }

    ghost function Ordered(): (s: seq<Report>)
      reads this, transitions
      requires Valid()
      ensures |s| == transitionCount
    {
      View(transitions[..], transitionHead, transitionCount)
    }

    ghost function Asides(): (s: seq<bool>)
      reads this, transitionAside
      requires Valid()
      ensures |s| == transitionCount
    {
      View(transitionAside[..], transitionHead, transitionCount)
    }

    /** The abstract value of the rings, counters and flags. */
    ghost function Model(): (p: Pump<Report>)
      reads this, priority, transitions, transitionAside
      requires Valid()
      ensures p.Bounded()
    {
      Pump(ready, inFlight, priority[..priorityCount], Ordered(), Asides(),
           if haveLatest then Some(latest) else None, dropped)
    }

    constructor ()
      ensures Valid() && fresh(priority) && fresh(transitions) && fresh(transitionAside)
      ensures Model().Empty() && !ready && dropped == 0 && signature == None
    {
      var blank := Report([], 0);
      priority := new Report[PRIORITY_CAPACITY](_ => blank);
      transitions := new Report[TRANSITION_CAPACITY](_ => blank);
      transitionAside := new bool[TRANSITION_CAPACITY](_ => false);
      ready, inFlight, latest, haveLatest := false, blank, blank, false;
      priorityCount, transitionHead, transitionCount, dropped := 0, 0, 0, 0;
      signature := None;
    }

    method Reset()
      requires Valid()
      modifies this, transitionAside
      ensures Valid() && Model() == Pump(false, old(inFlight), [], [], [], None, 0) && signature == None
    {
      ready := false;
      priorityCount, transitionHead, transitionCount := 0, 0, 0;
      for i := 0 to transitionAside.Length
        modifies transitionAside
      {
        transitionAside[i] := false;
      }
      haveLatest, dropped := false, 0;
      signature := None;
    }

    method Classify(buttons: nat, leftTrigger: uint8, rightTrigger: uint8) returns (kind: Kind)
      requires Valid()
      modifies this`signature
      ensures Valid() && Model() == old(Model())
      ensures signature == Some(Signature(buttons, leftTrigger > 0, rightTrigger > 0))
      ensures kind == if signature == old(signature) then Continuous else Transition
    {
      var now := Some(Signature(buttons, leftTrigger > 0, rightTrigger > 0));
      kind := if signature == now then Continuous else Transition;
      signature := now;
    }

    /** An absent or empty buffer is ignored. */
    method Enqueue(data: seq<uint8>, id: uint8, kind: Kind) returns (kept: bool)
      requires Valid()
      modifies this, priority, transitions, transitionAside
      ensures Valid() && signature == old(signature)
      ensures data == [] ==> kept && Model() == old(Model())
      ensures data != [] ==> (Model(), kept) == old(Model()).Enqueue(Store(data, id), kind)
    {
      if data == [] {
        return true;
      }
      match kind {
        case Priority =>
          if priorityCount >= PRIORITY_CAPACITY {
            return false;
          }
          priority[priorityCount] := Store(data, id);
          priorityCount := priorityCount + 1;
          assert priority[..priorityCount] == old(priority[..priorityCount]) + [Store(data, id)];
          assert Ordered() == old(Ordered());
          return true;
        case Continuous =>
          latest := Store(data, id);
          haveLatest := true;
          return true;
        case Transition => kept := EnqueueOrdered(Store(data, id), false);
        case Aside => kept := EnqueueOrdered(Store(data, id), true);
      }
    }

    method EnqueueOrdered(report: Report, isAside: bool) returns (kept: bool)
      requires Valid()
      modifies this, transitions, transitionAside
      ensures Valid() && signature == old(signature)
      ensures (Model(), kept) == old(Model()).Enqueue(report, if isAside then Aside else Transition)
    {
      if !isAside {
        haveLatest := false;
      }
      if transitionCount < TRANSITION_CAPACITY {
        PushOrdered(report, isAside);
        return true;
      }
      if isAside {
        return false;
      }
      EvictOldest();
      PushOrdered(report, false);
      return false;
    }

    method EvictOldest()
      requires Valid() && transitionCount == TRANSITION_CAPACITY
      modifies this`transitionHead, this`transitionCount, this`dropped
      ensures Valid() && transitionCount == old(transitionCount) - 1
      ensures Ordered() == old(Ordered())[1..] && Asides() == old(Asides())[1..]
      ensures dropped == (old(dropped) + (if old(Asides())[0] then 0 else 1)) % TWO_TO_32
    {
      var victimWasAside := transitionAside[transitionHead];
      PopOrdered();
      if !victimWasAside {
        dropped := (dropped + 1) % TWO_TO_32;
      }
    }

    method PushOrdered(report: Report, isAside: bool)
      requires Valid() && transitionCount < TRANSITION_CAPACITY
      modifies this`transitionCount, transitions, transitionAside
      ensures Valid() && Ordered() == old(Ordered()) + [report] && Asides() == old(Asides()) + [isAside]
      ensures transitionCount == old(transitionCount) + 1
    {
      Push(transitions[..], transitionHead, transitionCount, report);
      Push(transitionAside[..], transitionHead, transitionCount, isAside);
      var tail := (transitionHead + transitionCount) % TRANSITION_CAPACITY;
      ghost var items := transitions[..][tail := report];
      ghost var asides := transitionAside[..][tail := isAside];
      transitions[tail] := report;
      transitionAside[tail] := isAside;
      transitionCount := transitionCount + 1;
      assert transitions[..] == items && transitionAside[..] == asides;
    }

    method PopOrdered()
      requires Valid() && 0 < transitionCount
      modifies this`transitionHead, this`transitionCount
      ensures Valid() && Ordered() == old(Ordered())[1..] && Asides() == old(Asides())[1..]
      ensures old(Ordered())[0] == old(transitions[transitionHead])
      ensures old(Asides())[0] == old(transitionAside[transitionHead])
      ensures transitionCount == old(transitionCount) - 1
    {
      Pop(transitions[..], transitionHead, transitionCount);
      Pop(transitionAside[..], transitionHead, transitionCount);
      transitionHead := (transitionHead + 1) % TRANSITION_CAPACITY;
      transitionCount := transitionCount - 1;
    }

    method ShiftPriority()
      requires Valid() && 0 < priorityCount
      modifies this`priorityCount, priority
      ensures Valid() && priorityCount == old(priorityCount) - 1
      ensures priority[..priorityCount] == old(priority[..priorityCount])[1..]
    {
      for i := 1 to priorityCount
        invariant forall k :: 0 <= k < i - 1 ==> priority[k] == old(priority[k + 1])
        invariant forall k :: i - 1 <= k < priorityCount ==> priority[k] == old(priority[k])
        modifies priority
      {
        priority[i - 1] := priority[i];
      }
      priorityCount := priorityCount - 1;
    }

    method SetReady()
      requires Valid()
      modifies this`ready
      ensures Valid() && Model() == old(Model()).SetReady() && signature == old(signature)
    {
      ready := true;
    }

    method Take() returns (report: Option<Report>)
      requires Valid()
      modifies this, priority
      ensures Valid() && signature == old(signature)
      ensures (Model(), report) == old(Model()).Take()
    {
      ghost var before := Model();
      if !ready {
        return None;
      }
      if priorityCount > 0 {
        inFlight := priority[0];
        ShiftPriority();
        ready := false;
        return Some(inFlight);
      }
      if transitionCount > 0 {
        inFlight := transitions[transitionHead];
        PopOrdered();
        ready := false;
        return Some(inFlight);
      }
      if haveLatest {
        inFlight := latest;
        haveLatest := false;
        ready := false;
        return Some(inFlight);
      }
      return None;
    }
  }
}
