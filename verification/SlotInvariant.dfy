/** What every reachable state of the slot lifecycle satisfies. */
module SlotInvariant {
  import opened Ring
  import opened SlotLifecycle

  // ----- Who holds the gate and what that means for a slot ----------------

  predicate HoldsGate(pc: Pc) {
    !(pc.Idle? || pc.CreateChecked? || pc.Callback? || pc.CallbackIn? || pc.WorkerIn? || pc.DownFlagged? || pc.StopFlagged?)
  }

  predicate IsPnp(pc: Pc) {
    || pc.DownFlagged? || pc.DownGate? || pc.DownTaken? || pc.DownDrain? || pc.DownDelete?
    || pc.StopFlagged? || pc.StopGate? || pc.StopMarked? || pc.StopDrain? || pc.StopDelete? || pc.StopReset?
    || pc.EntryGate? || pc.PrepareGate?
  }

  /** The program counter of the gate's holder; Idle when the gate is free. */
  function Holder(s: State): Pc { if s.gate.Some? then At(s, s.gate.value) else Idle }

  /** A handle the gate's holder keeps in a local variable for slot `i`. */
  function Private(pc: Pc, i: nat): Option<nat> {
    match pc
    case CreateMade(j, _, h) => if i == j then Some(h) else None
    case CreateDelete(j, _, h) => if i == j then Some(h) else None
    case DestroyWait(j, _, h) => if i == j then Some(h) else None
    case DestroyDelete(j, _, h) => if i == j then Some(h) else None
    case DownDrain(taken, _, pos) => if i in taken && pos <= i then Some(taken[i]) else None
    case DownDelete(taken, _, pos) => if i in taken && pos <= i then Some(taken[i]) else None
    case StopDrain(taken, pos) => if i in taken && pos <= i then Some(taken[i]) else None
    case StopDelete(taken, pos) => if i in taken && pos <= i then Some(taken[i]) else None
    case StopReset(taken, pos) => if i in taken && pos < i then Some(taken[i]) else None
    case _ => None
  }

  /** The one undeleted handle of slot `i`: published in the slot or kept by the holder. */
  function Held(s: State, i: nat): Option<nat>
    requires i < SLOTS
  {
    if s.slots[i].vhf.Some? then s.slots[i].vhf else Private(Holder(s), i)
  }

  /** The shape of a slot nobody is working on. */
  predicate Quiet(slot: Slot) {
    && (slot.state == Empty || slot.state == Active || slot.state == Lost)
    && (slot.vhf.Some? <==> slot.state == Active)
    && (slot.state != Active ==> slot.inFlight == 0)
  }

  predicate QuietIdle(slot: Slot) { Quiet(slot) && slot.state != Active }

  predicate Draining(slot: Slot, owner: nat) { slot.state == Stopping && slot.vhf == None && slot.owner == owner }

  /** The shape of slot `i` while the gate's holder is at `pc`. */
  predicate Shape(pc: Pc, slot: Slot, i: nat)
    requires i < SLOTS
  {
    match pc
    case CreateReserved(j, owner) =>
      if i == j then slot.state == Starting && slot.vhf == None && slot.owner == owner && slot.inFlight == 0 else Quiet(slot)
    case CreateMade(j, owner, _) =>
      if i == j then slot.state == Starting && slot.vhf == None && slot.owner == owner && slot.inFlight == 0 else Quiet(slot)
    case CreateStart(j, owner, h) =>
      if i == j then slot.state == Starting && slot.vhf == Some(h) && slot.owner == owner else Quiet(slot)
    case CreateDelete(j, owner, _) => if i == j then Draining(slot, owner) else Quiet(slot)
    case CreateRelease(j, owner) =>
      if i == j then (slot.state == Starting || slot.state == Stopping) && slot.vhf == None && slot.owner == owner && slot.inFlight == 0
      else Quiet(slot)
    case DestroyWait(j, owner, _) => if i == j then Draining(slot, owner) else Quiet(slot)
    case DestroyDelete(j, owner, _) => if i == j then Draining(slot, owner) && slot.inFlight == 0 else Quiet(slot)
    case DestroyFinish(j, owner) => if i == j then Draining(slot, owner) && slot.inFlight == 0 else Quiet(slot)
    case SubmitChecked(j) => Quiet(slot) && (i == j ==> slot.state == Active)
    case SubmitIn(j, _) => Quiet(slot) && (i == j ==> slot.state == Active)
    case DownTaken(taken, was) =>
      if i in taken then slot.state == Stopping && slot.vhf == Some(taken[i]) && Kept(slot, was[i])
      else QuietIdle(slot) && slot == was[i]
    case DownDrain(taken, was, pos) =>
      if i in taken then Draining(slot, was[i].owner) && Kept(slot, was[i]) && (i < pos ==> slot.inFlight == 0)
      else QuietIdle(slot) && slot == was[i]
    case DownDelete(taken, was, pos) =>
      if i in taken then Draining(slot, was[i].owner) && Kept(slot, was[i]) && (i <= pos ==> slot.inFlight == 0)
      else QuietIdle(slot) && slot == was[i]
    case StopMarked =>
      if slot.state == Stopping then slot.vhf.Some? else slot.state == Empty && QuietIdle(slot)
    case StopDrain(taken, pos) =>
      if i in taken && pos <= i then Draining(slot, slot.owner) else slot.state == Empty && QuietIdle(slot)
    case StopDelete(taken, pos) =>
      if i in taken && pos <= i then Draining(slot, slot.owner) && (i == pos ==> slot.inFlight == 0)
      else slot.state == Empty && QuietIdle(slot)
    case StopReset(taken, pos) =>
      if i in taken && pos <= i then Draining(slot, slot.owner) && (i == pos ==> slot.inFlight == 0)
      else slot.state == Empty && QuietIdle(slot)
    case _ => Quiet(slot)
  }

  predicate Kept(slot: Slot, was: Slot) {
    slot.owner == was.owner && slot.profile == was.profile && slot.generation == was.generation
  }

  /** Power-down took the handles of exactly the active slots. */
  predicate Takes(taken: map<nat, nat>, was: Slots) {
    && (forall i :: i in taken ==> i < SLOTS && was[i].state == Active)
    && (forall i :: 0 <= i < SLOTS && was[i].state == Active ==> i in taken)
  }

  /** Every slot a program counter names exists. */
  predicate PcOk(pc: Pc) {
    match pc
    case CreateGate(i, _, _, _) => i < SLOTS
    case CreateReserved(i, _) => i < SLOTS
    case CreateMade(i, _, _) => i < SLOTS
    case CreateStart(i, _, _) => i < SLOTS
    case CreateDelete(i, _, _) => i < SLOTS
    case CreateRelease(i, _) => i < SLOTS
    case DestroyGate(i, _) => i < SLOTS
    case DestroyWait(i, _, _) => i < SLOTS
    case DestroyDelete(i, _, _) => i < SLOTS
    case DestroyFinish(i, _) => i < SLOTS
    case SubmitGate(i, _) => i < SLOTS
    case SubmitChecked(i) => i < SLOTS
    case SubmitIn(i, _) => i < SLOTS
    case DownTaken(taken, was) => Takes(taken, was)
    case DownDrain(taken, was, pos) => pos <= SLOTS && Takes(taken, was)
    case DownDelete(taken, was, pos) => pos in taken && Takes(taken, was)
    case StopDrain(taken, pos) => pos <= SLOTS && forall i :: i in taken ==> i < SLOTS
    case StopDelete(taken, pos) => pos in taken && forall i :: i in taken ==> i < SLOTS
    case StopReset(taken, pos) => pos in taken && forall i :: i in taken ==> i < SLOTS
    case _ => true
  }

  // ----- Submissions and callbacks ----------------------------------------

  /** The handle a thread at `pc` has passed to a report submission on slot `i`. */
  function Inside(pc: Pc, i: nat): Option<nat> {
    match pc
    case SubmitIn(j, h) => if i == j then Some(h) else None
    case CallbackIn(j, _, h) => if i == j then Some(h) else None
    case WorkerIn(pending) => if i in pending then Some(pending[i]) else None
    case _ => None
  }

  predicate OnCallback(pc: Pc) { pc.Callback? || pc.CallbackIn? }

  predicate Live(s: State, h: nat) { h in s.home && h !in s.deleted }

  // ----- The invariant ----------------------------------------------------

  /** Exactly the holder is at a program counter that holds the gate, and only the
      power and plug-and-play thread runs those callbacks. */
  predicate GateOk(s: State, t: nat) {
    && (HoldsGate(At(s, t)) <==> s.gate == Some(t))
    && (IsPnp(At(s, t)) ==> t == PNP)
    && (t == PNP ==> IsPnp(At(s, t)) || At(s, t) == Idle || At(s, t) == Release)
    && PcOk(At(s, t))
  }

  predicate CallOk(s: State, t: nat) {
    OnCallback(At(s, t)) ==>
      var c := At(s, t);
      c.slot < SLOTS && c.handle in s.started && Live(s, c.handle) && s.home[c.handle] == c.slot
  }

  /** A creator past its unlocked check: unless the slot has changed hands since,
      it is still exactly as the creator saw it. */
  predicate SeenOk(s: State, t: nat) {
    At(s, t).CreateChecked? || At(s, t).CreateGate? ==>
      var c := At(s, t);
      && c.slot < SLOTS && Available(c.seen, c.owner) && c.owner != 0
      && c.seen.generation <= s.slots[c.slot].generation
      && (c.seen.generation == s.slots[c.slot].generation ==> s.slots[c.slot] == c.seen)
  }

  predicate ThreadOk(s: State, t: nat) { GateOk(s, t) && CallOk(s, t) && SeenOk(s, t) }

  /** The in-flight counter counts the users, and the slot's handle, published or
      kept, is undeleted and made for it. */
  predicate SlotOk(s: State, i: nat)
    requires i < SLOTS
  {
    && Shape(Holder(s), s.slots[i], i)
    && s.slots[i].inFlight == |s.slots[i].users|
    && (Held(s, i).Some? ==> Live(s, Held(s, i).value) && s.home[Held(s, i).value] == i)
  }

  /** A slot's users are exactly the threads inside a submission on it, they all
      hold the slot's one undeleted handle, and while the slot is being created
      they are callbacks. */
  predicate UseOk(s: State, t: nat, i: nat)
    requires i < SLOTS
  {
    && (t in s.slots[i].users <==> Inside(At(s, t), i).Some?)
    && (Inside(At(s, t), i).Some? ==> Inside(At(s, t), i) == Held(s, i))
    && (Inside(At(s, t), i).Some? && Creating(Holder(s), i) ==> At(s, t).CallbackIn?)
  }

  predicate Creating(pc: Pc, i: nat) { (pc.CreateStart? || pc.CreateDelete?) && pc.slot == i }

  /** Every undeleted handle is the one its slot holds. */
  predicate HandleOk(s: State, h: nat) {
    && (h in s.deleted ==> h in s.home)
    && (Live(s, h) ==> s.home[h] < SLOTS && Held(s, s.home[h]) == Some(h))
  }

  /** Without power, or while stopping, nothing starts or stays active, except until
      the callback that said so has marked the slots. */
  ghost predicate PowerOk(s: State) {
    !s.powered || s.stopping ==>
      || At(s, PNP).DownFlagged? || At(s, PNP).DownGate? || At(s, PNP).StopFlagged? || At(s, PNP).StopGate?
      || forall i :: 0 <= i < SLOTS ==> Still(s.slots[i])
  }

  predicate Still(slot: Slot) { slot.state != Starting && slot.state != Active }

  ghost predicate Inv(s: State) {
    && (forall t: nat :: ThreadOk(s, t))
    && (forall i: nat :: i < SLOTS ==> SlotOk(s, i))
    && (forall t: nat, i: nat :: i < SLOTS ==> UseOk(s, t, i))
    && (forall h: nat :: HandleOk(s, h))
    && PowerOk(s)
  }

  // ----- What every step keeps --------------------------------------------

  /** A slot changes hands only when no submission on it is in flight and its
      handle, if it had one, is deleted. */
  predicate Turnover(s: State, s': State, i: nat)
    requires i < SLOTS
  {
    || s'.slots[i].generation == s.slots[i].generation
    || (s'.slots[i].generation == s.slots[i].generation + 1
        && s.slots[i].inFlight == 0 && s'.slots[i].inFlight == 0 && Held(s, i) == None)
  }

  /** Nothing starts without power or while stopping. */
  predicate Wakes(s: State, s': State, i: nat)
    requires i < SLOTS
  {
    Still(s.slots[i]) && !Still(s'.slots[i]) ==> s.powered && !s.stopping
  }

  predicate InPowerDown(pc: Pc) { pc.DownTaken? || pc.DownDrain? || pc.DownDelete? }

  /** One power-down works on the slots it marked from beginning to end. */
  predicate SameWork(pc: Pc, pc': Pc) {
    InPowerDown(pc) && InPowerDown(pc') ==> pc'.was == pc.was
  }

  ghost predicate Orderly(s: State, s': State) {
    && s.deleted <= s'.deleted
    && SameWork(At(s, PNP), At(s', PNP))
    && forall i: nat :: i < SLOTS ==> Turnover(s, s', i) && Wakes(s, s', i)
  }

  lemma {:induction false} InitInv(s: State)
    requires Init(s)
    ensures Inv(s)
  {
    forall t: nat ensures ThreadOk(s, t) {}
  }

  // ----- What a step leaves alone -----------------------------------------

  ghost predicate OthersStay(s: State, s': State, t: nat) {
    forall u: nat :: u != t ==> At(s', u) == At(s, u) && (s'.gate == Some(u) <==> s.gate == Some(u))
  }

  /** A slot of an old generation changes only where no creator can have seen it. */
  predicate Fresh(slot: Slot, slot': Slot) {
    slot' == slot || slot'.generation != slot.generation || (slot.state != Empty && slot.state != Lost)
  }

  /** What a step of thread `t` has to keep about slot `i`. */
  ghost predicate Calm(s: State, s': State, t: nat, i: nat)
    requires i < SLOTS
  {
    && SlotOk(s', i) && UseOk(s', t, i)
    && (forall u: nat :: u != t ==> (u in s'.slots[i].users <==> u in s.slots[i].users))
    && (s.slots[i].users <= {t} || (Held(s', i) == Held(s, i) && (Creating(Holder(s'), i) ==> Creating(Holder(s), i))))
    && Fresh(s.slots[i], s'.slots[i]) && Turnover(s, s', i) && Wakes(s, s', i)
  }

  lemma {:induction false} Frame(s: State, s': State, t: nat)
    requires Inv(s) && OthersStay(s, s', t)
    requires ThreadOk(s', t) && PowerOk(s') && SameWork(At(s, t), At(s', t))
    requires forall u: nat :: CallOk(s', u)
    requires s.deleted <= s'.deleted
    requires forall i: nat :: i < SLOTS ==> Calm(s, s', t, i)
    requires forall h: nat :: HandleOk(s', h)
    ensures Inv(s') && Orderly(s, s')
  {
    forall u: nat ensures ThreadOk(s', u) {
      if u != t {
        assert ThreadOk(s, u) && CallOk(s', u) && At(s', u) == At(s, u);
        var c := At(s, u);
        if (c.CreateChecked? || c.CreateGate?) && c.slot < SLOTS { assert Calm(s, s', t, c.slot); }
      }
    }
    forall i: nat | i < SLOTS ensures SlotOk(s', i) && Turnover(s, s', i) && Wakes(s, s', i) { assert Calm(s, s', t, i); }
    forall u: nat, i: nat | i < SLOTS ensures UseOk(s', u, i) {
      assert Calm(s, s', t, i) && UseOk(s, u, i);
      if u != t { assert At(s', u) == At(s, u); }
    }
  }

  /** The usual case: no handle is made or deleted. */
  lemma {:induction false} FrameHandles(s: State, s': State, t: nat)
    requires Inv(s) && OthersStay(s, s', t)
    requires s'.home == s.home && s'.deleted == s.deleted && s.started <= s'.started
    requires ThreadOk(s', t) && PowerOk(s') && SameWork(At(s, t), At(s', t))
    requires forall i: nat :: i < SLOTS ==> Calm(s, s', t, i) && Held(s', i) == Held(s, i)
    ensures Inv(s') && Orderly(s, s')
  {
    forall u: nat ensures CallOk(s', u) {
      if u != t { assert ThreadOk(s, u) && At(s', u) == At(s, u); }
    }
    forall h: nat ensures HandleOk(s', h) {
      assert HandleOk(s, h);
      if Live(s, h) { assert Calm(s, s', t, s.home[h]); }
    }
    Frame(s, s', t);
  }

  /** A program counter that works on slot `i` alone. */
  predicate About(pc: Pc, i: nat) {
    || pc.Release?
    || ((pc.CreateGate? || pc.CreateReserved? || pc.CreateMade? || pc.CreateStart? || pc.CreateDelete? || pc.CreateRelease?
      || pc.DestroyGate? || pc.DestroyWait? || pc.DestroyDelete? || pc.DestroyFinish?
      || pc.SubmitGate? || pc.SubmitChecked? || pc.SubmitIn?) && pc.slot == i)
  }

  lemma {:induction false} AboutOne(pc: Pc, i: nat, slot: Slot, j: nat)
    requires About(pc, i) && j < SLOTS && j != i
    ensures Shape(pc, slot, j) <==> Quiet(slot)
    ensures Private(pc, j) == None && Inside(pc, j) == None && !Creating(pc, j)
  {}

  /** The gate's holder works on one slot. */
  predicate Works(s: State, s': State, t: nat, i: nat)
    requires i < SLOTS
  {
    && s.gate == Some(t) && s'.gate == s.gate && s'.threads == s.threads[t := At(s', t)]
    && s'.slots == s.slots[i := s'.slots[i]]
    && s'.home == s.home && s'.deleted == s.deleted && s.started <= s'.started
    && About(At(s, t), i) && About(At(s', t), i) && ThreadOk(s', t)
    && s'.powered == s.powered && s'.stopping == s.stopping
    && ((s.powered && !s.stopping) || Still(s'.slots[i]) || !Still(s.slots[i]))
  }

  lemma {:induction false} PowerKept(s: State, s': State, t: nat, i: nat)
    requires i < SLOTS && PowerOk(s) && Works(s, s', t, i)
    ensures PowerOk(s')
  {
    assert At(s', PNP) == At(s, PNP) || t == PNP;
    if !(s.powered && !s.stopping) && forall j :: 0 <= j < SLOTS ==> Still(s.slots[j]) {
      forall j | 0 <= j < SLOTS ensures Still(s'.slots[j]) { assert Still(s.slots[j]); }
    }
  }

  lemma {:induction false} OneSlot(s: State, s': State, t: nat, i: nat)
    requires Inv(s) && i < SLOTS && Works(s, s', t, i) && Calm(s, s', t, i) && Held(s', i) == Held(s, i)
    ensures Inv(s') && Orderly(s, s')
  {
    PowerKept(s, s', t, i);
    forall j: nat | j < SLOTS ensures Calm(s, s', t, j) && Held(s', j) == Held(s, j) {
      assert SlotOk(s, j) && UseOk(s, t, j);
      if j != i {
        AboutOne(At(s, t), i, s.slots[j], j);
        AboutOne(At(s', t), i, s.slots[j], j);
      }
    }
    FrameHandles(s, s', t);
  }

  /** The gate's holder returns from VhfDelete on the handle it kept for slot `j`. */
  lemma {:induction false} DeleteFrame(s: State, s': State, t: nat, j: nat, h: nat)
    requires Inv(s) && OthersStay(s, s', t) && j < SLOTS
    requires s'.slots == s.slots && s'.home == s.home && s'.started == s.started && s'.deleted == s.deleted + {h}
    requires Held(s, j) == Some(h) && s.slots[j].users == {} && NoCallbacks(s, h)
    requires ThreadOk(s', t) && !OnCallback(At(s', t)) && PowerOk(s') && SameWork(At(s, t), At(s', t))
    requires forall i: nat :: i < SLOTS ==> Shape(Holder(s'), s.slots[i], i) && UseOk(s', t, i) && !Creating(Holder(s'), i)
    requires forall i: nat :: i < SLOTS ==> Held(s', i) == if i == j then None else Held(s, i)
    ensures Inv(s') && Orderly(s, s')
  {
    forall u: nat ensures CallOk(s', u) {
      assert ThreadOk(s, u);
      if u != t { assert At(s', u) == At(s, u); }
    }
    forall k: nat ensures HandleOk(s', k) { assert HandleOk(s, k) && SlotOk(s, j); }
    forall i: nat | i < SLOTS ensures Calm(s, s', t, i) {
      assert SlotOk(s, i) && SlotOk(s, j);
    }
    Frame(s, s', t);
  }
}
