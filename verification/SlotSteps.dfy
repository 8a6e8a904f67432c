/** Every step of the slot lifecycle keeps the invariant. */
module SlotSteps {
  import opened Ring
  import opened SlotLifecycle
  import opened SlotInvariant

  lemma {:induction false} CreateMakeCalm(s: State, s': State, t: nat, h: nat, i: nat)
    requires CreateMake(s, s', t, h) && i < SLOTS
    requires ThreadOk(s, t) && SlotOk(s, i) && UseOk(s, t, i) && HandleOk(s, h)
    ensures Calm(s, s', t, i)
    ensures Held(s', i) == if i == At(s, t).slot then Some(h) else Held(s, i)
    ensures i == At(s, t).slot ==> Held(s, i) == None
  {
    if i == At(s, t).slot { assert s.slots[i].users == {}; }
  }

  // ----- Steps that move a thread and nothing else ------------------------

  /** A program counter under which every slot is quiet. */
  predicate Plain(pc: Pc) {
    || pc.Idle? || pc.Release? || pc.CreateGate? || pc.DestroyGate? || pc.SubmitGate?
    || pc.DownGate? || pc.StopGate? || pc.EntryGate? || pc.PrepareGate?
  }

  lemma {:induction false} PlainIsQuiet(pc: Pc, slot: Slot, i: nat)
    requires i < SLOTS && Plain(pc)
    ensures Shape(pc, slot, i) <==> Quiet(slot)
    ensures Private(pc, i) == None && !Creating(pc, i)
  {}

  /** A thread outside every submission moves; the holder, if it changes, goes from
      one plain program counter to another. */
  lemma {:induction false} Moves(s: State, s': State, t: nat)
    requires Inv(s) && OthersStay(s, s', t) && ThreadOk(s', t) && PowerOk(s') && SameWork(At(s, t), At(s', t))
    requires s'.slots == s.slots && s'.home == s.home && s'.deleted == s.deleted && s'.started == s.started
    requires Holder(s') == Holder(s) || (Plain(Holder(s)) && Plain(Holder(s')))
    requires forall i: nat :: Inside(At(s, t), i) == None && Inside(At(s', t), i) == None
    ensures Inv(s') && Orderly(s, s')
  {
    forall i: nat | i < SLOTS ensures Calm(s, s', t, i) && Held(s', i) == Held(s, i) {
      assert SlotOk(s, i) && UseOk(s, t, i) && Inside(At(s', t), i) == None;
      if Holder(s') != Holder(s) {
        PlainIsQuiet(Holder(s), s.slots[i], i);
        PlainIsQuiet(Holder(s'), s.slots[i], i);
      }
    }
    FrameHandles(s, s', t);
  }

  // ----- Submissions ------------------------------------------------------

  /** Thread `t` moves elsewhere and nobody touches slot `i` or the holder. */
  lemma {:induction false} Elsewhere(s: State, s': State, t: nat, i: nat)
    requires i < SLOTS && SlotOk(s, i) && UseOk(s, t, i) && Holder(s') == Holder(s)
    requires s'.slots[i] == s.slots[i] && s'.home == s.home && s'.deleted == s.deleted
    requires Inside(At(s', t), i) == Inside(At(s, t), i) && (At(s, t).CallbackIn? ==> At(s', t).CallbackIn? || Inside(At(s, t), i) == None)
    ensures Calm(s, s', t, i) && Held(s', i) == Held(s, i)
  {}

  lemma {:induction false} ShapeEnter(pc: Pc, slot: Slot, i: nat, t: nat)
    requires i < SLOTS && Shape(pc, slot, i) && slot.vhf.Some? && (slot.state == Starting || slot.state == Active)
    ensures Shape(pc, Enter(slot, t), i)
  {}

  /** Thread `t` enters a submission on slot `i` with its published handle. */
  lemma {:induction false} Entering(s: State, s': State, t: nat, i: nat)
    requires i < SLOTS && SlotOk(s, i) && UseOk(s, t, i) && Holder(s') == Holder(s)
    requires s'.slots[i] == Enter(s.slots[i], t) && s'.home == s.home && s'.deleted == s.deleted
    requires s.slots[i].vhf.Some? && (s.slots[i].state == Starting || s.slots[i].state == Active)
    requires Inside(At(s, t), i) == None && Inside(At(s', t), i) == s.slots[i].vhf
    requires At(s', t).CallbackIn? || !Creating(Holder(s), i)
    ensures Calm(s, s', t, i) && Held(s', i) == Held(s, i)
  {
    ShapeEnter(Holder(s), s.slots[i], i, t);
  }

  lemma {:induction false} ShapeLeave(pc: Pc, slot: Slot, i: nat, t: nat)
    requires i < SLOTS && Shape(pc, slot, i) && slot.inFlight > 0
    ensures Shape(pc, Leave(slot, t), i) && slot.state != Empty && slot.state != Lost
  {}

  /** Thread `t` leaves a submission on slot `i`. */
  lemma {:induction false} Leaving(s: State, s': State, t: nat, i: nat)
    requires i < SLOTS && SlotOk(s, i) && UseOk(s, t, i) && Holder(s') == Holder(s)
    requires s'.slots[i] == Leave(s.slots[i], t) && s'.home == s.home && s'.deleted == s.deleted
    requires Inside(At(s, t), i).Some? && Inside(At(s', t), i) == None
    ensures Calm(s, s', t, i) && Held(s', i) == Held(s, i)
  {
    assert t in s.slots[i].users;
    ShapeLeave(Holder(s), s.slots[i], i, t);
  }

  // ----- Taking handles out of their slots --------------------------------

  lemma {:induction false} DownNullTaken(s: State, s': State, taken: map<nat, nat>, was: Slots, i: nat)
    requires i < SLOTS && SlotOk(s, i) && UseOk(s, PNP, i) && s.gate == Some(PNP) && s'.gate == s.gate
    requires At(s, PNP) == DownTaken(taken, was) && At(s', PNP) == DownDrain(taken, was, 0) && i in taken
    requires s'.slots[i] == s.slots[i].(vhf := None) && s'.home == s.home && s'.deleted == s.deleted
    ensures Calm(s, s', PNP, i) && Held(s', i) == Held(s, i)
  {}

  lemma {:induction false} StopNullTaken(s: State, s': State, taken: map<nat, nat>, i: nat)
    requires i < SLOTS && SlotOk(s, i) && UseOk(s, PNP, i) && s.gate == Some(PNP) && s'.gate == s.gate
    requires At(s, PNP) == StopMarked && At(s', PNP) == StopDrain(taken, 0) && i in taken && s.slots[i].vhf == Some(taken[i])
    requires s.slots[i].state == Stopping
    requires s'.slots[i] == s.slots[i].(vhf := None) && s'.home == s.home && s'.deleted == s.deleted
    ensures Calm(s, s', PNP, i) && Held(s', i) == Held(s, i)
  {}

  lemma {:induction false} StopNullRest(s: State, s': State, taken: map<nat, nat>, i: nat)
    requires i < SLOTS && SlotOk(s, i) && UseOk(s, PNP, i) && s.gate == Some(PNP) && s'.gate == s.gate
    requires At(s, PNP) == StopMarked && At(s', PNP) == StopDrain(taken, 0) && i !in taken && s.slots[i].state != Stopping
    requires s'.slots[i] == s.slots[i] && s'.home == s.home && s'.deleted == s.deleted
    ensures Calm(s, s', PNP, i) && Held(s', i) == Held(s, i)
  {}

  /** Nobody is inside a submission on a slot whose callbacks have all returned
      before its creation was adopted. */
  lemma {:induction false} NoUsersLeft(s: State, t: nat)
    requires Inv(s) && s.gate == Some(t) && At(s, t).CreateDelete? && NoCallbacks(s, At(s, t).handle)
    ensures At(s, t).slot < SLOTS && s.slots[At(s, t).slot].users == {}
  {
    assert ThreadOk(s, t);
    var c := At(s, t);
    assert SlotOk(s, c.slot);
    forall u: nat ensures u !in s.slots[c.slot].users {
      assert UseOk(s, u, c.slot) && ThreadOk(s, u);
      assert HandleOk(s, if OnCallback(At(s, u)) then At(s, u).handle else 0);
    }
  }

  lemma {:induction false} CreateCheckInv(s: State, s': State, t: nat, i: nat, owner: nat, profile: nat)
    requires Inv(s) && CreateCheck(s, s', t, i, owner, profile)
    ensures Inv(s') && Orderly(s, s')
  {
    assert ThreadOk(s, t);
    Moves(s, s', t);
  }

  lemma {:induction false} CreateLockInv(s: State, s': State, t: nat)
    requires Inv(s) && CreateLock(s, s', t)
    ensures Inv(s') && Orderly(s, s')
  {
    assert ThreadOk(s, t);
    Moves(s, s', t);
  }

  lemma {:induction false} CreateReserveWorks(s: State, s': State, t: nat, childPresent: bool, i: nat)
    requires CreateReserve(s, s', t, childPresent) && i < SLOTS && i == At(s, t).slot
    requires ThreadOk(s, t) && SlotOk(s, i)
    ensures Works(s, s', t, i) && Held(s', i) == Held(s, i)
  {}

  lemma {:induction false} CreateReserveCalm(s: State, s': State, t: nat, childPresent: bool, i: nat)
    requires CreateReserve(s, s', t, childPresent) && i < SLOTS && i == At(s, t).slot
    requires ThreadOk(s, t) && SlotOk(s, i) && UseOk(s, t, i)
    ensures Calm(s, s', t, i) && Held(s', i) == Held(s, i)
  {}

  lemma {:induction false} CreateReserveInv(s: State, s': State, t: nat, childPresent: bool)
    requires Inv(s) && CreateReserve(s, s', t, childPresent)
    ensures Inv(s') && Orderly(s, s')
  {
    assert ThreadOk(s, t);
    var i := At(s, t).slot;
    assert SlotOk(s, i) && UseOk(s, t, i);
    CreateReserveWorks(s, s', t, childPresent, i);
    CreateReserveCalm(s, s', t, childPresent, i);
    OneSlot(s, s', t, i);
  }

  lemma {:induction false} CreateFailCalm(s: State, s': State, t: nat, i: nat)
    requires CreateFail(s, s', t) && i < SLOTS && i == At(s, t).slot
    requires ThreadOk(s, t) && SlotOk(s, i) && UseOk(s, t, i)
    ensures Works(s, s', t, i) && Calm(s, s', t, i) && Held(s', i) == Held(s, i)
  {}

  lemma {:induction false} CreateFailInv(s: State, s': State, t: nat)
    requires Inv(s) && CreateFail(s, s', t)
    ensures Inv(s') && Orderly(s, s')
  {
    assert ThreadOk(s, t);
    var i := At(s, t).slot;
    assert SlotOk(s, i) && UseOk(s, t, i);
    CreateFailCalm(s, s', t, i);
    OneSlot(s, s', t, i);
  }

  lemma {:induction false} CreateMakeInv(s: State, s': State, t: nat, h: nat)
    requires Inv(s) && CreateMake(s, s', t, h)
    ensures Inv(s') && Orderly(s, s')
  {
    assert ThreadOk(s, t);
    forall i: nat | i < SLOTS
      ensures Calm(s, s', t, i)
      ensures Held(s', i) == if i == At(s, t).slot then Some(h) else Held(s, i)
      ensures i == At(s, t).slot ==> Held(s, i) == None
    {
      assert SlotOk(s, i) && UseOk(s, t, i) && HandleOk(s, h);
      CreateMakeCalm(s, s', t, h, i);
    }
    forall u: nat ensures CallOk(s', u) { assert ThreadOk(s, u); }
    forall k: nat ensures HandleOk(s', k) { assert HandleOk(s, k); }
    Frame(s, s', t);
  }

  lemma {:induction false} CreatePublishCalm(s: State, s': State, t: nat, i: nat)
    requires CreatePublish(s, s', t) && i < SLOTS && i == At(s, t).slot
    requires ThreadOk(s, t) && SlotOk(s, i) && UseOk(s, t, i)
    ensures Works(s, s', t, i) && Calm(s, s', t, i) && Held(s', i) == Held(s, i)
  {}

  lemma {:induction false} CreatePublishInv(s: State, s': State, t: nat)
    requires Inv(s) && CreatePublish(s, s', t)
    ensures Inv(s') && Orderly(s, s')
  {
    assert ThreadOk(s, t);
    var i := At(s, t).slot;
    assert SlotOk(s, i) && UseOk(s, t, i);
    CreatePublishCalm(s, s', t, i);
    OneSlot(s, s', t, i);
  }

  lemma {:induction false} CreateAdoptWorks(s: State, s': State, t: nat, startSucceeded: bool, i: nat)
    requires CreateAdopt(s, s', t, startSucceeded) && i < SLOTS && i == At(s, t).slot
    requires ThreadOk(s, t) && SlotOk(s, i)
    ensures Works(s, s', t, i) && Held(s', i) == Held(s, i)
  {}

  lemma {:induction false} CreateAdoptCalm(s: State, s': State, t: nat, startSucceeded: bool, i: nat)
    requires CreateAdopt(s, s', t, startSucceeded) && i < SLOTS && i == At(s, t).slot
    requires ThreadOk(s, t) && SlotOk(s, i) && UseOk(s, t, i)
    ensures Calm(s, s', t, i) && Held(s', i) == Held(s, i)
  {}

  lemma {:induction false} CreateAdoptInv(s: State, s': State, t: nat, startSucceeded: bool)
    requires Inv(s) && CreateAdopt(s, s', t, startSucceeded)
    ensures Inv(s') && Orderly(s, s')
  {
    assert ThreadOk(s, t);
    var i := At(s, t).slot;
    assert SlotOk(s, i) && UseOk(s, t, i);
    CreateAdoptWorks(s, s', t, startSucceeded, i);
    CreateAdoptCalm(s, s', t, startSucceeded, i);
    OneSlot(s, s', t, i);
  }

  lemma {:induction false} CreateDeletedInv(s: State, s': State, t: nat)
    requires Inv(s) && CreateDeleted(s, s', t)
    ensures Inv(s') && Orderly(s, s')
  {
    assert ThreadOk(s, t);
    var j := At(s, t).slot;
    assert SlotOk(s, j);
    NoUsersLeft(s, t);
    forall i: nat | i < SLOTS ensures Shape(Holder(s'), s.slots[i], i) && UseOk(s', t, i) && Held(s', i) == (if i == j then None else Held(s, i)) {
      assert SlotOk(s, i) && UseOk(s, t, i);
    }
    DeleteFrame(s, s', t, j, At(s, t).handle);
  }

  lemma {:induction false} CreateResetCalm(s: State, s': State, t: nat, i: nat)
    requires CreateReset(s, s', t) && i < SLOTS && i == At(s, t).slot
    requires ThreadOk(s, t) && SlotOk(s, i) && UseOk(s, t, i)
    ensures Works(s, s', t, i) && Calm(s, s', t, i) && Held(s', i) == Held(s, i)
  {}

  lemma {:induction false} CreateResetInv(s: State, s': State, t: nat)
    requires Inv(s) && CreateReset(s, s', t)
    ensures Inv(s') && Orderly(s, s')
  {
    assert ThreadOk(s, t);
    var i := At(s, t).slot;
    assert SlotOk(s, i) && UseOk(s, t, i);
    CreateResetCalm(s, s', t, i);
    OneSlot(s, s', t, i);
  }

  lemma {:induction false} UnlockInv(s: State, s': State, t: nat)
    requires Inv(s) && Unlock(s, s', t)
    ensures Inv(s') && Orderly(s, s')
  {
    assert ThreadOk(s, t);
    Moves(s, s', t);
  }

  lemma {:induction false} DestroyLockInv(s: State, s': State, t: nat, i: nat, owner: nat)
    requires Inv(s) && DestroyLock(s, s', t, i, owner)
    ensures Inv(s') && Orderly(s, s')
  {
    assert ThreadOk(s, t);
    Moves(s, s', t);
  }

  lemma {:induction false} DestroyMarkWorks(s: State, s': State, t: nat, i: nat)
    requires DestroyMark(s, s', t) && i < SLOTS && i == At(s, t).slot
    requires ThreadOk(s, t) && SlotOk(s, i)
    ensures Works(s, s', t, i) && Held(s', i) == Held(s, i)
  {}

  lemma {:induction false} DestroyMarkCalm(s: State, s': State, t: nat, i: nat)
    requires DestroyMark(s, s', t) && i < SLOTS && i == At(s, t).slot
    requires ThreadOk(s, t) && SlotOk(s, i) && UseOk(s, t, i)
    ensures Calm(s, s', t, i) && Held(s', i) == Held(s, i)
  {}

  lemma {:induction false} DestroyMarkInv(s: State, s': State, t: nat)
    requires Inv(s) && DestroyMark(s, s', t)
    ensures Inv(s') && Orderly(s, s')
  {
    assert ThreadOk(s, t);
    var i := At(s, t).slot;
    assert SlotOk(s, i) && UseOk(s, t, i);
    DestroyMarkWorks(s, s', t, i);
    DestroyMarkCalm(s, s', t, i);
    OneSlot(s, s', t, i);
  }

  lemma {:induction false} DestroyDrainedCalm(s: State, s': State, t: nat, i: nat)
    requires DestroyDrained(s, s', t) && i < SLOTS && i == At(s, t).slot
    requires ThreadOk(s, t) && SlotOk(s, i) && UseOk(s, t, i)
    ensures Works(s, s', t, i) && Calm(s, s', t, i) && Held(s', i) == Held(s, i)
  {}

  lemma {:induction false} DestroyDrainedInv(s: State, s': State, t: nat)
    requires Inv(s) && DestroyDrained(s, s', t)
    ensures Inv(s') && Orderly(s, s')
  {
    assert ThreadOk(s, t);
    var i := At(s, t).slot;
    assert SlotOk(s, i) && UseOk(s, t, i);
    DestroyDrainedCalm(s, s', t, i);
    OneSlot(s, s', t, i);
  }

  lemma {:induction false} DestroyDeletedInv(s: State, s': State, t: nat)
    requires Inv(s) && DestroyDeleted(s, s', t)
    ensures Inv(s') && Orderly(s, s')
  {
    assert ThreadOk(s, t);
    var j := At(s, t).slot;
    assert SlotOk(s, j);
    forall i: nat | i < SLOTS ensures Shape(Holder(s'), s.slots[i], i) && UseOk(s', t, i) && Held(s', i) == (if i == j then None else Held(s, i)) {
      assert SlotOk(s, i) && UseOk(s, t, i);
    }
    DeleteFrame(s, s', t, j, At(s, t).handle);
  }

  lemma {:induction false} DestroyResetCalm(s: State, s': State, t: nat, i: nat)
    requires DestroyReset(s, s', t) && i < SLOTS && i == At(s, t).slot
    requires ThreadOk(s, t) && SlotOk(s, i) && UseOk(s, t, i)
    ensures Works(s, s', t, i) && Calm(s, s', t, i) && Held(s', i) == Held(s, i)
  {}

  lemma {:induction false} DestroyResetInv(s: State, s': State, t: nat)
    requires Inv(s) && DestroyReset(s, s', t)
    ensures Inv(s') && Orderly(s, s')
  {
    assert ThreadOk(s, t);
    var i := At(s, t).slot;
    assert SlotOk(s, i) && UseOk(s, t, i);
    DestroyResetCalm(s, s', t, i);
    OneSlot(s, s', t, i);
  }

  lemma {:induction false} SubmitLockInv(s: State, s': State, t: nat, i: nat, owner: nat)
    requires Inv(s) && SubmitLock(s, s', t, i, owner)
    ensures Inv(s') && Orderly(s, s')
  {
    assert ThreadOk(s, t);
    Moves(s, s', t);
  }

  lemma {:induction false} SubmitCheckWorks(s: State, s': State, t: nat, i: nat)
    requires SubmitCheck(s, s', t) && i < SLOTS && i == At(s, t).slot
    requires ThreadOk(s, t) && SlotOk(s, i)
    ensures Works(s, s', t, i) && Held(s', i) == Held(s, i)
  {}

  lemma {:induction false} SubmitCheckCalm(s: State, s': State, t: nat, i: nat)
    requires SubmitCheck(s, s', t) && i < SLOTS && i == At(s, t).slot
    requires ThreadOk(s, t) && SlotOk(s, i) && UseOk(s, t, i)
    ensures Calm(s, s', t, i) && Held(s', i) == Held(s, i)
  {}

  lemma {:induction false} SubmitCheckInv(s: State, s': State, t: nat)
    requires Inv(s) && SubmitCheck(s, s', t)
    ensures Inv(s') && Orderly(s, s')
  {
    assert ThreadOk(s, t);
    var i := At(s, t).slot;
    assert SlotOk(s, i) && UseOk(s, t, i);
    SubmitCheckWorks(s, s', t, i);
    SubmitCheckCalm(s, s', t, i);
    OneSlot(s, s', t, i);
  }

  lemma {:induction false} SubmitTakeWorks(s: State, s': State, t: nat, taken: bool, i: nat)
    requires SubmitTake(s, s', t, taken) && i < SLOTS && i == At(s, t).slot
    requires ThreadOk(s, t) && SlotOk(s, i)
    ensures Works(s, s', t, i) && Held(s', i) == Held(s, i)
  {}

  lemma {:induction false} SubmitTakeCalm(s: State, s': State, t: nat, taken: bool, i: nat)
    requires SubmitTake(s, s', t, taken) && i < SLOTS && i == At(s, t).slot
    requires ThreadOk(s, t) && SlotOk(s, i) && UseOk(s, t, i)
    ensures Calm(s, s', t, i) && Held(s', i) == Held(s, i)
  {}

  lemma {:induction false} SubmitTakeInv(s: State, s': State, t: nat, taken: bool)
    requires Inv(s) && SubmitTake(s, s', t, taken)
    ensures Inv(s') && Orderly(s, s')
  {
    assert ThreadOk(s, t);
    var i := At(s, t).slot;
    assert SlotOk(s, i) && UseOk(s, t, i);
    SubmitTakeWorks(s, s', t, taken, i);
    SubmitTakeCalm(s, s', t, taken, i);
    OneSlot(s, s', t, i);
  }

  lemma {:induction false} SubmitDoneCalm(s: State, s': State, t: nat, i: nat)
    requires SubmitDone(s, s', t) && i < SLOTS && i == At(s, t).slot
    requires ThreadOk(s, t) && SlotOk(s, i) && UseOk(s, t, i)
    ensures Works(s, s', t, i) && Calm(s, s', t, i) && Held(s', i) == Held(s, i)
  {}

  lemma {:induction false} SubmitDoneInv(s: State, s': State, t: nat)
    requires Inv(s) && SubmitDone(s, s', t)
    ensures Inv(s') && Orderly(s, s')
  {
    assert ThreadOk(s, t);
    var i := At(s, t).slot;
    assert SlotOk(s, i) && UseOk(s, t, i);
    SubmitDoneCalm(s, s', t, i);
    OneSlot(s, s', t, i);
  }

  lemma {:induction false} CallbackEnterInv(s: State, s': State, t: nat, h: nat)
    requires Inv(s) && CallbackEnter(s, s', t, h)
    ensures Inv(s') && Orderly(s, s')
  {
    assert ThreadOk(s, t) && HandleOk(s, h);
    Moves(s, s', t);
  }

  lemma {:induction false} CallbackTakeCalm(s: State, s': State, t: nat, i: nat)
    requires CallbackTake(s, s', t) && i < SLOTS
    requires ThreadOk(s, t) && SlotOk(s, i) && UseOk(s, t, i)
    ensures Calm(s, s', t, i) && Held(s', i) == Held(s, i)
  {
    if i == At(s, t).slot { Entering(s, s', t, i); } else { Elsewhere(s, s', t, i); }
  }

  lemma {:induction false} CallbackTakeInv(s: State, s': State, t: nat)
    requires Inv(s) && CallbackTake(s, s', t)
    ensures Inv(s') && Orderly(s, s')
  {
    assert ThreadOk(s, t);
    forall i: nat | i < SLOTS ensures Calm(s, s', t, i) && Held(s', i) == Held(s, i) {
      assert SlotOk(s, i) && UseOk(s, t, i);
      CallbackTakeCalm(s, s', t, i);
    }
    FrameHandles(s, s', t);
  }

  lemma {:induction false} CallbackDoneCalm(s: State, s': State, t: nat, i: nat)
    requires CallbackDone(s, s', t) && i < SLOTS
    requires ThreadOk(s, t) && SlotOk(s, i) && UseOk(s, t, i)
    ensures Calm(s, s', t, i) && Held(s', i) == Held(s, i)
  {
    if i == At(s, t).slot { Leaving(s, s', t, i); } else { Elsewhere(s, s', t, i); }
  }

  lemma {:induction false} CallbackDoneInv(s: State, s': State, t: nat)
    requires Inv(s) && CallbackDone(s, s', t)
    ensures Inv(s') && Orderly(s, s')
  {
    assert ThreadOk(s, t);
    forall i: nat | i < SLOTS ensures Calm(s, s', t, i) && Held(s', i) == Held(s, i) {
      assert SlotOk(s, i) && UseOk(s, t, i);
      CallbackDoneCalm(s, s', t, i);
    }
    FrameHandles(s, s', t);
  }

  lemma {:induction false} CallbackReturnInv(s: State, s': State, t: nat)
    requires Inv(s) && CallbackReturn(s, s', t)
    ensures Inv(s') && Orderly(s, s')
  {
    assert ThreadOk(s, t);
    Moves(s, s', t);
  }

  lemma {:induction false} WorkerTickCalm(s: State, s': State, t: nat, picks: set<nat>, i: nat)
    requires WorkerTick(s, s', t, picks) && i < SLOTS
    requires ThreadOk(s, t) && SlotOk(s, i) && UseOk(s, t, i)
    ensures Calm(s, s', t, i) && Held(s', i) == Held(s, i)
  {
    if i in picks { Entering(s, s', t, i); } else { Elsewhere(s, s', t, i); }
  }

  lemma {:induction false} WorkerTickInv(s: State, s': State, t: nat, picks: set<nat>)
    requires Inv(s) && WorkerTick(s, s', t, picks)
    ensures Inv(s') && Orderly(s, s')
  {
    assert ThreadOk(s, t);
    forall i: nat | i < SLOTS ensures Calm(s, s', t, i) && Held(s', i) == Held(s, i) {
      assert SlotOk(s, i) && UseOk(s, t, i);
      WorkerTickCalm(s, s', t, picks, i);
    }
    FrameHandles(s, s', t);
  }

  lemma {:induction false} WorkerDoneCalm(s: State, s': State, t: nat, i: nat, j: nat)
    requires WorkerDone(s, s', t, i) && j < SLOTS
    requires ThreadOk(s, t) && SlotOk(s, j) && UseOk(s, t, j)
    ensures Calm(s, s', t, j) && Held(s', j) == Held(s, j)
  {
    if j == i { Leaving(s, s', t, j); } else { Elsewhere(s, s', t, j); }
  }

  lemma {:induction false} WorkerDoneAll(s: State, s': State, t: nat, i: nat)
    requires Inv(s) && WorkerDone(s, s', t, i)
    ensures forall j: nat :: j < SLOTS ==> Calm(s, s', t, j) && Held(s', j) == Held(s, j)
  {
    assert ThreadOk(s, t);
    forall j: nat | j < SLOTS ensures Calm(s, s', t, j) && Held(s', j) == Held(s, j) {
      assert SlotOk(s, j) && UseOk(s, t, j);
      WorkerDoneCalm(s, s', t, i, j);
    }
  }

  lemma {:induction false} WorkerDoneInv(s: State, s': State, t: nat, i: nat)
    requires Inv(s) && WorkerDone(s, s', t, i)
    ensures Inv(s') && Orderly(s, s')
  {
    assert ThreadOk(s, t);
    WorkerDoneAll(s, s', t, i);
    FrameHandles(s, s', t);
  }

  lemma {:induction false} DownFlagInv(s: State, s': State)
    requires Inv(s) && DownFlag(s, s')
    ensures Inv(s') && Orderly(s, s')
  {
    assert ThreadOk(s, PNP);
    Moves(s, s', PNP);
  }

  lemma {:induction false} DownLockInv(s: State, s': State)
    requires Inv(s) && DownLock(s, s')
    ensures Inv(s') && Orderly(s, s')
  {
    assert ThreadOk(s, PNP);
    Moves(s, s', PNP);
  }

  lemma {:induction false} DownMarkCalm(s: State, s': State, i: nat)
    requires DownMark(s, s') && i < SLOTS
    requires ThreadOk(s, PNP) && SlotOk(s, i) && UseOk(s, PNP, i)
    ensures Calm(s, s', PNP, i) && Held(s', i) == Held(s, i)
  {}

  lemma {:induction false} DownMarkAllCalm(s: State, s': State)
    requires Inv(s) && DownMark(s, s')
    ensures forall i: nat :: i < SLOTS ==> Calm(s, s', PNP, i) && Held(s', i) == Held(s, i)
  {
    assert ThreadOk(s, PNP);
    forall i: nat | i < SLOTS ensures Calm(s, s', PNP, i) && Held(s', i) == Held(s, i) {
      assert SlotOk(s, i) && UseOk(s, PNP, i);
      DownMarkCalm(s, s', i);
    }
  }

  lemma {:induction false} DownMarkInv(s: State, s': State)
    requires Inv(s) && DownMark(s, s')
    ensures Inv(s') && Orderly(s, s')
  {
    assert ThreadOk(s, PNP);
    DownMarkAllCalm(s, s');
    forall i | 0 <= i < SLOTS ensures Still(s'.slots[i]) { assert Calm(s, s', PNP, i); }
    FrameHandles(s, s', PNP);
  }

  lemma {:induction false} DownNullCalm(s: State, s': State, i: nat)
    requires DownNull(s, s') && i < SLOTS
    requires ThreadOk(s, PNP) && SlotOk(s, i) && UseOk(s, PNP, i)
    ensures Calm(s, s', PNP, i) && Held(s', i) == Held(s, i)
  {
    if i in At(s, PNP).taken {
      DownNullTaken(s, s', At(s, PNP).taken, At(s, PNP).was, i);
    } else {
      assert s'.slots[i] == s.slots[i];
    }
  }

  lemma {:induction false} DownNullInv(s: State, s': State)
    requires Inv(s) && DownNull(s, s')
    ensures Inv(s') && Orderly(s, s')
  {
    assert ThreadOk(s, PNP);
    forall i: nat | i < SLOTS ensures Calm(s, s', PNP, i) && Held(s', i) == Held(s, i) {
      assert SlotOk(s, i) && UseOk(s, PNP, i);
      DownNullCalm(s, s', i);
    }
    FrameHandles(s, s', PNP);
  }

  lemma {:induction false} DownSkipCalm(s: State, s': State, i: nat)
    requires DownSkip(s, s') && i < SLOTS
    requires ThreadOk(s, PNP) && SlotOk(s, i) && UseOk(s, PNP, i)
    ensures Calm(s, s', PNP, i) && Held(s', i) == Held(s, i)
  {}

  lemma {:induction false} DownSkipInv(s: State, s': State)
    requires Inv(s) && DownSkip(s, s')
    ensures Inv(s') && Orderly(s, s')
  {
    assert ThreadOk(s, PNP);
    forall i: nat | i < SLOTS ensures Calm(s, s', PNP, i) && Held(s', i) == Held(s, i) {
      assert SlotOk(s, i) && UseOk(s, PNP, i);
      DownSkipCalm(s, s', i);
    }
    FrameHandles(s, s', PNP);
  }

  lemma {:induction false} DownDrainedCalm(s: State, s': State, i: nat)
    requires DownDrained(s, s') && i < SLOTS
    requires ThreadOk(s, PNP) && SlotOk(s, i) && UseOk(s, PNP, i)
    ensures Calm(s, s', PNP, i) && Held(s', i) == Held(s, i)
  {}

  lemma {:induction false} DownDrainedInv(s: State, s': State)
    requires Inv(s) && DownDrained(s, s')
    ensures Inv(s') && Orderly(s, s')
  {
    assert ThreadOk(s, PNP);
    forall i: nat | i < SLOTS ensures Calm(s, s', PNP, i) && Held(s', i) == Held(s, i) {
      assert SlotOk(s, i) && UseOk(s, PNP, i);
      DownDrainedCalm(s, s', i);
    }
    FrameHandles(s, s', PNP);
  }

  lemma {:induction false} DownDeletedInv(s: State, s': State)
    requires Inv(s) && DownDeleted(s, s')
    ensures Inv(s') && Orderly(s, s')
  {
    assert ThreadOk(s, PNP);
    var j := At(s, PNP).pos;
    assert SlotOk(s, j);
    forall i: nat | i < SLOTS ensures Shape(Holder(s'), s.slots[i], i) && UseOk(s', PNP, i) && Held(s', i) == (if i == j then None else Held(s, i)) {
      assert SlotOk(s, i) && UseOk(s, PNP, i);
    }
    DeleteFrame(s, s', PNP, j, At(s, PNP).taken[j]);
  }

  lemma {:induction false} DownLoseCalm(s: State, s': State, i: nat)
    requires DownLose(s, s') && i < SLOTS
    requires ThreadOk(s, PNP) && SlotOk(s, i) && UseOk(s, PNP, i)
    ensures Calm(s, s', PNP, i) && Held(s', i) == Held(s, i)
  {}

  lemma {:induction false} DownLoseInv(s: State, s': State)
    requires Inv(s) && DownLose(s, s')
    ensures Inv(s') && Orderly(s, s')
  {
    assert ThreadOk(s, PNP);
    forall i: nat | i < SLOTS ensures Calm(s, s', PNP, i) && Held(s', i) == Held(s, i) {
      assert SlotOk(s, i) && UseOk(s, PNP, i);
      DownLoseCalm(s, s', i);
    }
    FrameHandles(s, s', PNP);
  }

  lemma {:induction false} StopFlagInv(s: State, s': State)
    requires Inv(s) && StopFlag(s, s')
    ensures Inv(s') && Orderly(s, s')
  {
    assert ThreadOk(s, PNP);
    Moves(s, s', PNP);
  }

  lemma {:induction false} StopLockInv(s: State, s': State)
    requires Inv(s) && StopLock(s, s')
    ensures Inv(s') && Orderly(s, s')
  {
    assert ThreadOk(s, PNP);
    Moves(s, s', PNP);
  }

  lemma {:induction false} StopMarkCalm(s: State, s': State, i: nat)
    requires StopMark(s, s') && i < SLOTS
    requires ThreadOk(s, PNP) && SlotOk(s, i) && UseOk(s, PNP, i)
    ensures Calm(s, s', PNP, i) && Held(s', i) == Held(s, i)
  {}

  lemma {:induction false} StopMarkInv(s: State, s': State)
    requires Inv(s) && StopMark(s, s')
    ensures Inv(s') && Orderly(s, s')
  {
    assert ThreadOk(s, PNP);
    forall i: nat | i < SLOTS ensures Calm(s, s', PNP, i) && Held(s', i) == Held(s, i) {
      assert SlotOk(s, i) && UseOk(s, PNP, i);
      StopMarkCalm(s, s', i);
    }
    FrameHandles(s, s', PNP);
  }

  lemma {:induction false} StopNullInv(s: State, s': State)
    requires Inv(s) && StopNull(s, s')
    ensures Inv(s') && Orderly(s, s')
  {
    assert ThreadOk(s, PNP);
    var taken := StoppingHandles(s.slots);
    forall i: nat | i < SLOTS ensures Calm(s, s', PNP, i) && Held(s', i) == Held(s, i) {
      assert SlotOk(s, i) && UseOk(s, PNP, i);
      if i in taken { StopNullTaken(s, s', taken, i); } else { StopNullRest(s, s', taken, i); }
    }
    FrameHandles(s, s', PNP);
  }

  lemma {:induction false} StopSkipCalm(s: State, s': State, i: nat)
    requires StopSkip(s, s') && i < SLOTS
    requires ThreadOk(s, PNP) && SlotOk(s, i) && UseOk(s, PNP, i)
    ensures Calm(s, s', PNP, i) && Held(s', i) == Held(s, i)
  {}

  lemma {:induction false} StopSkipInv(s: State, s': State)
    requires Inv(s) && StopSkip(s, s')
    ensures Inv(s') && Orderly(s, s')
  {
    assert ThreadOk(s, PNP);
    forall i: nat | i < SLOTS ensures Calm(s, s', PNP, i) && Held(s', i) == Held(s, i) {
      assert SlotOk(s, i) && UseOk(s, PNP, i);
      StopSkipCalm(s, s', i);
    }
    FrameHandles(s, s', PNP);
  }

  lemma {:induction false} StopDrainedCalm(s: State, s': State, i: nat)
    requires StopDrained(s, s') && i < SLOTS
    requires ThreadOk(s, PNP) && SlotOk(s, i) && UseOk(s, PNP, i)
    ensures Calm(s, s', PNP, i) && Held(s', i) == Held(s, i)
  {}

  lemma {:induction false} StopDrainedInv(s: State, s': State)
    requires Inv(s) && StopDrained(s, s')
    ensures Inv(s') && Orderly(s, s')
  {
    assert ThreadOk(s, PNP);
    forall i: nat | i < SLOTS ensures Calm(s, s', PNP, i) && Held(s', i) == Held(s, i) {
      assert SlotOk(s, i) && UseOk(s, PNP, i);
      StopDrainedCalm(s, s', i);
    }
    FrameHandles(s, s', PNP);
  }

  lemma {:induction false} StopDeletedInv(s: State, s': State)
    requires Inv(s) && StopDeleted(s, s')
    ensures Inv(s') && Orderly(s, s')
  {
    assert ThreadOk(s, PNP);
    var j := At(s, PNP).pos;
    assert SlotOk(s, j);
    forall i: nat | i < SLOTS ensures Shape(Holder(s'), s.slots[i], i) && UseOk(s', PNP, i) && Held(s', i) == (if i == j then None else Held(s, i)) {
      assert SlotOk(s, i) && UseOk(s, PNP, i);
    }
    DeleteFrame(s, s', PNP, j, At(s, PNP).taken[j]);
  }

  lemma {:induction false} StopFreeCalm(s: State, s': State, i: nat)
    requires StopFree(s, s') && i < SLOTS
    requires ThreadOk(s, PNP) && SlotOk(s, i) && UseOk(s, PNP, i)
    ensures Calm(s, s', PNP, i) && Held(s', i) == Held(s, i)
  {}

  lemma {:induction false} StopFreeInv(s: State, s': State)
    requires Inv(s) && StopFree(s, s')
    ensures Inv(s') && Orderly(s, s')
  {
    assert ThreadOk(s, PNP);
    forall i: nat | i < SLOTS ensures Calm(s, s', PNP, i) && Held(s', i) == Held(s, i) {
      assert SlotOk(s, i) && UseOk(s, PNP, i);
      StopFreeCalm(s, s', i);
    }
    FrameHandles(s, s', PNP);
  }

  lemma {:induction false} StopDoneInv(s: State, s': State)
    requires Inv(s) && StopDone(s, s')
    ensures Inv(s') && Orderly(s, s')
  {
    assert ThreadOk(s, PNP);
    forall i: nat | i < SLOTS ensures Calm(s, s', PNP, i) && Held(s', i) == Held(s, i) {
      assert SlotOk(s, i) && UseOk(s, PNP, i);
    }
    FrameHandles(s, s', PNP);
  }

  lemma {:induction false} EntryLockInv(s: State, s': State)
    requires Inv(s) && EntryLock(s, s')
    ensures Inv(s') && Orderly(s, s')
  {
    assert ThreadOk(s, PNP);
    Moves(s, s', PNP);
  }

  lemma {:induction false} EntryInv(s: State, s': State)
    requires Inv(s) && Entry(s, s')
    ensures Inv(s') && Orderly(s, s')
  {
    assert ThreadOk(s, PNP);
    Moves(s, s', PNP);
  }

  lemma {:induction false} PrepareLockInv(s: State, s': State)
    requires Inv(s) && PrepareLock(s, s')
    ensures Inv(s') && Orderly(s, s')
  {
    assert ThreadOk(s, PNP);
    Moves(s, s', PNP);
  }

  lemma {:induction false} PrepareInv(s: State, s': State)
    requires Inv(s) && Prepare(s, s')
    ensures Inv(s') && Orderly(s, s')
  {
    assert ThreadOk(s, PNP);
    Moves(s, s', PNP);
  }

  // ----- All of them together ---------------------------------------------

  lemma {:induction false} CreateStepInv(s: State, s': State, t: nat)
    requires Inv(s) && CreateStep(s, s', t)
    ensures Inv(s') && Orderly(s, s')
  {
    if i, owner, profile :| CreateCheck(s, s', t, i, owner, profile) {
      CreateCheckInv(s, s', t, i, owner, profile);
    } else if CreateLock(s, s', t) {
      CreateLockInv(s, s', t);
    } else if CreateReserve(s, s', t, true) {
      CreateReserveInv(s, s', t, true);
    } else if CreateReserve(s, s', t, false) {
      CreateReserveInv(s, s', t, false);
    } else if CreateFail(s, s', t) {
      CreateFailInv(s, s', t);
    } else if h :| CreateMake(s, s', t, h) {
      CreateMakeInv(s, s', t, h);
    } else if CreatePublish(s, s', t) {
      CreatePublishInv(s, s', t);
    } else if CreateAdopt(s, s', t, true) {
      CreateAdoptInv(s, s', t, true);
    } else if CreateAdopt(s, s', t, false) {
      CreateAdoptInv(s, s', t, false);
    } else if CreateDeleted(s, s', t) {
      CreateDeletedInv(s, s', t);
    } else if CreateReset(s, s', t) {
      CreateResetInv(s, s', t);
    } else {
      UnlockInv(s, s', t);
    }
  }

  lemma {:induction false} DestroyStepInv(s: State, s': State, t: nat)
    requires Inv(s) && DestroyStep(s, s', t)
    ensures Inv(s') && Orderly(s, s')
  {
    if i, owner :| DestroyLock(s, s', t, i, owner) {
      DestroyLockInv(s, s', t, i, owner);
    } else if DestroyMark(s, s', t) {
      DestroyMarkInv(s, s', t);
    } else if DestroyDrained(s, s', t) {
      DestroyDrainedInv(s, s', t);
    } else if DestroyDeleted(s, s', t) {
      DestroyDeletedInv(s, s', t);
    } else {
      DestroyResetInv(s, s', t);
    }
  }

  lemma {:induction false} ReportStepInv(s: State, s': State, t: nat)
    requires Inv(s) && ReportStep(s, s', t)
    ensures Inv(s') && Orderly(s, s')
  {
    if i, owner :| SubmitLock(s, s', t, i, owner) {
      SubmitLockInv(s, s', t, i, owner);
    } else if SubmitCheck(s, s', t) {
      SubmitCheckInv(s, s', t);
    } else if SubmitTake(s, s', t, true) {
      SubmitTakeInv(s, s', t, true);
    } else if SubmitTake(s, s', t, false) {
      SubmitTakeInv(s, s', t, false);
    } else if SubmitDone(s, s', t) {
      SubmitDoneInv(s, s', t);
    } else if h :| CallbackEnter(s, s', t, h) {
      CallbackEnterInv(s, s', t, h);
    } else if CallbackTake(s, s', t) {
      CallbackTakeInv(s, s', t);
    } else if CallbackDone(s, s', t) {
      CallbackDoneInv(s, s', t);
    } else if CallbackReturn(s, s', t) {
      CallbackReturnInv(s, s', t);
    } else if picks :| WorkerTick(s, s', t, picks) {
      WorkerTickInv(s, s', t, picks);
    } else {
      var i :| WorkerDone(s, s', t, i);
      WorkerDoneInv(s, s', t, i);
    }
  }

  lemma {:induction false} DownStepInv(s: State, s': State)
    requires Inv(s) && DownStep(s, s')
    ensures Inv(s') && Orderly(s, s')
  {
    if DownFlag(s, s') {
      DownFlagInv(s, s');
    } else if DownLock(s, s') {
      DownLockInv(s, s');
    } else if DownMark(s, s') {
      DownMarkInv(s, s');
    } else if DownNull(s, s') {
      DownNullInv(s, s');
    } else if DownSkip(s, s') {
      DownSkipInv(s, s');
    } else if DownDrained(s, s') {
      DownDrainedInv(s, s');
    } else if DownDeleted(s, s') {
      DownDeletedInv(s, s');
    } else {
      DownLoseInv(s, s');
    }
  }

  lemma {:induction false} StopStepInv(s: State, s': State)
    requires Inv(s) && StopStep(s, s')
    ensures Inv(s') && Orderly(s, s')
  {
    if StopFlag(s, s') {
      StopFlagInv(s, s');
    } else if StopLock(s, s') {
      StopLockInv(s, s');
    } else if StopMark(s, s') {
      StopMarkInv(s, s');
    } else if StopNull(s, s') {
      StopNullInv(s, s');
    } else if StopSkip(s, s') {
      StopSkipInv(s, s');
    } else if StopDrained(s, s') {
      StopDrainedInv(s, s');
    } else if StopDeleted(s, s') {
      StopDeletedInv(s, s');
    } else if StopFree(s, s') {
      StopFreeInv(s, s');
    } else {
      StopDoneInv(s, s');
    }
  }

  lemma {:induction false} PowerStepInv(s: State, s': State)
    requires Inv(s) && PowerStep(s, s')
    ensures Inv(s') && Orderly(s, s')
  {
    if EntryLock(s, s') {
      EntryLockInv(s, s');
    } else if Entry(s, s') {
      EntryInv(s, s');
    } else if PrepareLock(s, s') {
      PrepareLockInv(s, s');
    } else {
      PrepareInv(s, s');
    }
  }

  lemma {:induction false} NextInv(s: State, s': State)
    requires Inv(s) && Next(s, s')
    ensures Inv(s') && Orderly(s, s')
  {
    if t :| CreateStep(s, s', t) {
      CreateStepInv(s, s', t);
    } else if t :| DestroyStep(s, s', t) {
      DestroyStepInv(s, s', t);
    } else if t :| ReportStep(s, s', t) {
      ReportStepInv(s, s', t);
    } else if DownStep(s, s') {
      DownStepInv(s, s');
    } else if StopStep(s, s') {
      StopStepInv(s, s');
    } else {
      PowerStepInv(s, s');
    }
  }

  /** Every state of every run satisfies the invariant. */
  lemma {:induction false} RunInv(run: seq<State>, k: nat)
    requires IsRun(run) && k < |run|
    ensures Inv(run[k])
  {
    if k == 0 {
      InitInv(run[0]);
    } else {
      RunInv(run, k - 1);
      assert StepAt(run, k - 1);
      NextInv(run[k - 1], run[k]);
    }
  }

  /** So does every step of every run keep the order of generations and deletions. */
  lemma {:induction false} RunOrderly(run: seq<State>, k: nat)
    requires IsRun(run) && k + 1 < |run|
    ensures Orderly(run[k], run[k + 1])
  {
    RunInv(run, k);
    assert StepAt(run, k);
    NextInv(run[k], run[k + 1]);
  }
}
