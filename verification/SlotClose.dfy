/** Closing a file: the driver destroys every slot for its owner, one after the other.
    What that leaves behind, whatever other files, callbacks and power transitions
    run in between. */
module SlotClose {
  import opened Ring
  import opened SlotLifecycle
  import opened SlotInvariant
  import opened SlotSteps

  // ----- Ownership --------------------------------------------------------

  /** Some create reserves a slot for `owner` in this step. */
  ghost predicate Reserves(s: State, s': State, owner: nat) {
    exists t, present :: ReservesBy(s, s', t, present, owner)
  }

  predicate ReservesBy(s: State, s': State, t: nat, present: bool, owner: nat) {
    CreateReserve(s, s', t, present) && At(s, t).owner == owner && At(s', t).CreateReserved?
  }

  /** An empty slot has no owner, and a slot gets an owner only by being reserved. */
  ghost predicate OwnerStep(s: State, s': State, i: nat, owner: nat)
    requires i < SLOTS
  {
    && (Unowned(s.slots[i]) ==> Unowned(s'.slots[i]))
    && (s.slots[i].owner != owner && owner != 0 && !Reserves(s, s', owner) ==> s'.slots[i].owner != owner)
  }

  predicate Unowned(slot: Slot) { slot.state == Empty ==> slot.owner == 0 }

  lemma {:induction false} ReserveOwner(s: State, s': State, t: nat, present: bool, i: nat, owner: nat)
    requires CreateReserve(s, s', t, present) && i < SLOTS
    ensures OwnerStep(s, s', i, owner)
  {
    if At(s', t).CreateReserved? && At(s, t).owner == owner { assert ReservesBy(s, s', t, present, owner); }
  }

  lemma {:induction false} MakeOwner(s: State, s': State, t: nat, i: nat)
    requires i < SLOTS
    requires (exists j, owner, profile :: CreateCheck(s, s', t, j, owner, profile)) || CreateLock(s, s', t)
      || CreateFail(s, s', t) || (exists h :: CreateMake(s, s', t, h)) || CreatePublish(s, s', t)
    ensures s'.slots[i].owner == s.slots[i].owner && s'.slots[i].state == s.slots[i].state
  {}

  lemma {:induction false} AdoptOwner(s: State, s': State, t: nat, i: nat, owner: nat)
    requires i < SLOTS
    requires CreateAdopt(s, s', t, true) || CreateAdopt(s, s', t, false) || CreateDeleted(s, s', t)
      || CreateReset(s, s', t) || Unlock(s, s', t)
    ensures OwnerStep(s, s', i, owner)
  {}

  lemma {:induction false} CreateOwner(s: State, s': State, t: nat, i: nat, owner: nat)
    requires CreateStep(s, s', t) && i < SLOTS
    ensures OwnerStep(s, s', i, owner)
  {
    if CreateReserve(s, s', t, true) {
      ReserveOwner(s, s', t, true, i, owner);
    } else if CreateReserve(s, s', t, false) {
      ReserveOwner(s, s', t, false, i, owner);
    } else if CreateAdopt(s, s', t, true) || CreateAdopt(s, s', t, false) || CreateDeleted(s, s', t)
      || CreateReset(s, s', t) || Unlock(s, s', t) {
      AdoptOwner(s, s', t, i, owner);
    } else {
      MakeOwner(s, s', t, i);
    }
  }

  lemma {:induction false} DestroyOwner(s: State, s': State, t: nat, i: nat, owner: nat)
    requires DestroyStep(s, s', t) && i < SLOTS
    ensures OwnerStep(s, s', i, owner)
  {}

  /** A submission or callback changes at most who is inside which slot. */
  predicate OnlyUsers(s: State, s': State, i: nat)
    requires i < SLOTS
  {
    s'.slots[i].owner == s.slots[i].owner && s'.slots[i].state == s.slots[i].state
  }

  lemma {:induction false} SubmitOwner(s: State, s': State, t: nat, i: nat)
    requires i < SLOTS
    requires (exists j, owner :: SubmitLock(s, s', t, j, owner)) || SubmitCheck(s, s', t)
      || SubmitTake(s, s', t, true) || SubmitTake(s, s', t, false) || SubmitDone(s, s', t)
    ensures OnlyUsers(s, s', i)
  {}

  lemma {:induction false} CallbackOwner(s: State, s': State, t: nat, i: nat)
    requires i < SLOTS
    requires (exists h :: CallbackEnter(s, s', t, h)) || CallbackTake(s, s', t) || CallbackDone(s, s', t) || CallbackReturn(s, s', t)
    ensures OnlyUsers(s, s', i)
  {}

  lemma {:induction false} WorkerOwner(s: State, s': State, t: nat, i: nat)
    requires i < SLOTS
    requires (exists picks :: WorkerTick(s, s', t, picks)) || (exists j :: WorkerDone(s, s', t, j))
    ensures OnlyUsers(s, s', i)
  {}

  lemma {:induction false} ReportOwner(s: State, s': State, t: nat, i: nat, owner: nat)
    requires ReportStep(s, s', t) && i < SLOTS
    ensures OwnerStep(s, s', i, owner)
  {
    if (exists picks :: WorkerTick(s, s', t, picks)) || (exists j :: WorkerDone(s, s', t, j)) {
      WorkerOwner(s, s', t, i);
    } else if (exists h :: CallbackEnter(s, s', t, h)) || CallbackTake(s, s', t) || CallbackDone(s, s', t) || CallbackReturn(s, s', t) {
      CallbackOwner(s, s', t, i);
    } else {
      SubmitOwner(s, s', t, i);
    }
  }

  lemma {:induction false} DownOwner(s: State, s': State, i: nat, owner: nat)
    requires DownStep(s, s') && i < SLOTS
    ensures OwnerStep(s, s', i, owner)
  {}

  lemma {:induction false} StopOwner(s: State, s': State, i: nat, owner: nat)
    requires StopStep(s, s') && i < SLOTS
    ensures OwnerStep(s, s', i, owner)
  {}

  lemma {:induction false} PowerOwner(s: State, s': State, i: nat, owner: nat)
    requires PowerStep(s, s') && i < SLOTS
    ensures OwnerStep(s, s', i, owner)
  {}

  lemma {:induction false} NextOwner(s: State, s': State, i: nat, owner: nat)
    requires Next(s, s') && i < SLOTS
    ensures OwnerStep(s, s', i, owner)
  {
    if t :| CreateStep(s, s', t) {
      CreateOwner(s, s', t, i, owner);
    } else if t :| DestroyStep(s, s', t) {
      DestroyOwner(s, s', t, i, owner);
    } else if t :| ReportStep(s, s', t) {
      ReportOwner(s, s', t, i, owner);
    } else if DownStep(s, s') {
      DownOwner(s, s', i, owner);
    } else if StopStep(s, s') {
      StopOwner(s, s', i, owner);
    } else {
      PowerOwner(s, s', i, owner);
    }
  }

  lemma {:induction false} RunOwner(run: seq<State>, k: nat, i: nat, owner: nat)
    requires IsRun(run) && k + 1 < |run| && i < SLOTS
    ensures OwnerStep(run[k], run[k + 1], i, owner)
  {
    assert StepAt(run, k);
    NextOwner(run[k], run[k + 1], i, owner);
  }

  /** In every run an empty slot has no owner. */
  lemma {:induction false} EmptyIsUnowned(run: seq<State>, k: nat, i: nat)
    requires IsRun(run) && k < |run| && i < SLOTS
    ensures run[k].slots[i].state == Empty ==> run[k].slots[i].owner == 0
  {
    if k > 0 {
      EmptyIsUnowned(run, k - 1, i);
      RunOwner(run, k - 1, i, 0);
    }
  }

  // ----- One destroy ------------------------------------------------------

  /** Thread `t` ends its destroy of slot `i` for `owner` in this step. */
  predicate DestroyEnds(s: State, s': State, t: nat, i: nat, owner: nat) {
    var c := At(s, t);
    && (DestroyMark(s, s', t) || DestroyReset(s, s', t))
    && c.slot == i && c.owner == owner && At(s', t) == Release
  }

  lemma {:induction false} DestroyDisowns(run: seq<State>, d: nat, t: nat, i: nat, owner: nat)
    requires IsRun(run) && d + 1 < |run| && i < SLOTS && owner != 0
    requires DestroyEnds(run[d], run[d + 1], t, i, owner)
    ensures run[d + 1].slots[i].owner != owner
  {
    RunInv(run, d);
    assert ThreadOk(run[d], t) && SlotOk(run[d], i);
    EmptyIsUnowned(run, d, i);
  }

  /** Once it is not the owner's, a slot stays so until a create reserves it. */
  lemma {:induction false} StaysDisowned(run: seq<State>, j: nat, k: nat, i: nat, owner: nat)
    requires IsRun(run) && j <= k < |run| && i < SLOTS && owner != 0 && run[j].slots[i].owner != owner
    requires NoReserve(run, j, k, owner)
    ensures run[k].slots[i].owner != owner
    decreases k
  {
    if j < k {
      StaysDisowned(run, j, k - 1, i, owner);
      RunOwner(run, k - 1, i, owner);
      assert Unreserved(run, k - 1, owner);
    }
  }

  // ----- The close --------------------------------------------------------

  ghost predicate Unreserved(run: seq<State>, m: nat, owner: nat) {
    m + 1 < |run| ==> !Reserves(run[m], run[m + 1], owner)
  }

  /** The owner's creates are over: none reserves a slot between `j` and `k`. */
  ghost predicate NoReserve(run: seq<State>, j: nat, k: nat, owner: nat) {
    forall m: nat :: j <= m < k ==> Unreserved(run, m, owner)
  }

  /** Some destroy of slot `i` for `owner` ends between `j` and `k`. */
  ghost predicate Destroyed(run: seq<State>, j: nat, k: nat, i: nat, owner: nat) {
    exists d: nat, t: nat :: j <= d < k && EndsAt(run, d, t, i, owner)
  }

  predicate EndsAt(run: seq<State>, d: nat, t: nat, i: nat, owner: nat) {
    d + 1 < |run| && DestroyEnds(run[d], run[d + 1], t, i, owner)
  }

  /** When a file's close has destroyed every slot for its owner, and its creates are
      over, no slot is the owner's; nor is any later, until it creates one again. */
  lemma {:induction false} CloseDisowns(run: seq<State>, j: nat, k: nat, owner: nat)
    requires IsRun(run) && j <= k < |run| && owner != 0
    requires forall i: nat :: i < SLOTS ==> Destroyed(run, j, k, i, owner)
    requires NoReserve(run, j, k, owner)
    ensures forall i :: 0 <= i < SLOTS ==> run[k].slots[i].owner != owner
  {
    forall i: nat | i < SLOTS ensures run[k].slots[i].owner != owner {
      assert Destroyed(run, j, k, i, owner);
      var d: nat, t: nat :| j <= d < k && EndsAt(run, d, t, i, owner);
      DestroyDisowns(run, d, t, i, owner);
      StaysDisowned(run, d + 1, k, i, owner);
    }
  }
}
