/** What the slot lifecycle promises over every run: handles are deleted once and
    with nobody inside, slots change hands only when drained, power-down leaves
    nothing running, and a waiting holder always waits for somebody who can go on. */
module SlotSafety {
  import opened Ring
  import opened SlotLifecycle
  import opened SlotInvariant
  import opened SlotSteps

  // ----- Handles ----------------------------------------------------------

  /** VhfDelete returns for `h` in this step: the four places that delete a controller. */
  ghost predicate Deletes(s: State, s': State, h: nat) {
    || (exists t :: CreateDeleted(s, s', t) && At(s, t).handle == h)
    || (exists t :: DestroyDeleted(s, s', t) && At(s, t).handle == h)
    || (DownDeleted(s, s') && At(s, PNP).taken[At(s, PNP).pos] == h)
    || (StopDeleted(s, s') && At(s, PNP).taken[At(s, PNP).pos] == h)
  }

  /** No submission is ever inside a handle whose deletion has returned, nor one
      made for another slot, and no callback runs on a deleted handle. */
  lemma {:induction false} NoUseAfterDelete(run: seq<State>, k: nat, t: nat, i: nat)
    requires IsRun(run) && k < |run| && i < SLOTS
    ensures var h := Inside(At(run[k], t), i);
            h.Some? ==> Live(run[k], h.value) && run[k].home[h.value] == i && t in run[k].slots[i].users
    ensures OnCallback(At(run[k], t)) ==> Live(run[k], At(run[k], t).handle)
  {
    RunInv(run, k);
    assert ThreadOk(run[k], t) && SlotOk(run[k], i) && UseOk(run[k], t, i);
  }

  /** Slot `j` has drained and its handle `h` is the one whose deletion returns. */
  ghost predicate Drained(s: State, j: nat, h: nat) {
    j < SLOTS && Held(s, j) == Some(h) && s.slots[j].users == {} && NoCallbacks(s, h)
  }

  lemma {:induction false} DrainedAtThread(s: State, t: nat)
    requires Inv(s) && (At(s, t).CreateDelete? || At(s, t).DestroyDelete?) && NoCallbacks(s, At(s, t).handle)
    ensures Drained(s, At(s, t).slot, At(s, t).handle)
  {
    assert ThreadOk(s, t);
    assert SlotOk(s, At(s, t).slot);
    if At(s, t).CreateDelete? { NoUsersLeft(s, t); }
  }

  lemma {:induction false} DrainedAtPnp(s: State)
    requires Inv(s) && (At(s, PNP).DownDelete? || At(s, PNP).StopDelete?) && At(s, PNP).pos in At(s, PNP).taken
    requires NoCallbacks(s, At(s, PNP).taken[At(s, PNP).pos])
    ensures Drained(s, At(s, PNP).pos, At(s, PNP).taken[At(s, PNP).pos])
  {
    assert ThreadOk(s, PNP);
    assert SlotOk(s, At(s, PNP).pos);
  }

  /** The slot a deleting holder works on has drained. */
  lemma {:induction false} DeletingSlot(s: State, s': State, h: nat) returns (j: nat)
    requires Inv(s) && Deletes(s, s', h)
    ensures Drained(s, j, h) && h in s'.deleted
  {
    if t :| CreateDeleted(s, s', t) && At(s, t).handle == h {
      DrainedAtThread(s, t);
      j := At(s, t).slot;
    } else if t :| DestroyDeleted(s, s', t) && At(s, t).handle == h {
      DrainedAtThread(s, t);
      j := At(s, t).slot;
    } else {
      DrainedAtPnp(s);
      j := At(s, PNP).pos;
    }
  }

  /** A deletion returns on an undeleted handle nobody is inside of. */
  lemma {:induction false} DeleteFindsNobody(run: seq<State>, k: nat, h: nat)
    requires IsRun(run) && k + 1 < |run| && Deletes(run[k], run[k + 1], h)
    ensures Live(run[k], h) && h in run[k + 1].deleted
    ensures forall t: nat, i: nat :: i < SLOTS ==> Inside(At(run[k], t), i) != Some(h)
    ensures forall t: nat :: OnCallback(At(run[k], t)) ==> At(run[k], t).handle != h
  {
    var s := run[k];
    RunInv(run, k);
    var j := DeletingSlot(s, run[k + 1], h);
    assert SlotOk(s, j);
    forall t: nat, i: nat | i < SLOTS ensures Inside(At(s, t), i) != Some(h) {
      assert UseOk(s, t, i) && SlotOk(s, i);
    }
  }

  lemma {:induction false} DeletedStays(run: seq<State>, j: nat, k: nat, h: nat)
    requires IsRun(run) && j <= k < |run| && h in run[j].deleted
    ensures h in run[k].deleted
    decreases k
  {
    if j < k {
      DeletedStays(run, j, k - 1, h);
      RunOrderly(run, k - 1);
    }
  }

  lemma {:induction false} DeletedOnce(run: seq<State>, j: nat, k: nat, h: nat)
    requires IsRun(run) && j < k && k + 1 < |run|
    requires Deletes(run[j], run[j + 1], h)
    ensures !Deletes(run[k], run[k + 1], h)
  {
    DeleteFindsNobody(run, j, h);
    DeletedStays(run, j + 1, k, h);
    if Deletes(run[k], run[k + 1], h) { DeleteFindsNobody(run, k, h); }
  }

  // ----- Slots ------------------------------------------------------------

  /** Whenever the gate is free every slot is empty, active or lost, active exactly
      when it has a handle, and no other handle is left undeleted. */
  lemma {:induction false} FreeGateIsQuiet(run: seq<State>, k: nat)
    requires IsRun(run) && k < |run| && run[k].gate == None
    ensures forall i :: 0 <= i < SLOTS ==> Quiet(run[k].slots[i])
    ensures forall h: nat :: Live(run[k], h) <==> exists i :: 0 <= i < SLOTS && run[k].slots[i].vhf == Some(h)
  {
    var s := run[k];
    RunInv(run, k);
    forall i | 0 <= i < SLOTS ensures Quiet(s.slots[i]) { assert SlotOk(s, i); }
    forall h: nat ensures Live(s, h) <==> exists i :: 0 <= i < SLOTS && s.slots[i].vhf == Some(h) {
      assert HandleOk(s, h);
      if i :| 0 <= i < SLOTS && s.slots[i].vhf == Some(h) { assert SlotOk(s, i); }
    }
  }

  /** The in-flight counter is exactly the number of threads inside, so it never
      underflows, and a slot is zeroed only with nobody inside and its handle gone:
      no submission outlives the generation it started in. */
  lemma {:induction false} ResetFindsNobody(run: seq<State>, k: nat, i: nat)
    requires IsRun(run) && k + 1 < |run| && i < SLOTS
    ensures run[k].slots[i].inFlight == |run[k].slots[i].users|
    ensures forall t: nat :: t in run[k].slots[i].users <==> Inside(At(run[k], t), i).Some?
    ensures run[k].slots[i].generation <= run[k + 1].slots[i].generation <= run[k].slots[i].generation + 1
    ensures run[k + 1].slots[i].generation != run[k].slots[i].generation ==>
              run[k].slots[i].users == {} && run[k + 1].slots[i].users == {} && Held(run[k], i) == None
  {
    var s, s' := run[k], run[k + 1];
    RunInv(run, k);
    RunInv(run, k + 1);
    RunOrderly(run, k);
    assert SlotOk(s, i) && Turnover(s, s', i) && SlotOk(s', i);
    forall t: nat ensures t in s.slots[i].users <==> Inside(At(s, t), i).Some? { assert UseOk(s, t, i); }
  }

  lemma {:induction false} GenerationGrows(run: seq<State>, j: nat, k: nat, i: nat)
    requires IsRun(run) && j <= k < |run| && i < SLOTS
    ensures run[j].slots[i].generation <= run[k].slots[i].generation
    decreases k
  {
    if j < k {
      GenerationGrows(run, j, k - 1, i);
      ResetFindsNobody(run, k - 1, i);
    }
  }

  // ----- Power ------------------------------------------------------------

  /** Between a power-down or stop returning and the next time the device has power
      and is not stopping, no slot starts or is active, whatever creates raced with it. */
  lemma {:induction false} StillUntilPowered(run: seq<State>, j: nat, k: nat, i: nat)
    requires IsRun(run) && j <= k < |run| && i < SLOTS
    requires At(run[j], PNP) == Idle || At(run[j], PNP) == Release
    requires forall m {:trigger run[m]} :: j <= m <= k ==> !run[m].powered || run[m].stopping
    ensures Still(run[k].slots[i])
    decreases k
  {
    if j == k {
      RunInv(run, k);
      assert ThreadOk(run[k], PNP);
    } else {
      StillUntilPowered(run, j, k - 1, i);
      RunOrderly(run, k - 1);
      assert Wakes(run[k - 1], run[k], i);
    }
  }

  /** From the moment it marks the slots, a power-down remembers them as they were. */
  lemma {:induction false} PowerDownRemembers(run: seq<State>, j: nat, k: nat)
    requires IsRun(run) && j < k < |run| && DownMark(run[j], run[j + 1])
    requires forall m {:trigger run[m]} :: j < m <= k ==> InPowerDown(At(run[m], PNP))
    ensures InPowerDown(At(run[k], PNP)) && At(run[k], PNP).was == run[j].slots
    decreases k
  {
    if k > j + 1 {
      PowerDownRemembers(run, j, k - 1);
      RunOrderly(run, k - 1);
      assert InPowerDown(At(run[k - 1], PNP)) && InPowerDown(At(run[k], PNP));
    }
  }

  lemma {:induction false} LastSectionLoses(s: State, s': State, i: nat)
    requires i < SLOTS && ThreadOk(s, PNP) && SlotOk(s, i) && DownLose(s, s')
    ensures var was := At(s, PNP).was[i];
            s'.slots[i] == if was.state == Active
                           then Slot(was.generation + 1, None, was.owner, was.profile, Lost, 0, {}) else was
    ensures s'.slots[i].state == Empty || s'.slots[i].state == Lost
  {
    assert s'.slots[i] == if i in At(s, PNP).taken then LoseSlot(s.slots[i]) else s.slots[i];
  }

  /** A whole power-down, from marking the slots at step `j` to its last critical
      section at step `k`: every slot that was active ends lost, drained and
      handleless under the same owner and profile, in its next generation, and every
      other slot is exactly as it was, whatever ran in between. */
  lemma {:induction false} PowerDownLosesTheActive(run: seq<State>, j: nat, k: nat, i: nat)
    requires IsRun(run) && j < k && k + 1 < |run| && i < SLOTS
    requires DownMark(run[j], run[j + 1]) && DownLose(run[k], run[k + 1])
    requires forall m {:trigger run[m]} :: j < m <= k ==> InPowerDown(At(run[m], PNP))
    ensures var was := run[j].slots[i];
            run[k + 1].slots[i] == if was.state == Active
                                   then Slot(was.generation + 1, None, was.owner, was.profile, Lost, 0, {}) else was
    ensures run[k + 1].slots[i].state == Empty || run[k + 1].slots[i].state == Lost
  {
    PowerDownRemembers(run, j, k);
    RunInv(run, k);
    assert ThreadOk(run[k], PNP) && SlotOk(run[k], i);
    LastSectionLoses(run[k], run[k + 1], i);
  }

  /** Power-down, stop and destroy never meet a slot that is being created. */
  lemma {:induction false} NoSlotIsStarting(run: seq<State>, k: nat, t: nat, i: nat)
    requires IsRun(run) && k < |run| && i < SLOTS
    requires At(run[k], t).DownGate? || At(run[k], t).StopGate? || At(run[k], t).DestroyGate?
    ensures run[k].slots[i].state != Starting && run[k].slots[i].state != Stopping
  {
    RunInv(run, k);
    assert ThreadOk(run[k], t) && SlotOk(run[k], i);
  }

  // ----- Creation ---------------------------------------------------------

  /** Thread `t` is between its unlocked check, where it saw `seen`, and reserving slot `i`. */
  predicate Creator(s: State, t: nat, i: nat, owner: nat, seen: Slot) {
    var c := At(s, t);
    (c.CreateChecked? || c.CreateGate?) && c.slot == i && c.owner == owner && c.seen == seen
  }

  /** A create succeeds in reserving its slot only when nothing at all happened to
      the slot since the unlocked check, child lookup included. */
  lemma {:induction false} ReservesWhatItChecked(
    run: seq<State>, j: nat, k: nat, m: nat, t: nat, i: nat, owner: nat, seen: Slot, childPresent: bool)
    requires IsRun(run) && j <= m <= k && k + 1 < |run| && i < SLOTS
    requires forall n {:trigger run[n]} :: j <= n <= k ==> Creator(run[n], t, i, owner, seen)
    requires CreateReserve(run[k], run[k + 1], t, childPresent) && At(run[k + 1], t).CreateReserved?
    ensures run[m].slots[i] == seen && Available(seen, owner) && !childPresent
  {
    RunInv(run, m);
    assert ThreadOk(run[m], t) && Creator(run[m], t, i, owner, seen) && Creator(run[k], t, i, owner, seen);
    GenerationGrows(run, m, k, i);
  }

  /** Until a slot is adopted only VHF callbacks submit on it, so a creator that
      gives up needs to wait for no one but them. */
  lemma {:induction false} OnlyCallbacksSubmitEarly(run: seq<State>, k: nat, t: nat, u: nat)
    requires IsRun(run) && k < |run| && (At(run[k], t).CreateStart? || At(run[k], t).CreateDelete?)
    ensures var c := At(run[k], t);
            c.slot < SLOTS && (u in run[k].slots[c.slot].users ==> At(run[k], u).CallbackIn? && At(run[k], u).handle == c.handle)
  {
    RunInv(run, k);
    var s := run[k];
    assert ThreadOk(s, t) && ThreadOk(s, u);
    var i := At(s, t).slot;
    assert UseOk(s, u, i) && SlotOk(s, i);
    assert HandleOk(s, if OnCallback(At(s, u)) then At(s, u).handle else 0);
  }

  // ----- Waiting ends -----------------------------------------------------

  /** The slot whose submissions a holder at `pc` waits for. */
  predicate WaitsFor(pc: Pc, i: nat) {
    || (pc.DestroyWait? && pc.slot == i)
    || ((pc.DownDrain? || pc.StopDrain?) && pc.pos == i && i in pc.taken)
  }

  /** Thread `u` can leave its submission on slot `i` without the gate. */
  ghost predicate CanLeave(s: State, u: nat, i: nat) {
    s.gate != Some(u) && exists s' :: CallbackDone(s, s', u) || WorkerDone(s, s', u, i)
  }

  /** Waiting for submissions never deadlocks: while the count is not zero, some
      thread is inside that needs no gate to come out. */
  lemma {:induction false} WaitedForCanLeave(run: seq<State>, k: nat, t: nat, i: nat) returns (u: nat)
    requires IsRun(run) && k < |run| && i < SLOTS && WaitsFor(At(run[k], t), i) && run[k].slots[i].inFlight != 0
    ensures u in run[k].slots[i].users && CanLeave(run[k], u, i)
  {
    var s := run[k];
    RunInv(run, k);
    assert ThreadOk(s, t) && SlotOk(s, i);
    u :| u in s.slots[i].users;
    assert ThreadOk(s, u) && UseOk(s, u, i);
    var c := At(s, u);
    if c.CallbackIn? {
      assert CallbackDone(s, With(Go(s, u, Callback(c.slot, c.handle)), c.slot, Leave(s.slots[c.slot], u)), u);
    } else {
      assert WorkerDone(s, With(Go(s, u, if c.pending.Keys == {i} then Idle else WorkerIn(c.pending - {i})), i,
                                Leave(s.slots[i], u)), u, i);
    }
  }

  /** Nor does VhfDelete: a callback still running on any handle can go on without the gate. */
  lemma {:induction false} CallbackCanGoOn(run: seq<State>, k: nat, u: nat) returns (s': State)
    requires IsRun(run) && k < |run| && OnCallback(At(run[k], u))
    ensures run[k].gate != Some(u) && (CallbackDone(run[k], s', u) || CallbackReturn(run[k], s', u))
  {
    var s := run[k];
    RunInv(run, k);
    assert ThreadOk(s, u);
    var c := At(s, u);
    s' := if c.Callback? then Go(s, u, Idle)
          else With(Go(s, u, Callback(c.slot, c.handle)), c.slot, Leave(s.slots[c.slot], u));
  }
}
