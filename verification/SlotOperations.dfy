/** Whole operations from their first step to their last, with nobody in between: what
    a create, a destroy, a submission, a callback and a power-up bring about. */
module SlotOperations {
  import opened Ring
  import opened SlotLifecycle
  import opened SlotInvariant
  import opened SlotSteps

  // ----- Paths ------------------------------------------------------------

  /** One step of the system after the other, from any state. */
  ghost predicate IsPath(path: seq<State>) {
    path != [] && forall k: nat :: StepAt(path, k)
  }

  ghost predicate Reaches(s: State, s': State) {
    exists path :: IsPath(path) && path[0] == s && path[|path| - 1] == s'
  }

  lemma {:induction false} PathGrows(path: seq<State>, s': State)
    requires IsPath(path) && Next(path[|path| - 1], s')
    ensures IsPath(path + [s'])
  {
    var longer := path + [s'];
    forall k: nat ensures StepAt(longer, k) {
      assert StepAt(path, k);
      if k + 1 < |path| { assert longer[k] == path[k] && longer[k + 1] == path[k + 1]; }
    }
  }

  lemma {:induction false} ReachesItself(s: State)
    ensures Reaches(s, s)
  {
    assert IsPath([s]) && [s][0] == s;
  }

  lemma {:induction false} ReachesNext(s: State, m: State, s': State)
    requires Reaches(s, m) && Next(m, s')
    ensures Reaches(s, s')
  {
    var path :| IsPath(path) && path[0] == s && path[|path| - 1] == m;
    PathGrows(path, s');
    assert (path + [s'])[0] == s && (path + [s'])[|path + [s']| - 1] == s';
  }

  lemma {:induction false} ByCreate(s: State, m: State, s': State, t: nat)
    requires Reaches(s, m) && CreateStep(m, s', t)
    ensures Reaches(s, s')
  {
    ReachesNext(s, m, s');
  }

  lemma {:induction false} ByDestroy(s: State, m: State, s': State, t: nat)
    requires Reaches(s, m) && DestroyStep(m, s', t)
    ensures Reaches(s, s')
  {
    ReachesNext(s, m, s');
  }

  lemma {:induction false} ByReport(s: State, m: State, s': State, t: nat)
    requires Reaches(s, m) && ReportStep(m, s', t)
    ensures Reaches(s, s')
  {
    ReachesNext(s, m, s');
  }

  lemma {:induction false} ByPower(s: State, m: State, s': State)
    requires Reaches(s, m) && PowerStep(m, s')
    ensures Reaches(s, s')
  {
    ReachesNext(s, m, s');
  }

  lemma {:induction false} ByUnlock(s: State, m: State, s': State, t: nat)
    requires Reaches(s, m) && Unlock(m, s', t)
    ensures Reaches(s, s')
  {
    ByCreate(s, m, s', t);
  }

  /** Thread `t` is back where it came from, the gate is free, and of all the other
      threads and the device's power nothing has changed. */
  predicate Returned(s: State, s': State, t: nat) {
    && s'.gate == None && At(s', t) == Idle && s'.powered == s.powered && s'.stopping == s.stopping
    && s'.threads == s.threads[t := Idle]
  }

  // ----- Create -----------------------------------------------------------

  /** On a powered device that is not stopping, a create of a slot that is empty, or
      lost by the same owner, can go through: the slot is then active under its owner and
      profile in its next generation, with a started handle and nobody inside, and
      no other slot has changed. */
  lemma {:induction false} CreateSucceeds(s: State, t: nat, i: nat, owner: nat, profile: nat, h: nat) returns (done: State)
    requires s.gate == None && t != PNP && At(s, t) == Idle && i < SLOTS && owner != 0
    requires s.powered && !s.stopping && h !in s.home
    requires s.slots[i].state == Empty || (s.slots[i].state == Lost && s.slots[i].owner == owner)
    ensures Reaches(s, done) && Returned(s, done, t)
    ensures done.slots == s.slots[i := Slot(s.slots[i].generation + 1, Some(h), owner, profile, Active, 0, {})]
    ensures done.home == s.home[h := i] && done.started == s.started + {h} && done.deleted == s.deleted
  {
    var s3 := CreateReserves(s, t, i, owner, profile);
    var reserved := s3.slots[i];
    done := CreateGoesOn(s, s3, t, i, owner, reserved, h);
    assert done.threads == s.threads[t := Idle];
    assert done.slots == s.slots[i := reserved.(vhf := Some(h), state := Active)];
  }

  /** Up to the reservation. */
  lemma {:induction false} CreateReserves(s: State, t: nat, i: nat, owner: nat, profile: nat) returns (s3: State)
    requires s.gate == None && t != PNP && At(s, t) == Idle && i < SLOTS && owner != 0 && s.powered && !s.stopping
    requires s.slots[i].state == Empty || (s.slots[i].state == Lost && s.slots[i].owner == owner)
    ensures Reaches(s, s3)
    ensures s3 == s.(gate := Some(t), threads := s.threads[t := CreateReserved(i, owner)],
                     slots := s.slots[i := Slot(s.slots[i].generation + 1, None, owner, profile, Starting, 0, {})])
  {
    var s1 := Go(s, t, CreateChecked(i, owner, profile, s.slots[i]));
    assert CreateCheck(s, s1, t, i, owner, profile);
    ReachesItself(s);
    ByCreate(s, s, s1, t);
    var s2 := Go(s1, t, CreateGate(i, owner, profile, s.slots[i])).(gate := Some(t));
    assert CreateLock(s1, s2, t);
    ByCreate(s, s1, s2, t);
    s3 := With(Go(s2, t, CreateReserved(i, owner)), i, Slot(s.slots[i].generation + 1, None, owner, profile, Starting, 0, {}));
    assert CreateReserve(s2, s3, t, false);
    ByCreate(s, s2, s3, t);
    assert s3.threads == s.threads[t := CreateReserved(i, owner)];
  }

  /** From the reservation on. */
  lemma {:induction false} CreateGoesOn(s: State, s3: State, t: nat, i: nat, owner: nat, reserved: Slot, h: nat) returns (done: State)
    requires Reaches(s, s3) && i < SLOTS && At(s3, t) == CreateReserved(i, owner) && s3.slots[i] == reserved
    requires reserved.owner == owner && reserved.state == Starting && s3.powered && !s3.stopping && h !in s3.home
    ensures Reaches(s, done)
    ensures done == s3.(gate := None, threads := s3.threads[t := Idle], home := s3.home[h := i], started := s3.started + {h},
                        slots := s3.slots[i := reserved.(vhf := Some(h), state := Active)])
  {
    var s4 := Go(s3, t, CreateMade(i, owner, h)).(home := s3.home[h := i]);
    assert CreateMake(s3, s4, t, h);
    ByCreate(s, s3, s4, t);
    var s5 := With(Go(s4, t, CreateStart(i, owner, h)), i, reserved.(vhf := Some(h))).(started := s4.started + {h});
    assert CreatePublish(s4, s5, t);
    ByCreate(s, s4, s5, t);
    var s6 := With(Go(s5, t, Release), i, reserved.(vhf := Some(h), state := Active));
    assert CreateAdopt(s5, s6, t, true);
    ByCreate(s, s5, s6, t);
    done := Go(s6, t, Idle).(gate := None);
    ByUnlock(s, s6, done, t);
    assert done.threads == s3.threads[t := Idle];
    assert done.slots == s3.slots[i := reserved.(vhf := Some(h), state := Active)];
  }

  // ----- Destroy ----------------------------------------------------------

  /** A destroy of an active slot by its owner, with nobody inside it and no callback
      running, frees the slot in its next generation and deletes its handle. */
  lemma {:induction false} DestroyFrees(s: State, t: nat, i: nat, owner: nat, h: nat) returns (done: State)
    requires s.gate == None && t != PNP && At(s, t) == Idle && i < SLOTS
    requires s.slots[i].state == Active && s.slots[i].owner == owner && s.slots[i].vhf == Some(h)
    requires s.slots[i].inFlight == 0 && NoCallbacks(s, h)
    ensures Reaches(s, done) && Returned(s, done, t)
    ensures done.slots == s.slots[i := Slot(s.slots[i].generation + 1, None, 0, 0, Empty, 0, {})]
    ensures done.deleted == s.deleted + {h} && done.home == s.home
  {
    var s3 := DestroyDrains(s, t, i, owner, h);
    CallbacksStay(s, s3, t, h);
    done := DestroyGoesOn(s, s3, t, i, owner, h);
    assert done.threads == s.threads[t := Idle];
    assert done.slots == s.slots[i := Reset(s3.slots[i])];
  }

  lemma {:induction false} CallbacksStay(s: State, s': State, t: nat, h: nat)
    requires NoCallbacks(s, h) && s'.threads == s.threads[t := At(s', t)] && !OnCallback(At(s', t))
    ensures NoCallbacks(s', h)
  {
    forall u ensures !((At(s', u).Callback? || At(s', u).CallbackIn?) && At(s', u).handle == h) {
      if u != t { assert At(s', u) == At(s, u); }
    }
  }

  lemma {:induction false} DestroyLocks(s: State, t: nat, i: nat, owner: nat) returns (s1: State)
    requires s.gate == None && t != PNP && At(s, t) == Idle && i < SLOTS
    ensures Reaches(s, s1) && s1 == Go(s, t, DestroyGate(i, owner)).(gate := Some(t))
  {
    s1 := Go(s, t, DestroyGate(i, owner)).(gate := Some(t));
    assert DestroyLock(s, s1, t, i, owner);
    ReachesItself(s);
    ByDestroy(s, s, s1, t);
  }

  /** Up to the deletion. */
  lemma {:induction false} DestroyDrains(s: State, t: nat, i: nat, owner: nat, h: nat) returns (s3: State)
    requires s.gate == None && t != PNP && At(s, t) == Idle && i < SLOTS
    requires s.slots[i].state == Active && s.slots[i].owner == owner && s.slots[i].vhf == Some(h) && s.slots[i].inFlight == 0
    ensures Reaches(s, s3)
    ensures s3 == s.(gate := Some(t), threads := s.threads[t := DestroyDelete(i, owner, h)],
                     slots := s.slots[i := s.slots[i].(state := Stopping, vhf := None)])
  {
    var s1 := DestroyLocks(s, t, i, owner);
    var s2 := With(Go(s1, t, DestroyWait(i, owner, h)), i, s.slots[i].(state := Stopping, vhf := None));
    assert DestroyMark(s1, s2, t);
    ByDestroy(s, s1, s2, t);
    s3 := Go(s2, t, DestroyDelete(i, owner, h));
    assert DestroyDrained(s2, s3, t);
    ByDestroy(s, s2, s3, t);
    assert s3.threads == s.threads[t := DestroyDelete(i, owner, h)];
  }

  /** From the deletion on. */
  lemma {:induction false} DestroyGoesOn(s: State, s3: State, t: nat, i: nat, owner: nat, h: nat) returns (done: State)
    requires Reaches(s, s3) && i < SLOTS && At(s3, t) == DestroyDelete(i, owner, h) && NoCallbacks(s3, h)
    requires s3.slots[i].owner == owner && s3.slots[i].state == Stopping
    ensures Reaches(s, done)
    ensures done == s3.(gate := None, threads := s3.threads[t := Idle], deleted := s3.deleted + {h},
                        slots := s3.slots[i := Reset(s3.slots[i])])
  {
    var s4 := Go(s3, t, DestroyFinish(i, owner)).(deleted := s3.deleted + {h});
    assert DestroyDeleted(s3, s4, t);
    ByDestroy(s, s3, s4, t);
    var s5 := With(Go(s4, t, Release), i, Reset(s3.slots[i]));
    assert DestroyReset(s4, s5, t);
    ByDestroy(s, s4, s5, t);
    done := Go(s5, t, Idle).(gate := None);
    ByUnlock(s, s5, done, t);
    assert done.threads == s3.threads[t := Idle];
  }

  /** A destroy of a lost slot by its owner frees it; one by anybody else, or of an
      empty slot, changes nothing. */
  lemma {:induction false} DestroyOfRest(s: State, t: nat, i: nat, owner: nat) returns (done: State)
    requires s.gate == None && t != PNP && At(s, t) == Idle && i < SLOTS
    requires s.slots[i].state == Lost || s.slots[i].state == Empty || s.slots[i].owner != owner
    ensures Reaches(s, done) && Returned(s, done, t) && done.deleted == s.deleted && done.home == s.home
    ensures done.slots == if s.slots[i].state == Lost && s.slots[i].owner == owner
                          then s.slots[i := Slot(s.slots[i].generation + 1, None, 0, 0, Empty, 0, {})] else s.slots
  {
    var left := if s.slots[i].state == Lost && s.slots[i].owner == owner then Reset(s.slots[i]) else s.slots[i];
    var s1 := DestroyLocks(s, t, i, owner);
    var s2 := With(Go(s1, t, Release), i, left);
    assert DestroyMark(s1, s2, t);
    ByDestroy(s, s1, s2, t);
    done := Go(s2, t, Idle).(gate := None);
    ByUnlock(s, s2, done, t);
    assert done.threads == s.threads[t := Idle];
    assert s.slots[i := s.slots[i]] == s.slots;
  }

  // ----- Submissions and callbacks ----------------------------------------

  /** A report of an active slot's owner can reach VHF on the slot's handle, on a powered
      device that is not stopping, and leaves every slot as it was. */
  lemma {:induction false} SubmissionReaches(s: State, t: nat, i: nat, owner: nat, h: nat) returns (inside: State, done: State)
    requires s.gate == None && t != PNP && At(s, t) == Idle && i < SLOTS && s.powered && !s.stopping
    requires s.slots[i].state == Active && s.slots[i].owner == owner && s.slots[i].vhf == Some(h) && t !in s.slots[i].users
    ensures Reaches(s, inside) && At(inside, t) == SubmitIn(i, h) && t in inside.slots[i].users
    ensures Reaches(inside, done) && Returned(s, done, t) && done.slots == s.slots && done.deleted == s.deleted
  {
    var s1 := Go(s, t, SubmitGate(i, owner)).(gate := Some(t));
    assert SubmitLock(s, s1, t, i, owner);
    ReachesItself(s);
    ByReport(s, s, s1, t);
    var s2 := Go(s1, t, SubmitChecked(i));
    assert SubmitCheck(s1, s2, t);
    ByReport(s, s1, s2, t);
    inside := With(Go(s2, t, SubmitIn(i, h)), i, Enter(s.slots[i], t));
    assert SubmitTake(s2, inside, t, true);
    ByReport(s, s2, inside, t);
    done := SubmissionReturns(inside, t, i, h);
    assert Leave(Enter(s.slots[i], t), t) == s.slots[i] && done.slots == s.slots;
    assert done.threads == s.threads[t := Idle];
  }

  lemma {:induction false} SubmissionReturns(inside: State, t: nat, i: nat, h: nat) returns (done: State)
    requires i < SLOTS && At(inside, t) == SubmitIn(i, h)
    ensures Reaches(inside, done)
    ensures done == inside.(gate := None, threads := inside.threads[t := Idle], slots := inside.slots[i := Leave(inside.slots[i], t)])
  {
    var s4 := With(Go(inside, t, Release), i, Leave(inside.slots[i], t));
    assert SubmitDone(inside, s4, t);
    ReachesItself(inside);
    ByReport(inside, inside, s4, t);
    done := Go(s4, t, Idle).(gate := None);
    ByUnlock(inside, s4, done, t);
    assert done.threads == inside.threads[t := Idle];
  }

  /** A readiness callback on a live handle can hand over a report of its own, and needs
      no gate for it. */
  lemma {:induction false} CallbackHandsOver(s: State, t: nat, h: nat, g: nat) returns (inside: State)
    requires t != PNP && At(s, t) == Idle && h in s.home && h in s.started && h !in s.deleted && s.home[h] < SLOTS
    requires s.powered && !s.stopping && s.slots[s.home[h]].vhf == Some(g)
    requires s.slots[s.home[h]].state == Starting || s.slots[s.home[h]].state == Active
    ensures Reaches(s, inside) && At(inside, t) == CallbackIn(s.home[h], h, g) && inside.gate == s.gate
    ensures t in inside.slots[s.home[h]].users
  {
    var i := s.home[h];
    var s1 := Go(s, t, Callback(i, h));
    assert CallbackEnter(s, s1, t, h);
    ReachesItself(s);
    ByReport(s, s, s1, t);
    inside := With(Go(s1, t, CallbackIn(i, h, g)), i, Enter(s.slots[i], t));
    assert CallbackTake(s1, inside, t);
    ByReport(s, s1, inside, t);
  }

  // ----- Power ------------------------------------------------------------

  /** D0 entry gives the device power and prepare hardware ends a stop, each without
      touching any slot. */
  lemma {:induction false} PowerComes(s: State) returns (powered: State, prepared: State)
    requires s.gate == None && At(s, PNP) == Idle
    ensures Reaches(s, powered) && Returned(s, powered.(powered := s.powered), PNP) && powered.powered && powered.slots == s.slots
    ensures Reaches(powered, prepared) && Returned(powered, prepared.(stopping := powered.stopping), PNP)
    ensures prepared.powered && !prepared.stopping && prepared.slots == s.slots
  {
    var s1 := Go(s, PNP, EntryGate).(gate := Some(PNP));
    var s2 := Go(s1, PNP, Release).(powered := true);
    powered := Go(s2, PNP, Idle).(gate := None);
    ReachesItself(s);
    ByPower(s, s, s1);
    ByPower(s, s1, s2);
    ByUnlock(s, s2, powered, PNP);
    assert powered.threads == s.threads[PNP := Idle];
    prepared := Prepared(powered);
  }

  lemma {:induction false} Prepared(s: State) returns (prepared: State)
    requires s.gate == None && At(s, PNP) == Idle
    ensures Reaches(s, prepared) && prepared == s.(stopping := false, threads := s.threads[PNP := Idle])
  {
    var s1 := Go(s, PNP, PrepareGate).(gate := Some(PNP));
    var s2 := Go(s1, PNP, Release).(stopping := false);
    prepared := Go(s2, PNP, Idle).(gate := None);
    ReachesItself(s);
    ByPower(s, s, s1);
    ByPower(s, s1, s2);
    ByUnlock(s, s2, prepared, PNP);
    assert prepared.threads == s.threads[PNP := Idle];
  }

  /** No slot is in use and every handle is deleted. */
  ghost predicate Nothing(s: State) {
    && (forall i :: 0 <= i < SLOTS ==> s.slots[i].state == Empty && s.slots[i].users == {})
    && (forall h: nat :: h in s.home ==> h in s.deleted)
  }

  /** A device stop ends with every slot empty and no handle undeleted. */
  lemma {:induction false} StopLeavesNothing(run: seq<State>, k: nat)
    requires IsRun(run) && k + 1 < |run| && StopDone(run[k], run[k + 1])
    ensures Nothing(run[k + 1])
  {
    var s := run[k];
    RunInv(run, k);
    assert ThreadOk(s, PNP);
    forall i | 0 <= i < SLOTS ensures s.slots[i].state == Empty && s.slots[i].users == {} && Held(s, i) == None {
      assert SlotOk(s, i);
    }
    forall h: nat | h in s.home ensures h in s.deleted { assert HandleOk(s, h); }
  }
}
