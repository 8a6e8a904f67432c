/** Whose controller a report submission reaches: a file's input, touch, motion and
    battery reports go to a controller it owns, and to no other. */
module SlotOwners {
  import opened Ring
  import opened SlotLifecycle
  import opened SlotInvariant
  import opened SlotSteps

  /** From taking the gate to giving it back. */
  predicate Submitting(pc: Pc) { pc.SubmitGate? || pc.SubmitChecked? || pc.SubmitIn? || pc.Release? }

  /** Thread `t` begins a submission on slot `i` for `owner` at step `j`, and has not
      given the gate back at `k`. */
  ghost predicate Submission(run: seq<State>, j: nat, k: nat, t: nat, i: nat, owner: nat) {
    && IsRun(run) && j < k < |run|
    && SubmitLock(run[j], run[j + 1], t, i, owner)
    && forall m {:trigger run[m]} :: j < m <= k ==> Submitting(At(run[m], t))
  }

  // ----- Nobody else changes the slots' owners ----------------------------

  /** Without the gate a thread changes no slot's owner, and no other thread's place. */
  ghost predicate Bystander(s: State, s': State, t: nat) {
    At(s', t) == At(s, t) && forall i :: 0 <= i < SLOTS ==> s'.slots[i].owner == s.slots[i].owner
  }

  lemma {:induction false} OthersWait(s: State, t: nat, u: nat)
    requires Inv(s) && s.gate == Some(t) && u != t
    ensures !HoldsGate(At(s, u))
  {
    assert ThreadOk(s, u);
  }

  lemma {:induction false} CreateElsewhere(s: State, s': State, t: nat, u: nat)
    requires Inv(s) && s.gate == Some(t) && u != t && CreateStep(s, s', u)
    ensures Bystander(s, s', t)
  {
    OthersWait(s, t, u);
  }

  /** Every step of a destroy takes the gate or has it. */
  lemma {:induction false} DestroyHasGate(s: State, s': State, u: nat)
    requires Inv(s) && DestroyStep(s, s', u)
    ensures s.gate == None || s.gate == Some(u)
  {
    assert ThreadOk(s, u);
  }

  lemma {:induction false} WorkerElsewhere(s: State, s': State, t: nat, u: nat)
    requires u != t && ((exists picks :: WorkerTick(s, s', u, picks)) || (exists i :: WorkerDone(s, s', u, i)))
    ensures Bystander(s, s', t)
  {}

  lemma {:induction false} ReportElsewhere(s: State, s': State, t: nat, u: nat)
    requires Inv(s) && s.gate == Some(t) && u != t && ReportStep(s, s', u)
    ensures Bystander(s, s', t)
  {
    OthersWait(s, t, u);
    if (exists picks :: WorkerTick(s, s', u, picks)) || (exists i :: WorkerDone(s, s', u, i)) {
      WorkerElsewhere(s, s', t, u);
    }
  }

  lemma {:induction false} PnpElsewhere(s: State, s': State, t: nat)
    requires Inv(s) && s.gate == Some(t) && t != PNP && (DownStep(s, s') || StopStep(s, s') || PowerStep(s, s'))
    ensures Bystander(s, s', t)
  {
    OthersWait(s, t, PNP);
  }

  // ----- The submission's own steps ---------------------------------------

  /** The submission has been admitted only if the slot is its owner's, and reports
      go to the slot's own handle. */
  predicate Rightful(s: State, t: nat, i: nat, owner: nat)
    requires i < SLOTS
  {
    && t != PNP && s.gate == Some(t)
    && match At(s, t)
       case SubmitGate(j, o) => j == i && o == owner
       case SubmitChecked(j) => j == i && s.slots[i].owner == owner
       case SubmitIn(j, h) => j == i && s.slots[i].owner == owner && s.slots[i].vhf == Some(h)
       case _ => At(s, t) == Release
  }

  lemma {:induction false} OwnStep(s: State, s': State, t: nat, i: nat, owner: nat)
    requires Inv(s) && i < SLOTS && Rightful(s, t, i, owner) && Submitting(At(s', t))
    requires CreateStep(s, s', t) || DestroyStep(s, s', t) || ReportStep(s, s', t)
    ensures Rightful(s', t, i, owner) && forall j :: 0 <= j < SLOTS ==> s'.slots[j].owner == s.slots[j].owner
  {}

  lemma {:induction false} ElseStep(s: State, s': State, t: nat, i: nat, owner: nat)
    requires Inv(s) && Inv(s') && i < SLOTS && Rightful(s, t, i, owner) && Bystander(s, s', t) && Submitting(At(s', t))
    ensures Rightful(s', t, i, owner)
  {
    assert ThreadOk(s', t) && UseOk(s', t, i) && SlotOk(s', i);
  }

  lemma {:induction false} RightfulNext(s: State, s': State, t: nat, i: nat, owner: nat)
    requires Inv(s) && Inv(s') && Next(s, s') && i < SLOTS && Rightful(s, t, i, owner) && Submitting(At(s', t))
    ensures Rightful(s', t, i, owner) && forall j :: 0 <= j < SLOTS ==> s'.slots[j].owner == s.slots[j].owner
  {
    if CreateStep(s, s', t) || DestroyStep(s, s', t) || ReportStep(s, s', t) {
      OwnStep(s, s', t, i, owner);
    } else {
      if u :| CreateStep(s, s', u) {
        CreateElsewhere(s, s', t, u);
      } else if u :| DestroyStep(s, s', u) {
        DestroyHasGate(s, s', u);
      } else if u :| ReportStep(s, s', u) {
        ReportElsewhere(s, s', t, u);
      } else {
        PnpElsewhere(s, s', t);
      }
      ElseStep(s, s', t, i, owner);
    }
  }

  lemma {:induction false} RunRightful(run: seq<State>, k: nat, t: nat, i: nat, owner: nat)
    requires IsRun(run) && k + 1 < |run| && i < SLOTS && Rightful(run[k], t, i, owner) && Submitting(At(run[k + 1], t))
    ensures Rightful(run[k + 1], t, i, owner) && forall n :: 0 <= n < SLOTS ==> run[k + 1].slots[n].owner == run[k].slots[n].owner
  {
    RunInv(run, k);
    RunInv(run, k + 1);
    assert StepAt(run, k);
    RightfulNext(run[k], run[k + 1], t, i, owner);
  }

  lemma {:induction false} SubmissionRightful(run: seq<State>, j: nat, k: nat, t: nat, i: nat, owner: nat)
    requires Submission(run, j, k, t, i, owner)
    ensures i < SLOTS && Rightful(run[k], t, i, owner)
    ensures forall n :: 0 <= n < SLOTS ==> run[k].slots[n].owner == run[j].slots[n].owner
    decreases k
  {
    if k > j + 1 {
      assert Submitting(At(run[k], t));
      SubmissionRightful(run, j, k - 1, t, i, owner);
      RunRightful(run, k - 1, t, i, owner);
    }
  }

  // ----- The results ------------------------------------------------------

  /** A report that is being handed to VHF goes to the handle of a slot that belongs
      to the file it came from, and belonged to it when the submission began. */
  lemma {:induction false} ReportsReachOwnController(run: seq<State>, j: nat, k: nat, t: nat, i: nat, owner: nat)
    requires Submission(run, j, k, t, i, owner) && At(run[k], t).SubmitIn?
    ensures At(run[k], t).slot == i < SLOTS && run[k].slots[i].owner == run[j].slots[i].owner == owner
    ensures run[k].slots[i].vhf == Some(At(run[k], t).handle) && run[k].slots[i].state == Active
  {
    SubmissionRightful(run, j, k, t, i, owner);
    RunInv(run, k);
    assert SlotOk(run[k], i);
  }

  /** A submission begun for anyone but the slot's owner gives the gate back without
      ever having been inside any slot. */
  lemma {:induction false} StrangersNeverEnter(run: seq<State>, j: nat, k: nat, t: nat, i: nat, owner: nat, n: nat)
    requires Submission(run, j, k, t, i, owner) && n < SLOTS && run[j].slots[i].owner != owner
    ensures t !in run[k].slots[n].users
  {
    SubmissionRightful(run, j, k, t, i, owner);
    RunInv(run, k);
    assert UseOk(run[k], t, n);
  }

  /** And it is refused for no other reason than these: while it has been neither
      admitted nor refused, its next step admits it exactly when the slot is the
      file's and active, on a device that is not stopping. */
  lemma {:induction false} AdmittedExactly(run: seq<State>, j: nat, k: nat, t: nat, i: nat, owner: nat)
    requires Submission(run, j, k, t, i, owner) && k + 1 < |run| && At(run[k], t).SubmitGate? && At(run[k + 1], t) != At(run[k], t)
    ensures At(run[k + 1], t) == SubmitChecked(i) <==>
      run[j].slots[i].owner == owner && run[k].slots[i].state == Active && !run[k].stopping
    ensures At(run[k + 1], t) == SubmitChecked(i) || At(run[k + 1], t) == Release
  {
    SubmissionRightful(run, j, k, t, i, owner);
    RunInv(run, k);
    assert StepAt(run, k) && SlotOk(run[k], i);
    GateStep(run[k], run[k + 1], t, i, owner);
  }

  lemma {:induction false} OwnGateStep(s: State, s': State, t: nat, i: nat, owner: nat)
    requires At(s, t) == SubmitGate(i, owner) && (CreateStep(s, s', t) || DestroyStep(s, s', t) || ReportStep(s, s', t))
    requires s.gate == Some(t)
    ensures SubmitCheck(s, s', t)
  {}

  lemma {:induction false} GateStep(s: State, s': State, t: nat, i: nat, owner: nat)
    requires Inv(s) && i < SLOTS && Next(s, s') && At(s, t) == SubmitGate(i, owner) && t != PNP && s.gate == Some(t)
    requires At(s', t) != At(s, t)
    ensures SubmitCheck(s, s', t)
  {
    if CreateStep(s, s', t) || DestroyStep(s, s', t) || ReportStep(s, s', t) {
      OwnGateStep(s, s', t, i, owner);
    } else if u :| CreateStep(s, s', u) {
      CreateElsewhere(s, s', t, u);
    } else if u :| DestroyStep(s, s', u) {
      DestroyHasGate(s, s', u);
    } else if u :| ReportStep(s, s', u) {
      ReportElsewhere(s, s', t, u);
    } else {
      PnpElsewhere(s, s', t);
    }
  }

  // ----- Nothing is submitted without power -------------------------------

  /** Thread `t` comes to be inside slot `i` only with power and on a live slot. */
  predicate EntersPowered(s: State, s': State, t: nat, i: nat)
    requires i < SLOTS
  {
    t !in s.slots[i].users && t in s'.slots[i].users ==>
      && s.powered && !s.stopping && (s.slots[i].state == Starting || s.slots[i].state == Active)
      && s.slots[i].vhf.Some? && s'.slots[i].vhf == s.slots[i].vhf
  }

  lemma {:induction false} CreateEnters(s: State, s': State, t: nat, u: nat, i: nat)
    requires i < SLOTS && CreateStep(s, s', u)
    ensures EntersPowered(s, s', t, i)
  {}

  lemma {:induction false} DestroyEnters(s: State, s': State, t: nat, u: nat, i: nat)
    requires i < SLOTS && DestroyStep(s, s', u)
    ensures EntersPowered(s, s', t, i)
  {}

  lemma {:induction false} DownEnters(s: State, s': State, t: nat, i: nat)
    requires i < SLOTS && DownStep(s, s')
    ensures EntersPowered(s, s', t, i)
  {}

  lemma {:induction false} StopEnters(s: State, s': State, t: nat, i: nat)
    requires i < SLOTS && (StopStep(s, s') || PowerStep(s, s'))
    ensures EntersPowered(s, s', t, i)
  {}

  lemma {:induction false} WorkerEnters(s: State, s': State, t: nat, u: nat, i: nat)
    requires i < SLOTS && ((exists picks :: WorkerTick(s, s', u, picks)) || (exists j :: WorkerDone(s, s', u, j)))
    ensures EntersPowered(s, s', t, i)
  {}

  lemma {:induction false} ReportEnters(s: State, s': State, t: nat, u: nat, i: nat)
    requires i < SLOTS && ReportStep(s, s', u)
    ensures EntersPowered(s, s', t, i)
  {
    if (exists picks :: WorkerTick(s, s', u, picks)) || (exists j :: WorkerDone(s, s', u, j)) {
      WorkerEnters(s, s', t, u, i);
    }
  }

  lemma {:induction false} NextEnters(s: State, s': State, t: nat, i: nat)
    requires Next(s, s') && i < SLOTS
    ensures EntersPowered(s, s', t, i)
  {
    if u :| CreateStep(s, s', u) {
      CreateEnters(s, s', t, u, i);
    } else if u :| DestroyStep(s, s', u) {
      DestroyEnters(s, s', t, u, i);
    } else if u :| ReportStep(s, s', u) {
      ReportEnters(s, s', t, u, i);
    } else if DownStep(s, s') {
      DownEnters(s, s', t, i);
    } else {
      StopEnters(s, s', t, i);
    }
  }

  /** In every run a thread comes to be inside a slot only while the device has power,
      is not stopping, and the slot is starting or active, on the slot's own handle. */
  lemma {:induction false} EntersOnlyWithPower(run: seq<State>, k: nat, t: nat, i: nat)
    requires IsRun(run) && k + 1 < |run| && i < SLOTS
    requires t !in run[k].slots[i].users && t in run[k + 1].slots[i].users
    ensures run[k].powered && !run[k].stopping && (run[k].slots[i].state == Starting || run[k].slots[i].state == Active)
    ensures run[k].slots[i].vhf.Some? && run[k].slots[i].vhf == Inside(At(run[k + 1], t), i)
  {
    RunInv(run, k + 1);
    assert UseOk(run[k + 1], t, i) && StepAt(run, k);
    NextEnters(run[k], run[k + 1], t, i);
  }

  // ----- When a create goes through ---------------------------------------

  /** A create goes on to reserving its slot only from a device with power that is not
      stopping and a slot that is empty, or was lost by the same owner. */
  lemma {:induction false} ChecksExactly(s: State, s': State, t: nat, i: nat, owner: nat, profile: nat)
    requires CreateCheck(s, s', t, i, owner, profile)
    ensures At(s', t).CreateChecked? <==>
      s.powered && !s.stopping && (s.slots[i].state == Empty || (s.slots[i].state == Lost && s.slots[i].owner == owner))
    ensures !At(s', t).CreateChecked? ==> s' == s
  {}

  /** It reserves the slot exactly when power is still there, the device is not stopping, no
      child is present, and nothing at all has happened to the slot since that check. */
  lemma {:induction false} ReservesExactly(run: seq<State>, k: nat, t: nat, childPresent: bool)
    requires IsRun(run) && k + 1 < |run| && CreateReserve(run[k], run[k + 1], t, childPresent)
    ensures var c, s, s' := At(run[k], t), run[k], run[k + 1];
      && c.slot < SLOTS
      && (At(s', t).CreateReserved? <==> s.powered && !s.stopping && !childPresent && s.slots[c.slot] == c.seen)
      && (if At(s', t).CreateReserved?
          then s'.slots[c.slot] == Slot(c.seen.generation + 1, None, c.owner, c.profile, Starting, 0, {})
          else s'.slots == s.slots)
  {
    RunInv(run, k);
    assert ThreadOk(run[k], t);
  }

  /** It is adopted exactly when its child started, power is there and the device is not
      stopping; else the slot gives up its handle, which goes on to be deleted. */
  lemma {:induction false} AdoptsExactly(run: seq<State>, k: nat, t: nat, startSucceeded: bool)
    requires IsRun(run) && k + 1 < |run| && CreateAdopt(run[k], run[k + 1], t, startSucceeded)
    ensures var c, s, s' := At(run[k], t), run[k], run[k + 1];
      && c.slot < SLOTS && s.slots[c.slot].vhf == Some(c.handle)
      && (s'.slots[c.slot].state == Active <==> startSucceeded && s.powered && !s.stopping)
      && (s'.slots[c.slot].state != Active ==> s'.slots[c.slot].vhf == None && At(s', t) == CreateDelete(c.slot, c.owner, c.handle))
      && (s'.slots[c.slot].state == Active ==> s'.slots[c.slot].vhf == Some(c.handle) && s'.slots[c.slot].owner == c.owner)
  {
    RunInv(run, k);
    assert ThreadOk(run[k], t) && SlotOk(run[k], At(run[k], t).slot);
  }
}
