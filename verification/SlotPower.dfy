/** What a power-down or a device stop holds until it is taken back: the flags they set,
    and that no controller starts or is active meanwhile. */
module SlotPower {
  import opened Ring
  import opened SlotLifecycle
  import opened SlotInvariant
  import opened SlotSteps
  import opened SlotSafety

  /** Power comes only with a D0 entry, and a stop ends only with prepare hardware. */
  predicate FlagsKept(s: State, s': State) {
    && (s'.powered && !s.powered ==> Entry(s, s'))
    && (s.stopping && !s'.stopping ==> Prepare(s, s'))
  }

  lemma {:induction false} CreateFlags(s: State, s': State, t: nat)
    requires CreateStep(s, s', t)
    ensures s'.powered == s.powered && s'.stopping == s.stopping
  {}

  lemma {:induction false} DestroyFlags(s: State, s': State, t: nat)
    requires DestroyStep(s, s', t)
    ensures s'.powered == s.powered && s'.stopping == s.stopping
  {}

  lemma {:induction false} ReportFlags(s: State, s': State, t: nat)
    requires ReportStep(s, s', t)
    ensures s'.powered == s.powered && s'.stopping == s.stopping
  {}

  lemma {:induction false} DownFlags(s: State, s': State)
    requires DownStep(s, s')
    ensures (s'.powered ==> s.powered) && s'.stopping == s.stopping
  {}

  lemma {:induction false} StopFlags(s: State, s': State)
    requires StopStep(s, s')
    ensures (s'.powered ==> s.powered) && (s.stopping ==> s'.stopping)
  {}

  lemma {:induction false} NextFlags(s: State, s': State)
    requires Next(s, s')
    ensures FlagsKept(s, s')
  {
    if t :| CreateStep(s, s', t) {
      CreateFlags(s, s', t);
    } else if t :| DestroyStep(s, s', t) {
      DestroyFlags(s, s', t);
    } else if t :| ReportStep(s, s', t) {
      ReportFlags(s, s', t);
    } else if DownStep(s, s') {
      DownFlags(s, s');
    } else if StopStep(s, s') {
      StopFlags(s, s');
    }
  }

  lemma {:induction false} RunFlags(run: seq<State>, k: nat)
    requires IsRun(run) && k + 1 < |run|
    ensures run[k + 1].powered && !run[k].powered ==> Enters(run, k)
    ensures run[k].stopping && !run[k + 1].stopping ==> Prepares(run, k)
  {
    assert StepAt(run, k);
    NextFlags(run[k], run[k + 1]);
  }

  predicate Enters(run: seq<State>, m: nat) { m + 1 < |run| && Entry(run[m], run[m + 1]) }

  predicate Prepares(run: seq<State>, m: nat) { m + 1 < |run| && Prepare(run[m], run[m + 1]) }

  /** A power-down or stop takes the power away, and only a D0 entry gives it back. */
  lemma {:induction false} OffUntilEntry(run: seq<State>, j: nat, k: nat)
    requires IsRun(run) && j < k < |run| && (DownFlag(run[j], run[j + 1]) || StopFlag(run[j], run[j + 1]))
    requires forall m: nat :: j < m < k ==> !Enters(run, m)
    ensures !run[k].powered
    decreases k
  {
    if k > j + 1 {
      OffUntilEntry(run, j, k - 1);
      RunFlags(run, k - 1);
      assert !Enters(run, k - 1);
    }
  }

  /** A stop marks the device as stopping, and only prepare hardware takes that back. */
  lemma {:induction false} StoppingUntilPrepared(run: seq<State>, j: nat, k: nat)
    requires IsRun(run) && j < k < |run| && StopFlag(run[j], run[j + 1])
    requires forall m: nat :: j < m < k ==> !Prepares(run, m)
    ensures run[k].stopping
    decreases k
  {
    if k > j + 1 {
      StoppingUntilPrepared(run, j, k - 1);
      RunFlags(run, k - 1);
      assert !Prepares(run, k - 1);
    }
  }

  /** From the end of a stop's callback until prepare hardware, whatever power does in
      between, no slot starts or is active; and from the end of a power-down's until
      a D0 entry. */
  lemma {:induction false} StillUntilTakenBack(run: seq<State>, j: nat, d: nat, k: nat, i: nat)
    requires IsRun(run) && j < d <= k < |run| && i < SLOTS && At(run[d], PNP) == Idle
    requires
      || (StopFlag(run[j], run[j + 1]) && forall m: nat :: j < m < k ==> !Prepares(run, m))
      || (DownFlag(run[j], run[j + 1]) && forall m: nat :: j < m < k ==> !Enters(run, m))
    ensures Still(run[k].slots[i])
  {
    forall m | d <= m <= k ensures !run[m].powered || run[m].stopping {
      if StopFlag(run[j], run[j + 1]) && forall n: nat :: j < n < k ==> !Prepares(run, n) {
        StoppingUntilPrepared(run, j, m);
      } else {
        OffUntilEntry(run, j, m);
      }
    }
    StillUntilPowered(run, d, k, i);
  }
}
