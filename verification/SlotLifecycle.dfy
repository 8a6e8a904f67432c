/** The controller-slot lifecycle as a transition system. Every critical section
    under the state lock is one atomic step of one thread, a thread's program
    counter says where it stands between two of them, and the lifetime gate is
    the outer lock. VHF handles are explicit: which slot one was created for,
    whether it was started, and whether VhfDelete has returned for it.

    What the model asks of its environment: VhfDelete returns only when no
    callback on that handle is running, VHF enters callbacks only on a started
    handle whose deletion has not returned, and the framework runs one power or
    plug-and-play callback at a time (thread `PNP`). */
module SlotLifecycle {
  import opened Ring

  const SLOTS := 16
  const PNP: nat := 0

  datatype SlotState = Empty | Starting | Active | Stopping | Lost

  /** `users` are the threads inside a report submission on this slot; `inFlight`
      is the counter the driver keeps for them. */
  datatype Slot = Slot(
    generation: nat,
    vhf: Option<nat>,
    owner: nat,
    profile: nat,
    state: SlotState,
    inFlight: int,
    users: set<nat>)

  type Slots = s: seq<Slot> | |s| == SLOTS witness seq(SLOTS, _ => Slot(0, None, 0, 0, Empty, 0, {}))

  datatype Pc =
    | Idle
    | Release
    // create_controller: checked without the gate, then reserving, creating,
    // starting and, when not adopted, deleting under it
    | CreateChecked(slot: nat, owner: nat, profile: nat, seen: Slot)
    | CreateGate(slot: nat, owner: nat, profile: nat, seen: Slot)
    | CreateReserved(slot: nat, owner: nat)
    | CreateMade(slot: nat, owner: nat, handle: nat)
    | CreateStart(slot: nat, owner: nat, handle: nat)
    | CreateDelete(slot: nat, owner: nat, handle: nat)
    | CreateRelease(slot: nat, owner: nat)
    // destroy_owned_controller
    | DestroyGate(slot: nat, owner: nat)
    | DestroyWait(slot: nat, owner: nat, handle: nat)
    | DestroyDelete(slot: nat, owner: nat, handle: nat)
    | DestroyFinish(slot: nat, owner: nat)
    // an input, touch, motion or battery IOCTL
    | SubmitGate(slot: nat, owner: nat)
    | SubmitChecked(slot: nat)
    | SubmitIn(slot: nat, handle: nat)
    // a VHF callback on `handle`, outside and inside a submission of its own
    | Callback(slot: nat, handle: nat)
    | CallbackIn(slot: nat, handle: nat, captured: nat)
    // the keep-alive worker with the submissions it captured in one tick
    | WorkerIn(pending: map<nat, nat>)
    // power_down_controllers
    | DownFlagged
    | DownGate
    | DownTaken(taken: map<nat, nat>, was: Slots)
    | DownDrain(taken: map<nat, nat>, was: Slots, pos: nat)
    | DownDelete(taken: map<nat, nat>, was: Slots, pos: nat)
    // stop_owned_controllers
    | StopFlagged
    | StopGate
    | StopMarked
    | StopDrain(taken: map<nat, nat>, pos: nat)
    | StopDelete(taken: map<nat, nat>, pos: nat)
    | StopReset(taken: map<nat, nat>, pos: nat)
    // D0 entry and prepare hardware
    | EntryGate
    | PrepareGate

  datatype State = State(
    gate: Option<nat>,
    powered: bool,
    stopping: bool,
    slots: Slots,
    home: map<nat, nat>,
    started: set<nat>,
    deleted: set<nat>,
    threads: map<nat, Pc>)

  function At(s: State, t: nat): Pc { if t in s.threads then s.threads[t] else Idle }

  function Go(s: State, t: nat, pc: Pc): State { s.(threads := s.threads[t := pc]) }

  function With(s: State, i: nat, slot: Slot): State
    requires i < SLOTS
  {
    s.(slots := s.slots[i := slot])
  }

  predicate Init(s: State) {
    && s.gate == None && !s.powered && !s.stopping
    && s.home == map[] && s.started == {} && s.deleted == {} && s.threads == map[]
    && forall i :: 0 <= i < SLOTS ==> s.slots[i] == Slot(0, None, 0, 0, Empty, 0, {})
  }

  // ----- The pieces of code steps are made of -----------------------------

  /** reset_slot: everything is zeroed but the generation, which moves on. */
  function Reset(slot: Slot): Slot { Slot(slot.generation + 1, None, 0, 0, Empty, 0, {}) }

  predicate Available(slot: Slot, owner: nat) {
    slot.state == Empty || (slot.state == Lost && slot.owner == owner)
  }

  predicate Accepts(s: State, i: nat)
    requires i < SLOTS
  {
    !s.stopping && s.powered && s.slots[i].vhf.Some? && (s.slots[i].state == Starting || s.slots[i].state == Active)
  }

  function Enter(slot: Slot, t: nat): Slot { slot.(inFlight := slot.inFlight + 1, users := slot.users + {t}) }

  function Leave(slot: Slot, t: nat): Slot { slot.(inFlight := slot.inFlight - 1, users := slot.users - {t}) }

  ghost predicate NoCallbacks(s: State, h: nat) {
    forall t :: !((At(s, t).Callback? || At(s, t).CallbackIn?) && At(s, t).handle == h)
  }

  predicate Acquire(s: State, s': State, t: nat, pc: Pc) {
    s.gate == None && s' == Go(s, t, pc).(gate := Some(t))
  }

  // ----- create_controller ------------------------------------------------

  predicate CreateCheck(s: State, s': State, t: nat, i: nat, owner: nat, profile: nat) {
    && t != PNP && At(s, t) == Idle && i < SLOTS && owner != 0
    && s' == if s.stopping || !s.powered || !Available(s.slots[i], owner) then s
             else Go(s, t, CreateChecked(i, owner, profile, s.slots[i]))
  }

  predicate CreateLock(s: State, s': State, t: nat) {
    At(s, t).CreateChecked? && Acquire(s, s', t, var c := At(s, t); CreateGate(c.slot, c.owner, c.profile, c.seen))
  }

  predicate CreateReserve(s: State, s': State, t: nat, childPresent: bool) {
    var c := At(s, t);
    && c.CreateGate? && c.slot < SLOTS
    && var slot := s.slots[c.slot];
       s' == if s.stopping || !s.powered || !Available(slot, c.owner) || slot.generation != c.seen.generation || childPresent
             then Go(s, t, Release)
             else With(Go(s, t, CreateReserved(c.slot, c.owner)), c.slot,
                       Reset(slot).(owner := c.owner, profile := c.profile, state := Starting))
  }

  /** Opening the target or VhfCreate failed. */
  predicate CreateFail(s: State, s': State, t: nat) {
    At(s, t).CreateReserved? && s' == Go(s, t, CreateRelease(At(s, t).slot, At(s, t).owner))
  }

  predicate CreateMake(s: State, s': State, t: nat, h: nat) {
    var c := At(s, t);
    c.CreateReserved? && h !in s.home && s' == Go(s, t, CreateMade(c.slot, c.owner, h)).(home := s.home[h := c.slot])
  }

  predicate CreatePublish(s: State, s': State, t: nat) {
    var c := At(s, t);
    && c.CreateMade? && c.slot < SLOTS
    && s' == With(Go(s, t, CreateStart(c.slot, c.owner, c.handle)), c.slot, s.slots[c.slot].(vhf := Some(c.handle)))
               .(started := s.started + {c.handle})
  }

  predicate CreateAdopt(s: State, s': State, t: nat, startSucceeded: bool) {
    var c := At(s, t);
    && c.CreateStart? && c.slot < SLOTS
    && var slot := s.slots[c.slot];
       s' == if startSucceeded && !s.stopping && s.powered && slot.owner == c.owner && slot.state == Starting
             then With(Go(s, t, Release), c.slot, slot.(state := Active))
             else With(Go(s, t, CreateDelete(c.slot, c.owner, c.handle)), c.slot, slot.(state := Stopping, vhf := None))
  }

  ghost predicate CreateDeleted(s: State, s': State, t: nat) {
    var c := At(s, t);
    && c.CreateDelete? && NoCallbacks(s, c.handle)
    && s' == Go(s, t, CreateRelease(c.slot, c.owner)).(deleted := s.deleted + {c.handle})
  }

  predicate CreateReset(s: State, s': State, t: nat) {
    var c := At(s, t);
    && c.CreateRelease? && c.slot < SLOTS
    && var slot := s.slots[c.slot];
       s' == if slot.owner == c.owner && (slot.state == Starting || slot.state == Stopping)
             then With(Go(s, t, Release), c.slot, Reset(slot)) else Go(s, t, Release)
  }

  predicate Unlock(s: State, s': State, t: nat) {
    At(s, t) == Release && s' == Go(s, t, Idle).(gate := None)
  }

  // ----- destroy_owned_controller -----------------------------------------

  predicate DestroyLock(s: State, s': State, t: nat, i: nat, owner: nat) {
    t != PNP && At(s, t) == Idle && i < SLOTS && Acquire(s, s', t, DestroyGate(i, owner))
  }

  function DestroyMarkSlot(slot: Slot, owner: nat): Slot {
    if slot.owner != owner || slot.state == Empty then slot
    else if slot.state == Starting then slot.(state := Stopping)
    else if slot.state == Lost then Reset(slot)
    else slot.(state := Stopping, vhf := None)
  }

  function DestroyMarkPc(slot: Slot, i: nat, owner: nat): Pc {
    if slot.owner != owner || slot.state == Empty || slot.state == Starting || slot.state == Lost then Release
    else if slot.vhf.Some? then DestroyWait(i, owner, slot.vhf.value)
    else DestroyFinish(i, owner)
  }

  predicate DestroyMark(s: State, s': State, t: nat) {
    var c := At(s, t);
    && c.DestroyGate? && c.slot < SLOTS
    && var slot := s.slots[c.slot];
       s' == With(Go(s, t, DestroyMarkPc(slot, c.slot, c.owner)), c.slot, DestroyMarkSlot(slot, c.owner))
  }

  predicate DestroyDrained(s: State, s': State, t: nat) {
    var c := At(s, t);
    && c.DestroyWait? && c.slot < SLOTS && s.slots[c.slot].inFlight == 0
    && s' == Go(s, t, DestroyDelete(c.slot, c.owner, c.handle))
  }

  ghost predicate DestroyDeleted(s: State, s': State, t: nat) {
    var c := At(s, t);
    && c.DestroyDelete? && NoCallbacks(s, c.handle)
    && s' == Go(s, t, DestroyFinish(c.slot, c.owner)).(deleted := s.deleted + {c.handle})
  }

  predicate DestroyReset(s: State, s': State, t: nat) {
    var c := At(s, t);
    && c.DestroyFinish? && c.slot < SLOTS
    && var slot := s.slots[c.slot];
       s' == if slot.owner == c.owner && slot.state == Stopping then With(Go(s, t, Release), c.slot, Reset(slot))
             else Go(s, t, Release)
  }

  // ----- Report submissions -----------------------------------------------

  predicate SubmitLock(s: State, s': State, t: nat, i: nat, owner: nat) {
    t != PNP && At(s, t) == Idle && i < SLOTS && Acquire(s, s', t, SubmitGate(i, owner))
  }

  predicate SubmitCheck(s: State, s': State, t: nat) {
    var c := At(s, t);
    && c.SubmitGate? && c.slot < SLOTS
    && var slot := s.slots[c.slot];
       s' == Go(s, t, if slot.owner == c.owner && !s.stopping && slot.state == Active && slot.vhf.Some?
                      then SubmitChecked(c.slot) else Release)
  }

  /** pump_report: a report is taken when the slot accepts one and the pump has one. */
  predicate SubmitTake(s: State, s': State, t: nat, taken: bool) {
    var c := At(s, t);
    && c.SubmitChecked? && c.slot < SLOTS
    && s' == if taken && Accepts(s, c.slot)
             then With(Go(s, t, SubmitIn(c.slot, s.slots[c.slot].vhf.value)), c.slot, Enter(s.slots[c.slot], t))
             else Go(s, t, Release)
  }

  predicate SubmitDone(s: State, s': State, t: nat) {
    var c := At(s, t);
    c.SubmitIn? && c.slot < SLOTS && s' == With(Go(s, t, Release), c.slot, Leave(s.slots[c.slot], t))
  }

  predicate CallbackEnter(s: State, s': State, t: nat, h: nat) {
    && t != PNP && At(s, t) == Idle && h in s.home && h in s.started && h !in s.deleted
    && s' == Go(s, t, Callback(s.home[h], h))
  }

  predicate CallbackTake(s: State, s': State, t: nat) {
    var c := At(s, t);
    && c.Callback? && c.slot < SLOTS && Accepts(s, c.slot)
    && s' == With(Go(s, t, CallbackIn(c.slot, c.handle, s.slots[c.slot].vhf.value)), c.slot, Enter(s.slots[c.slot], t))
  }

  predicate CallbackDone(s: State, s': State, t: nat) {
    var c := At(s, t);
    c.CallbackIn? && c.slot < SLOTS && s' == With(Go(s, t, Callback(c.slot, c.handle)), c.slot, Leave(s.slots[c.slot], t))
  }

  predicate CallbackReturn(s: State, s': State, t: nat) {
    At(s, t).Callback? && s' == Go(s, t, Idle)
  }

  function EnterAll(slots: Slots, picks: set<nat>, t: nat): (r: Slots)
    ensures forall i :: 0 <= i < SLOTS ==> r[i] == if i in picks then Enter(slots[i], t) else slots[i]
  {
    seq(SLOTS, i requires 0 <= i < SLOTS => if i in picks then Enter(slots[i], t) else slots[i])
  }

  function Captured(slots: Slots, picks: set<nat>): (m: map<nat, nat>)
    requires forall i :: i in picks ==> i < SLOTS && slots[i].vhf.Some?
  {
    map i | i in picks :: slots[i].vhf.value
  }

  /** One tick captures a report for some of the active slots that accept one. */
  predicate WorkerTick(s: State, s': State, t: nat, picks: set<nat>) {
    && t != PNP && At(s, t) == Idle && picks != {}
    && (forall i :: i in picks ==> i < SLOTS && s.slots[i].state == Active && Accepts(s, i))
    && s' == Go(s, t, WorkerIn(Captured(s.slots, picks))).(slots := EnterAll(s.slots, picks, t))
  }

  predicate WorkerDone(s: State, s': State, t: nat, i: nat) {
    var c := At(s, t);
    && c.WorkerIn? && i in c.pending && i < SLOTS
    && s' == With(Go(s, t, if c.pending.Keys == {i} then Idle else WorkerIn(c.pending - {i})), i, Leave(s.slots[i], t))
  }

  // ----- power_down_controllers -------------------------------------------

  predicate DownFlag(s: State, s': State) {
    At(s, PNP) == Idle && s' == Go(s, PNP, DownFlagged).(powered := false)
  }

  predicate DownLock(s: State, s': State) {
    At(s, PNP) == DownFlagged && Acquire(s, s', PNP, DownGate)
  }

  function DownMarkSlot(slot: Slot): Slot {
    if slot.state == Active && slot.vhf.Some? then slot.(state := Stopping) else slot
  }

  function DownMarkAll(slots: Slots): (r: Slots)
    ensures forall i :: 0 <= i < SLOTS ==> r[i] == DownMarkSlot(slots[i])
  {
    seq(SLOTS, i requires 0 <= i < SLOTS => DownMarkSlot(slots[i]))
  }

  function ActiveHandles(slots: Slots): (m: map<nat, nat>)
    ensures forall i: nat :: i in m <==> i < SLOTS && slots[i].state == Active && slots[i].vhf.Some?
    ensures forall i: nat :: i in m ==> slots[i].vhf == Some(m[i])
  {
    map i: nat | i < SLOTS && slots[i].state == Active && slots[i].vhf.Some? :: slots[i].vhf.value
  }

  predicate DownMark(s: State, s': State) {
    && At(s, PNP) == DownGate
    && s' == Go(s, PNP, DownTaken(ActiveHandles(s.slots), s.slots)).(slots := DownMarkAll(s.slots))
  }

  function NullAll(slots: Slots, taken: map<nat, nat>): (r: Slots)
    ensures forall i :: 0 <= i < SLOTS ==> r[i] == if i in taken then slots[i].(vhf := None) else slots[i]
  {
    seq(SLOTS, i requires 0 <= i < SLOTS => if i in taken then slots[i].(vhf := None) else slots[i])
  }

  predicate DownNull(s: State, s': State) {
    var c := At(s, PNP);
    && c.DownTaken?
    && s' == Go(s, PNP, DownDrain(c.taken, c.was, 0)).(slots := NullAll(s.slots, c.taken))
  }

  predicate DownSkip(s: State, s': State) {
    var c := At(s, PNP);
    c.DownDrain? && c.pos < SLOTS && c.pos !in c.taken && s' == Go(s, PNP, DownDrain(c.taken, c.was, c.pos + 1))
  }

  predicate DownDrained(s: State, s': State) {
    var c := At(s, PNP);
    && c.DownDrain? && c.pos < SLOTS && c.pos in c.taken && s.slots[c.pos].inFlight == 0
    && s' == Go(s, PNP, DownDelete(c.taken, c.was, c.pos))
  }

  ghost predicate DownDeleted(s: State, s': State) {
    var c := At(s, PNP);
    && c.DownDelete? && c.pos in c.taken && NoCallbacks(s, c.taken[c.pos])
    && s' == Go(s, PNP, DownDrain(c.taken, c.was, c.pos + 1)).(deleted := s.deleted + {c.taken[c.pos]})
  }

  function LoseSlot(slot: Slot): Slot {
    if slot.state == Stopping then Reset(slot).(owner := slot.owner, profile := slot.profile, state := Lost) else slot
  }

  function LoseAll(slots: Slots, taken: map<nat, nat>): (r: Slots)
    ensures forall i :: 0 <= i < SLOTS ==> r[i] == if i in taken then LoseSlot(slots[i]) else slots[i]
  {
    seq(SLOTS, i requires 0 <= i < SLOTS => if i in taken then LoseSlot(slots[i]) else slots[i])
  }

  predicate DownLose(s: State, s': State) {
    var c := At(s, PNP);
    c.DownDrain? && c.pos == SLOTS && s' == Go(s, PNP, Release).(slots := LoseAll(s.slots, c.taken))
  }

  // ----- stop_owned_controllers -------------------------------------------

  predicate StopFlag(s: State, s': State) {
    At(s, PNP) == Idle && s' == Go(s, PNP, StopFlagged).(stopping := true, powered := false)
  }

  predicate StopLock(s: State, s': State) {
    At(s, PNP) == StopFlagged && Acquire(s, s', PNP, StopGate)
  }

  function StopMarkSlot(slot: Slot): Slot {
    if slot.state == Active || slot.state == Starting then slot.(state := Stopping)
    else if slot.state == Lost then Reset(slot) else slot
  }

  function StopMarkAll(slots: Slots): (r: Slots)
    ensures forall i :: 0 <= i < SLOTS ==> r[i] == StopMarkSlot(slots[i])
  {
    seq(SLOTS, i requires 0 <= i < SLOTS => StopMarkSlot(slots[i]))
  }

  predicate StopMark(s: State, s': State) {
    At(s, PNP) == StopGate && s' == Go(s, PNP, StopMarked).(slots := StopMarkAll(s.slots))
  }

  function StoppingHandles(slots: Slots): (m: map<nat, nat>)
    ensures forall i: nat :: i in m <==> i < SLOTS && slots[i].state == Stopping && slots[i].vhf.Some?
    ensures forall i: nat :: i in m ==> slots[i].vhf == Some(m[i])
  {
    map i: nat | i < SLOTS && slots[i].state == Stopping && slots[i].vhf.Some? :: slots[i].vhf.value
  }

  predicate StopNull(s: State, s': State) {
    && At(s, PNP) == StopMarked
    && var taken := StoppingHandles(s.slots);
       s' == Go(s, PNP, StopDrain(taken, 0)).(slots := NullAll(s.slots, taken))
  }

  predicate StopSkip(s: State, s': State) {
    var c := At(s, PNP);
    c.StopDrain? && c.pos < SLOTS && c.pos !in c.taken && s' == Go(s, PNP, StopDrain(c.taken, c.pos + 1))
  }

  predicate StopDrained(s: State, s': State) {
    var c := At(s, PNP);
    && c.StopDrain? && c.pos < SLOTS && c.pos in c.taken && s.slots[c.pos].inFlight == 0
    && s' == Go(s, PNP, StopDelete(c.taken, c.pos))
  }

  ghost predicate StopDeleted(s: State, s': State) {
    var c := At(s, PNP);
    && c.StopDelete? && c.pos in c.taken && NoCallbacks(s, c.taken[c.pos])
    && s' == Go(s, PNP, StopReset(c.taken, c.pos)).(deleted := s.deleted + {c.taken[c.pos]})
  }

  predicate StopFree(s: State, s': State) {
    var c := At(s, PNP);
    && c.StopReset? && c.pos < SLOTS
    && s' == With(Go(s, PNP, StopDrain(c.taken, c.pos + 1)), c.pos, Reset(s.slots[c.pos]))
  }

  predicate StopDone(s: State, s': State) {
    var c := At(s, PNP);
    c.StopDrain? && c.pos == SLOTS && s' == Go(s, PNP, Release)
  }

  // ----- D0 entry and prepare hardware ------------------------------------

  predicate EntryLock(s: State, s': State) { At(s, PNP) == Idle && Acquire(s, s', PNP, EntryGate) }

  predicate Entry(s: State, s': State) { At(s, PNP) == EntryGate && s' == Go(s, PNP, Release).(powered := true) }

  predicate PrepareLock(s: State, s': State) { At(s, PNP) == Idle && Acquire(s, s', PNP, PrepareGate) }

  predicate Prepare(s: State, s': State) { At(s, PNP) == PrepareGate && s' == Go(s, PNP, Release).(stopping := false) }

  // ----- The system -------------------------------------------------------

  ghost predicate CreateStep(s: State, s': State, t: nat) {
    || (exists i, owner, profile :: CreateCheck(s, s', t, i, owner, profile))
    || CreateLock(s, s', t)
    || CreateReserve(s, s', t, true) || CreateReserve(s, s', t, false)
    || CreateFail(s, s', t)
    || (exists h :: CreateMake(s, s', t, h))
    || CreatePublish(s, s', t)
    || CreateAdopt(s, s', t, true) || CreateAdopt(s, s', t, false)
    || CreateDeleted(s, s', t)
    || CreateReset(s, s', t)
    || Unlock(s, s', t)
  }

  ghost predicate DestroyStep(s: State, s': State, t: nat) {
    || (exists i, owner :: DestroyLock(s, s', t, i, owner))
    || DestroyMark(s, s', t) || DestroyDrained(s, s', t) || DestroyDeleted(s, s', t) || DestroyReset(s, s', t)
  }

  ghost predicate ReportStep(s: State, s': State, t: nat) {
    || (exists i, owner :: SubmitLock(s, s', t, i, owner))
    || SubmitCheck(s, s', t) || SubmitTake(s, s', t, true) || SubmitTake(s, s', t, false) || SubmitDone(s, s', t)
    || (exists h :: CallbackEnter(s, s', t, h))
    || CallbackTake(s, s', t) || CallbackDone(s, s', t) || CallbackReturn(s, s', t)
    || (exists picks :: WorkerTick(s, s', t, picks))
    || (exists i :: WorkerDone(s, s', t, i))
  }

  ghost predicate DownStep(s: State, s': State) {
    || DownFlag(s, s') || DownLock(s, s') || DownMark(s, s') || DownNull(s, s') || DownSkip(s, s')
    || DownDrained(s, s') || DownDeleted(s, s') || DownLose(s, s')
  }

  ghost predicate StopStep(s: State, s': State) {
    || StopFlag(s, s') || StopLock(s, s') || StopMark(s, s') || StopNull(s, s') || StopSkip(s, s')
    || StopDrained(s, s') || StopDeleted(s, s') || StopFree(s, s') || StopDone(s, s')
  }

  ghost predicate PowerStep(s: State, s': State) {
    EntryLock(s, s') || Entry(s, s') || PrepareLock(s, s') || Prepare(s, s')
  }

  ghost predicate Next(s: State, s': State) {
    || (exists t :: CreateStep(s, s', t))
    || (exists t :: DestroyStep(s, s', t))
    || (exists t :: ReportStep(s, s', t))
    || DownStep(s, s') || StopStep(s, s') || PowerStep(s, s')
  }

  ghost predicate StepAt(run: seq<State>, k: nat) {
    k + 1 < |run| ==> Next(run[k], run[k + 1])
  }

  /** A finite execution from the initial state, one step between neighbours. */
  ghost predicate IsRun(run: seq<State>) {
    run != [] && Init(run[0]) && forall k: nat :: StepAt(run, k)
  }
}
