/** The two mutexes of opl/opl_sdl.c and opl/opl_timer.c as a state machine: one worker (the audio or timer
    thread) that polls the queue and invokes callbacks, and any number of control threads. Every action is
    one atomic step of one thread; a run is any sequence of enabled actions. Deadlines are integers. */
module OplLocks {
  import opened Options
  import OplQueue

  datatype Driver = Sdl | TimerThread

  const IDLE_TIME := 50_000

  /** What a thread does while it holds the queue mutex. Adjust stands for any change of the deadlines. */
  datatype QueueOp = SetCallback(us: nat) | ClearCallbacks | SetPaused(paused: bool) | Adjust(deadlines: seq<int>)

  datatype WorkerPc =
    | Outside
    // OPL_Mix_Callback looks at the first deadline
    | WantLook | Looking
    // AdvanceTime moves the clock
    | WantAdvance(us: nat) | Advancing(us: nat)
    // the test for a due callback
    | WantPoll | Polling
    // a callback was taken out of the queue; invoking it
    | WantCallback(deadline: int) | InCallback(deadline: int)
    | CallbackWantQueue(deadline: int, op: QueueOp) | CallbackInQueue(deadline: int, op: QueueOp)
    // the timer thread sleeps and moves the clock
    | Sleeping(next_time: int, found_paused: bool)
    | WantUpdate(next_time: int, found_paused: bool) | Updating(next_time: int, found_paused: bool)

  datatype ControlPc =
    | Free
    | WantQueue(op: QueueOp) | InQueue(op: QueueOp)
    | WantLock | Locked
    | LockedWantQueue(op: QueueOp) | LockedInQueue(op: QueueOp)

  datatype Thread = Worker | Control(id: nat)

  datatype State = State(driver: Driver, worker: WorkerPc, controls: seq<ControlPc>,
                         queue_owner: Option<Thread>, callback_owner: Option<Thread>,
                         queue: seq<int>, current_time: int, pause_offset: int, paused: bool)
  {
    function Clock(): int { current_time - pause_offset }
  }

  datatype Action =
    | Look | Advance(us: nat) | Begin
    | WorkerAcquire | WorkerProceed | CallbackRequest(op: QueueOp)
    | Request(id: nat, op: QueueOp) | Lock(id: nat) | Unlock(id: nat)
    | ControlAcquire(id: nat) | ControlProceed(id: nat) | PauseUnlocked(id: nat, paused: bool)

  // ---------- The queue ----------

  function First(queue: seq<int>): (i: nat)
    requires |queue| > 0
    ensures i < |queue| && forall j | 0 <= j < |queue| :: queue[i] <= queue[j]
  {
    if |queue| == 1 then 0
    else
      var i := First(queue[..|queue| - 1]);
      assert forall j | 0 <= j < |queue| - 1 :: queue[..|queue| - 1][j] == queue[j];
      if queue[|queue| - 1] < queue[i] then |queue| - 1 else i
  }

  function Without(queue: seq<int>, i: nat): seq<int>
    requires i < |queue|
  {
    queue[..i] + queue[i + 1..]
  }

  /** The effect of an operation on the state. */
  function Perform(s: State, op: QueueOp): State {
    match op
    case SetCallback(us) => if |s.queue| < OplQueue.MAX_OPL_QUEUE then s.(queue := s.queue + [s.Clock() + us]) else s
    case ClearCallbacks => s.(queue := [])
    case SetPaused(paused) => s.(paused := paused)
    case Adjust(deadlines) => if |deadlines| == |s.queue| then s.(queue := deadlines) else s
  }

  // ---------- Steps ----------

  function AcquireQueue(s: State, pc: WorkerPc): Option<State> {
    if s.queue_owner == None then Some(s.(worker := pc, queue_owner := Some(Worker))) else None
  }

  function WorkerAcquires(s: State): Option<State> {
    match s.worker
    case WantLook => AcquireQueue(s, Looking)
    case WantAdvance(us) => AcquireQueue(s, Advancing(us))
    case WantPoll => AcquireQueue(s, Polling)
    case CallbackWantQueue(deadline, op) => AcquireQueue(s, CallbackInQueue(deadline, op))
    case WantUpdate(next_time, found_paused) => AcquireQueue(s, Updating(next_time, found_paused))
    case WantCallback(deadline) =>
      if s.callback_owner == None then Some(s.(worker := InCallback(deadline), callback_owner := Some(Worker))) else None
    case _ => None
  }

  /** The test of AdvanceTime (opl_sdl.c:127-136), or CallbackWaiting and the end of GetNextTime. */
  function Poll(s: State): State {
    if s.driver == TimerThread && s.paused then
      s.(worker := Sleeping(s.current_time + IDLE_TIME, true), pause_offset := s.pause_offset + IDLE_TIME, queue_owner := None)
    else if s.queue == [] then
      s.(worker := if s.driver == Sdl then Outside else Sleeping(s.current_time + IDLE_TIME, false), queue_owner := None)
    else
      var i := First(s.queue);
      if s.queue[i] + s.pause_offset <= s.current_time then
        s.(worker := WantCallback(s.queue[i]), queue := Without(s.queue, i), queue_owner := None)
      else
        s.(worker := if s.driver == Sdl then Outside else Sleeping(s.queue[i] + s.pause_offset, false), queue_owner := None)
  }

  ghost predicate SomethingDue(s: State) {
    exists d :: d in s.queue && d + s.pause_offset <= s.current_time
  }

  lemma FirstIsDue(s: State)
    requires s.queue != []
    ensures SomethingDue(s) <==> s.queue[First(s.queue)] + s.pause_offset <= s.current_time
    ensures forall d | d in s.queue :: s.queue[First(s.queue)] <= d
  {
    assert s.queue[First(s.queue)] in s.queue;
  }

  /** The worker takes out a callback that is due first, and none only if nothing is due or the timer thread finds
      playback paused. */
  lemma PollTakesFirst(s: State)
    ensures var t := Poll(s);
            if (s.driver == TimerThread && s.paused) || !SomethingDue(s) then !t.worker.WantCallback? && t.queue == s.queue
            else
              && t.worker.WantCallback? && t.worker.deadline + s.pause_offset <= s.current_time
              && (forall d | d in s.queue :: t.worker.deadline <= d)
              && multiset(s.queue) == multiset(t.queue) + multiset{t.worker.deadline}
  {
    if s.queue != [] {
      FirstIsDue(s);
      TakenOut(s.queue, First(s.queue));
      hide Without, First, SomethingDue;
    }
  }

  /** When there is nothing to do the timer thread sleeps until the first deadline, or for a fixed time. */
  lemma SleepsUntilFirst(s: State)
    requires s.driver == TimerThread && !SomethingDue(s)
    ensures var t := Poll(s);
            && t.worker.Sleeping?
            && if s.paused || s.queue == [] then t.worker.next_time == s.current_time + IDLE_TIME
               else
                 && t.worker.next_time - s.pause_offset in s.queue
                 && forall d | d in s.queue :: t.worker.next_time <= d + s.pause_offset
  {
    if s.queue != [] {
      FirstIsDue(s);
      TakenOut(s.queue, First(s.queue));
      hide Without, First, SomethingDue;
    }
  }

  lemma TakenOut(queue: seq<int>, i: nat)
    requires i < |queue|
    ensures multiset(queue) == multiset(Without(queue, i)) + multiset{queue[i]} && queue[i] in queue
  {
    assert queue == queue[..i] + [queue[i]] + queue[i + 1..];
  }

  function WorkerProceeds(s: State): Option<State> {
    match s.worker
    case Looking => Some(s.(worker := Outside, queue_owner := None))
    case Advancing(us) =>
      Some(s.(worker := Polling, current_time := s.current_time + us,
              pause_offset := if s.paused then s.pause_offset + us else s.pause_offset))
    case Polling => Some(Poll(s))
    case InCallback(_) => Some(s.(worker := WantPoll, callback_owner := None))
    case CallbackInQueue(deadline, op) => Some(Perform(s, op).(worker := InCallback(deadline), queue_owner := None))
    case Sleeping(next_time, found_paused) => Some(s.(worker := WantUpdate(next_time, found_paused)))
    case Updating(next_time, _) => Some(s.(worker := Outside, current_time := next_time, queue_owner := None))
    case _ => None
  }

  function SetControl(s: State, id: nat, pc: ControlPc): State
    requires id < |s.controls|
  {
    s.(controls := s.controls[id := pc])
  }

  function ControlAcquires(s: State, id: nat): Option<State>
    requires id < |s.controls|
  {
    match s.controls[id]
    case WantQueue(op) =>
      if s.queue_owner == None then Some(SetControl(s, id, InQueue(op)).(queue_owner := Some(Control(id)))) else None
    case LockedWantQueue(op) =>
      if s.queue_owner == None then Some(SetControl(s, id, LockedInQueue(op)).(queue_owner := Some(Control(id)))) else None
    case WantLock =>
      if s.callback_owner == None then Some(SetControl(s, id, Locked).(callback_owner := Some(Control(id)))) else None
    case _ => None
  }

  function ControlProceeds(s: State, id: nat): Option<State>
    requires id < |s.controls|
  {
    match s.controls[id]
    case InQueue(op) => Some(SetControl(Perform(s, op), id, Free).(queue_owner := None))
    case LockedInQueue(op) => Some(SetControl(Perform(s, op), id, Locked).(queue_owner := None))
    case _ => None
  }

  function Step(s: State, a: Action): Option<State> {
    match a
    case Look => if s.driver == Sdl && s.worker == Outside then Some(s.(worker := WantLook)) else None
    case Advance(us) => if s.driver == Sdl && s.worker == Outside then Some(s.(worker := WantAdvance(us))) else None
    case Begin => if s.driver == TimerThread && s.worker == Outside then Some(s.(worker := WantPoll)) else None
    case WorkerAcquire => WorkerAcquires(s)
    case WorkerProceed => WorkerProceeds(s)
    case CallbackRequest(op) =>
      if s.worker.InCallback? then Some(s.(worker := CallbackWantQueue(s.worker.deadline, op))) else None
    case Request(id, op) =>
      if id >= |s.controls| || (op.SetPaused? && s.driver == Sdl) then None
      else if s.controls[id] == Free then Some(SetControl(s, id, WantQueue(op)))
      else if s.controls[id] == Locked then Some(SetControl(s, id, LockedWantQueue(op)))
      else None
    case Lock(id) => if id < |s.controls| && s.controls[id] == Free then Some(SetControl(s, id, WantLock)) else None
    case Unlock(id) =>
      if id < |s.controls| && s.controls[id] == Locked then Some(SetControl(s, id, Free).(callback_owner := None)) else None
    case ControlAcquire(id) => if id < |s.controls| then ControlAcquires(s, id) else None
    case ControlProceed(id) => if id < |s.controls| then ControlProceeds(s, id) else None
    case PauseUnlocked(id, paused) =>
      if s.driver == Sdl && id < |s.controls| && (s.controls[id] == Free || s.controls[id] == Locked)
      then Some(s.(paused := paused)) else None
  }

  // ---------- The invariant ----------

  predicate WorkerHasQueue(pc: WorkerPc) {
    pc.Looking? || pc.Advancing? || pc.Polling? || pc.CallbackInQueue? || pc.Updating?
  }

  predicate WorkerHasCallback(pc: WorkerPc) {
    pc.InCallback? || pc.CallbackWantQueue? || pc.CallbackInQueue?
  }

  predicate ControlHasQueue(pc: ControlPc) { pc.InQueue? || pc.LockedInQueue? }

  predicate ControlHasCallback(pc: ControlPc) { pc.Locked? || pc.LockedWantQueue? || pc.LockedInQueue? }

  predicate ControlMatches(s: State, i: nat)
    requires i < |s.controls|
  {
    && (s.queue_owner == Some(Control(i)) <==> ControlHasQueue(s.controls[i]))
    && (s.callback_owner == Some(Control(i)) <==> ControlHasCallback(s.controls[i]))
  }

  /** Who owns a mutex is exactly who is in a section protected by it. */
  ghost predicate OwnersMatch(s: State) {
    && (s.queue_owner == Some(Worker) <==> WorkerHasQueue(s.worker))
    && (s.callback_owner == Some(Worker) <==> WorkerHasCallback(s.worker))
    && (forall i: nat | i < |s.controls| :: ControlMatches(s, i))
    && (s.queue_owner.Some? && s.queue_owner.value.Control? ==> s.queue_owner.value.id < |s.controls|)
    && (s.callback_owner.Some? && s.callback_owner.value.Control? ==> s.callback_owner.value.id < |s.controls|)
  }

  predicate IsAsleep(pc: WorkerPc) { pc.Sleeping? || pc.WantUpdate? || pc.Updating? }

  /** The next time lies ahead, a callback in flight was due, and the paths of the two drivers do not mix. */
  predicate TimesMatch(s: State) {
    && (IsAsleep(s.worker) ==>
          && s.worker.next_time > s.current_time
          && (s.worker.found_paused ==> s.worker.next_time == s.current_time + IDLE_TIME))
    && ((s.worker.WantCallback? || WorkerHasCallback(s.worker)) ==> s.worker.deadline <= s.Clock())
    && (s.driver == Sdl ==> !IsAsleep(s.worker))
    && (s.driver == TimerThread ==> !s.worker.WantLook? && !s.worker.Looking? && !s.worker.WantAdvance? && !s.worker.Advancing?)
  }

  ghost predicate Inv(s: State) { OwnersMatch(s) && TimesMatch(s) }

  ghost predicate Init(s: State) {
    && s.worker == Outside && (forall i | 0 <= i < |s.controls| :: s.controls[i] == Free)
    && s.queue_owner == None && s.callback_owner == None && s.queue == [] && s.pause_offset == 0
  }

  /** An action of a control thread, as opposed to the worker. */
  predicate IsControl(a: Action) {
    a.Request? || a.Lock? || a.Unlock? || a.ControlAcquire? || a.ControlProceed? || a.PauseUnlocked?
  }

  lemma PerformKeepsThreads(s: State, op: QueueOp)
    ensures var t := Perform(s, op);
            && t.driver == s.driver && t.worker == s.worker && t.controls == s.controls
            && t.queue_owner == s.queue_owner && t.callback_owner == s.callback_owner
            && t.current_time == s.current_time && t.pause_offset == s.pause_offset
  {}

  /** The worker takes or releases a mutex exactly when it enters or leaves a section protected by it. */
  lemma WorkerStep(s: State, a: Action)
    requires OwnersMatch(s) && Step(s, a).Some? && !IsControl(a)
    ensures var t := Step(s, a).value;
            && t.driver == s.driver && t.controls == s.controls
            && (if WorkerHasQueue(t.worker) && !WorkerHasQueue(s.worker)
                then s.queue_owner == None && t.queue_owner == Some(Worker)
                else t.queue_owner == if WorkerHasQueue(s.worker) && !WorkerHasQueue(t.worker) then None else s.queue_owner)
            && (if WorkerHasCallback(t.worker) && !WorkerHasCallback(s.worker)
                then s.callback_owner == None && t.callback_owner == Some(Worker)
                else t.callback_owner == if WorkerHasCallback(s.worker) && !WorkerHasCallback(t.worker) then None
                    else s.callback_owner)
  {
    if a.WorkerProceed? && s.worker.CallbackInQueue? {
      PerformKeepsThreads(s, s.worker.op);
    }
    hide Perform, OwnersMatch;
  }

  lemma WorkerStepKeepsTimes(s: State, a: Action)
    requires TimesMatch(s) && Step(s, a).Some? && !IsControl(a)
    ensures TimesMatch(Step(s, a).value)
  {
    if a.WorkerProceed? && s.worker.CallbackInQueue? {
      PerformKeepsThreads(s, s.worker.op);
    }
    hide Perform;
  }

  lemma WorkerStepKeepsInv(s: State, a: Action)
    requires Inv(s) && Step(s, a).Some? && !IsControl(a)
    ensures Inv(Step(s, a).value)
  {
    WorkerStep(s, a);
    WorkerStepKeepsTimes(s, a);
    hide Step, TimesMatch;
    var t := Step(s, a).value;
    forall i: nat | i < |s.controls|
      ensures ControlMatches(t, i)
    {
      assert ControlMatches(s, i);
    }
  }

  /** A control thread changes its own place only, and leaves the clock alone. */
  lemma ControlStep(s: State, a: Action)
    requires Step(s, a).Some? && IsControl(a)
    ensures var t := Step(s, a).value;
            && a.id < |s.controls| && t.driver == s.driver && t.worker == s.worker
            && |t.controls| == |s.controls| && (forall i | 0 <= i < |s.controls| && i != a.id :: t.controls[i] == s.controls[i])
            && t.current_time == s.current_time && t.pause_offset == s.pause_offset
            && (if ControlHasQueue(t.controls[a.id]) && !ControlHasQueue(s.controls[a.id])
                then s.queue_owner == None && t.queue_owner == Some(Control(a.id))
                else t.queue_owner == if ControlHasQueue(s.controls[a.id]) && !ControlHasQueue(t.controls[a.id])
                    then None else s.queue_owner)
            && (if ControlHasCallback(t.controls[a.id]) && !ControlHasCallback(s.controls[a.id])
                then s.callback_owner == None && t.callback_owner == Some(Control(a.id))
                else t.callback_owner == if ControlHasCallback(s.controls[a.id])
                    && !ControlHasCallback(t.controls[a.id]) then None else s.callback_owner)
  {
    if a.ControlProceed? && (s.controls[a.id].InQueue? || s.controls[a.id].LockedInQueue?) {
      PerformKeepsThreads(s, s.controls[a.id].op);
    }
    hide Perform;
  }

  lemma ControlStepKeepsInv(s: State, a: Action)
    requires Inv(s) && Step(s, a).Some? && IsControl(a)
    ensures Inv(Step(s, a).value)
  {
    var t := Step(s, a).value;
    ControlStep(s, a);
    hide Step;
    assert ControlMatches(s, a.id);
    forall i: nat | i < |t.controls|
      ensures ControlMatches(t, i)
    {
      assert ControlMatches(s, i);
    }
  }

  lemma StepKeepsInv(s: State, a: Action)
    requires Inv(s) && Step(s, a).Some?
    ensures Inv(Step(s, a).value)
  {
    if IsControl(a) {
      ControlStepKeepsInv(s, a);
    } else {
      WorkerStepKeepsInv(s, a);
    }
  }

  // ---------- Runs ----------

  function Run(s: State, actions: seq<Action>): Option<State> {
    if actions == [] then Some(s)
    else
      var before := Run(s, actions[..|actions| - 1]);
      if before == None then None else Step(before.value, actions[|actions| - 1])
  }

  lemma {:induction false} RunKeepsInv(s: State, actions: seq<Action>)
    requires Inv(s) && Run(s, actions).Some?
    ensures Inv(Run(s, actions).value)
  {
    if actions != [] {
      var n := |actions| - 1;
      RunKeepsInv(s, actions[..n]);
      StepKeepsInv(Run(s, actions[..n]).value, actions[n]);
    }
  }

  /** In every interleaving a callback runs only while the worker holds the callback mutex, no control thread is
      between OPL_Lock and OPL_Unlock at that time, and the callback is not early. */
  lemma CallbacksRunLocked(init: State, actions: seq<Action>)
    requires Init(init) && Run(init, actions).Some?
    ensures var s := Run(init, actions).value;
            WorkerHasCallback(s.worker) ==>
              && s.callback_owner == Some(Worker) && s.worker.deadline <= s.Clock()
              && forall i | 0 <= i < |s.controls| :: !ControlHasCallback(s.controls[i])
  {
    RunKeepsInv(init, actions);
    var s := Run(init, actions).value;
    forall i | 0 <= i < |s.controls|
      ensures WorkerHasCallback(s.worker) ==> !ControlHasCallback(s.controls[i])
    {
      assert ControlMatches(s, i);
    }
  }

  // ---------- No deadlock ----------

  predicate AtRest(s: State, t: Thread) {
    match t
    case Worker => s.worker == Outside
    case Control(i) => i < |s.controls| ==> s.controls[i] == Free
  }

  /** The thread can take a step of its own other than starting something new. */
  predicate CanMove(s: State, t: Thread) {
    match t
    case Worker => Step(s, WorkerAcquire).Some? || Step(s, WorkerProceed).Some?
    case Control(i) => Step(s, ControlAcquire(i)).Some? || Step(s, ControlProceed(i)).Some? || Step(s, Unlock(i)).Some?
  }

  /** The mutex a thread waits for, as its owner. */
  function BlockedBy(s: State, t: Thread): Option<Thread> {
    match t
    case Worker =>
      if s.worker.WantCallback? then s.callback_owner
      else if s.worker.WantLook? || s.worker.WantAdvance? || s.worker.WantPoll? || s.worker.CallbackWantQueue? || s.worker.WantUpdate?
      then s.queue_owner
      else None
    case Control(i) =>
      if i >= |s.controls| then None
      else if s.controls[i].WantLock? then s.callback_owner
      else if s.controls[i].WantQueue? || s.controls[i].LockedWantQueue? then s.queue_owner
      else None
  }

  /** The owner of the queue mutex never waits for anything. */
  lemma QueueOwnerMoves(s: State)
    requires Inv(s) && s.queue_owner.Some?
    ensures CanMove(s, s.queue_owner.value) && BlockedBy(s, s.queue_owner.value) == None
  {
    if s.queue_owner.value.Control? {
      assert ControlMatches(s, s.queue_owner.value.id);
    }
  }

  lemma CallbackOwnerWaitsForQueue(s: State)
    requires Inv(s) && s.callback_owner.Some?
    ensures var t := s.callback_owner.value; CanMove(s, t) || (BlockedBy(s, t) == s.queue_owner && s.queue_owner.Some?)
  {
    if s.callback_owner.value.Control? {
      assert ControlMatches(s, s.callback_owner.value.id);
    }
  }

  lemma WaitersAreBlocked(s: State, t: Thread)
    requires Inv(s) && !AtRest(s, t)
    ensures CanMove(s, t) || (BlockedBy(s, t).Some? && (BlockedBy(s, t) == s.queue_owner || BlockedBy(s, t) == s.callback_owner))
  {}

  /** A chain of waiting threads has at most two links and ends in a thread that can move. */
  lemma WaitingChainsEnd(init: State, actions: seq<Action>, t: Thread)
    requires Init(init) && Run(init, actions).Some?
    ensures var s := Run(init, actions).value;
            !AtRest(s, t) ==>
              || CanMove(s, t)
              || (var t1 := BlockedBy(s, t);
                  t1.Some? && (CanMove(s, t1.value) || (var t2 := BlockedBy(s, t1.value); t2.Some? && CanMove(s, t2.value))))
  {
    RunKeepsInv(init, actions);
    var s := Run(init, actions).value;
    if !AtRest(s, t) {
      WaitersAreBlocked(s, t);
      if s.queue_owner.Some? {
        QueueOwnerMoves(s);
      }
      if s.callback_owner.Some? {
        CallbackOwnerWaitsForQueue(s);
      }
      hide Step, Inv, BlockedBy, CanMove;
    }
  }

  // ---------- The pausable clock ----------

  /** The virtual clock as it will be once a pause that was already counted has also been slept through. */
  function SettledClock(s: State): int {
    s.Clock() + if IsAsleep(s.worker) && s.worker.found_paused then IDLE_TIME else 0
  }

  /** The step moves current_time forward while playback was not paused. */
  predicate MovesClock(s: State, a: Action) {
    a.WorkerProceed? && ((s.worker.Updating? && !s.worker.found_paused) || (s.worker.Advancing? && !s.paused))
  }

  lemma StepMovesClock(s: State, a: Action)
    requires Inv(s) && Step(s, a).Some?
    ensures var t := Step(s, a).value;
            && s.current_time <= t.current_time
            && (s.worker.Updating? && t.worker == Outside ==> s.current_time < t.current_time)
            && (!MovesClock(s, a) ==> SettledClock(t) == SettledClock(s))
            && (MovesClock(s, a) ==>
                  SettledClock(t) == SettledClock(s) + if s.worker.Updating? then s.worker.next_time - s.current_time
                      else s.worker.us)
            && SettledClock(s) <= SettledClock(t)
  {
    if IsControl(a) {
      ControlStep(s, a);
    } else {
      hide OwnersMatch;
      if a.WorkerProceed? && s.worker.CallbackInQueue? {
        PerformKeepsThreads(s, s.worker.op);
      }
      hide Perform;
    }
  }

  /** Some step of the run moves the clock. */
  ghost predicate SomeStepMoves(s: State, actions: seq<Action>) {
    exists k | 0 <= k < |actions| :: Run(s, actions[..k]).Some? && MovesClock(Run(s, actions[..k]).value, actions[k])
  }

  /** Over every run time never goes back, and the virtual clock stands still unless the worker found playback running. */
  lemma {:induction false} ClockOverRuns(s: State, actions: seq<Action>)
    requires Inv(s) && Run(s, actions).Some?
    ensures var t := Run(s, actions).value;
            && s.current_time <= t.current_time && SettledClock(s) <= SettledClock(t)
            && (!SomeStepMoves(s, actions) ==> SettledClock(t) == SettledClock(s))
  {
    if actions != [] {
      var n := |actions| - 1;
      var before := Run(s, actions[..n]).value;
      ClockOverRuns(s, actions[..n]);
      RunKeepsInv(s, actions[..n]);
      StepMovesClock(before, actions[n]);
      if SomeStepMoves(s, actions[..n]) {
        var k :| 0 <= k < n && Run(s, actions[..n][..k]).Some? && MovesClock(Run(s, actions[..n][..k]).value,
                                   actions[..n][k]);
        assert actions[..n][..k] == actions[..k];
        assert SomeStepMoves(s, actions);
      }
    }
  }

  /** A whole iteration of the timer thread: from outside back to outside, through one update. */
  lemma TimerIteration(s: State, actions: seq<Action>)
    requires Inv(s) && s.driver == TimerThread && Run(s, actions).Some?
    requires |actions| > 0 && actions[|actions| - 1] == WorkerProceed
    requires Run(s, actions[..|actions| - 1]).value.worker.Updating?
    ensures var t := Run(s, actions).value;
            && s.current_time < t.current_time && t.worker == Outside
            && (s.worker == Outside && !SomeStepMoves(s, actions) ==> t.Clock() == s.Clock())
  {
    var n := |actions| - 1;
    ClockOverRuns(s, actions[..n]);
    RunKeepsInv(s, actions[..n]);
    StepMovesClock(Run(s, actions[..n]).value, actions[n]);
    ClockOverRuns(s, actions);
  }

  // ---------- Callbacks that come early ----------

  lemma {:induction false} RunBoth(s: State, a: seq<Action>, b: seq<Action>)
    requires Run(s, a).Some?
    ensures Run(s, a + b) == Run(Run(s, a).value, b)
  {
    hide Step;
    if b == [] {
      assert a + b == a;
    } else {
      var n := |b| - 1;
      assert (a + b)[..|a| + n] == a + b[..n];
      RunBoth(s, a, b[..n]);
    }
  }

  lemma RunOne(s: State, a: Action)
    ensures Run(s, [a]) == Step(s, a)
  {
    hide Step;
    assert [a][..0] == [];
    assert Run(s, []) == Some(s);
  }

  lemma RunThree(s: State, a: Action, s1: State, b: Action, s2: State, c: Action)
    requires Step(s, a) == Some(s1) && Step(s1, b) == Some(s2)
    ensures Run(s, [a, b]) == Some(s2) && Run(s, [a, b, c]) == Step(s2, c)
  {
    hide Step, Run;
    RunOne(s, a);
    RunOne(s1, b);
    RunOne(s2, c);
    RunBoth(s, [a], [b]);
    assert [a] + [b] == [a, b];
    RunBoth(s, [a, b], [c]);
    assert [a, b] + [c] == [a, b, c];
  }

  /** One operation of a control thread on the queue. */
  function Does(id: nat, op: QueueOp): seq<Action> {
    [Request(id, op), ControlAcquire(id), ControlProceed(id)]
  }

  lemma DoesOne(s: State, id: nat, op: QueueOp)
    requires s.queue_owner == None && id < |s.controls| && (s.controls[id] == Free || s.controls[id] == Locked)
    requires op.SetPaused? ==> s.driver == TimerThread
    ensures Run(s, Does(id, op)) == Some(Perform(s, op))
    ensures Run(s, [Request(id, op), ControlAcquire(id)]) ==
            Some(SetControl(s, id, if s.controls[id] == Free then InQueue(op)
                else LockedInQueue(op)).(queue_owner := Some(Control(id))))
  {
    hide Run, Perform;
    var free := s.controls[id] == Free;
    var s1 := SetControl(s, id, if free then WantQueue(op) else LockedWantQueue(op));
    var s2 := SetControl(s, id, if free then InQueue(op) else LockedInQueue(op)).(queue_owner := Some(Control(id)));
    assert Step(s1, ControlAcquire(id)) == Some(s2) by {
      assert Step(s1, ControlAcquire(id)).value.controls == s2.controls;
    }
    assert Step(s2, ControlProceed(id)) == Some(Perform(s, op)) by {
      PerformKeepsThreads(s, op);
      PerformOnly(s, s2, op);
      assert Step(s2, ControlProceed(id)).value.controls == s.controls;
    }
    RunThree(s, Request(id, op), s1, ControlAcquire(id), s2, ControlProceed(id));
  }

  /** An operation does not depend on who performs it. */
  lemma PerformOnly(s: State, t: State, op: QueueOp)
    requires t == s.(controls := t.controls, queue_owner := t.queue_owner)
    ensures Perform(t, op) == Perform(s, op).(controls := t.controls, queue_owner := t.queue_owner)
  {}

  /** One look of the timer thread at the queue. */
  function Polls(): seq<Action> { [Begin, WorkerAcquire, WorkerProceed] }

  lemma PollsOne(s: State)
    requires s.driver == TimerThread && s.worker == Outside && s.queue_owner == None
    ensures Run(s, Polls()) == Some(Poll(s))
  {
    hide Run;
    var s1 := s.(worker := WantPoll);
    var s2 := s.(worker := Polling, queue_owner := Some(Worker));
    assert Step(s2, WorkerProceed) == Some(Poll(s));
    RunThree(s, Begin, s1, WorkerAcquire, s2, WorkerProceed);
  }

  /** The action that performs SetCallback(us), by whichever thread holds the queue mutex for it. */
  predicate SetsCallback(s: State, a: Action, us: nat) {
    match a
    case WorkerProceed => s.worker.CallbackInQueue? && s.worker.op == SetCallback(us)
    case ControlProceed(id) =>
      id < |s.controls| && (s.controls[id] == InQueue(SetCallback(us)) || s.controls[id] == LockedInQueue(SetCallback(us)))
    case _ => false
  }

  /** The timer thread sleeps through a pause whose length it has already added to pause_offset. */
  predicate PauseCounted(s: State) { IsAsleep(s.worker) && s.worker.found_paused }

  /** In some run from here the worker takes a callback with this deadline out of the queue while the virtual clock
      reads less than limit. */
  ghost predicate CanComeBefore(s: State, deadline: int, limit: int) {
    exists actions: seq<Action> :: ComesBefore(s, deadline, limit, actions)
  }

  predicate ComesBefore(s: State, deadline: int, limit: int, actions: seq<Action>) {
    Run(s, actions).Some? && Run(s, actions).value.worker == WantCallback(deadline) && Run(s, actions).value.Clock() < limit
  }

  lemma RunThen(s: State, actions: seq<Action>, deadline: int, limit: int)
    requires Run(s, actions).Some? && CanComeBefore(Run(s, actions).value, deadline, limit)
    ensures CanComeBefore(s, deadline, limit)
  {
    var more: seq<Action> :| ComesBefore(Run(s, actions).value, deadline, limit, more);
    RunBoth(s, actions, more);
    hide Run, Step;
    assert ComesBefore(s, deadline, limit, actions + more);
  }

  /** Nothing in the queue is due before the deadline, which is in the queue. */
  ghost predicate IsFirst(s: State, deadline: int) {
    deadline in s.queue && forall x | x in s.queue :: deadline <= x
  }

  /** What the timer thread leaves behind when it has slept. */
  function Woken(s: State): State
    requires IsAsleep(s.worker)
  {
    s.(worker := Outside, current_time := s.worker.next_time)
  }

  lemma AfterSleep(s: State, deadline: int, limit: int)
    requires (s.worker.Sleeping? || s.worker.WantUpdate?) && s.queue_owner == None
    requires CanComeBefore(Woken(s), deadline, limit)
    ensures CanComeBefore(s, deadline, limit)
  {
    hide Run, CanComeBefore;
    var s1 := s.(worker := WantUpdate(s.worker.next_time, s.worker.found_paused));
    var s2 := s1.(worker := Updating(s.worker.next_time, s.worker.found_paused), queue_owner := Some(Worker));
    assert Step(s1, WorkerAcquire) == Some(s2) && Step(s2, WorkerProceed) == Some(Woken(s));
    if s.worker.Sleeping? {
      RunThree(s, WorkerProceed, s1, WorkerAcquire, s2, WorkerProceed);
      RunThen(s, [WorkerProceed, WorkerAcquire, WorkerProceed], deadline, limit);
    } else {
      assert s == s1;
      RunThree(s, WorkerAcquire, s2, WorkerProceed, Woken(s), Begin);
      RunThen(s, [WorkerAcquire, WorkerProceed], deadline, limit);
    }
  }

  /** What the timer thread finds when it looks at the queue. */
  lemma WorkerPolls(s: State)
    requires s.driver == TimerThread && s.worker == WantPoll && s.queue_owner == None
    ensures Run(s, [WorkerAcquire, WorkerProceed]) == Some(Poll(s))
  {
    hide Run;
    var s1 := s.(worker := Polling, queue_owner := Some(Worker));
    assert Step(s, WorkerAcquire) == Some(s1) && Step(s1, WorkerProceed) == Some(Poll(s));
    RunThree(s, WorkerAcquire, s1, WorkerProceed, Poll(s), Begin);
  }

  /** With the callback mutex free, a callback that was taken out is invoked, and the thread looks again. */
  lemma WorkerInvokes(s: State)
    requires s.worker.WantCallback? && s.callback_owner == None
    ensures Run(s, [WorkerAcquire, WorkerProceed]) == Some(s.(worker := WantPoll))
  {
    hide Run;
    var s1 := s.(worker := InCallback(s.worker.deadline), callback_owner := Some(Worker));
    var s2 := s.(worker := WantPoll);
    assert Step(s, WorkerAcquire) == Some(s1) && Step(s1, WorkerProceed) == Some(s2);
    RunThree(s, WorkerAcquire, s1, WorkerProceed, s2, Begin);
  }

  lemma FirstBelow(queue: seq<int>, x: int)
    requires x in queue
    ensures queue[First(queue)] <= x && queue[First(queue)] in queue
  {
    var j :| 0 <= j < |queue| && queue[j] == x;
  }

  lemma StillQueued(queue: seq<int>, i: nat, x: int)
    requires i < |queue| && x in queue && queue[i] != x
    ensures x in Without(queue, i)
  {
    var j :| 0 <= j < |queue| && queue[j] == x;
    assert Without(queue, i)[if j < i then j else j - 1] == x;
  }

  /** Everything that is due before the callback is invoked first; that takes no time that counts. */
  lemma {:induction false} Drains(s: State, deadline: int, limit: int)
    requires s.worker == WantPoll && s.driver == TimerThread && !s.paused && s.queue_owner == None
    requires deadline in s.queue
    requires (s.callback_owner == None || IsFirst(s, deadline)) && s.Clock() < limit && deadline < limit
    ensures CanComeBefore(s, deadline, limit)
    decreases |s.queue|, if s.queue[First(s.queue)] <= s.Clock() then 0 else 1
  {
    hide Run, Step, CanComeBefore;
    var i := First(s.queue);
    var x := s.queue[i];
    var p := Poll(s);
    WorkerPolls(s);
    FirstBelow(s.queue, deadline);
    if x <= s.Clock() && x == deadline {
      TakenNow(s, deadline, limit);
    } else if x <= s.Clock() {
      assert p == s.(worker := WantCallback(x), queue := Without(s.queue, i));
      StillQueued(s.queue, i, deadline);
      WorkerInvokes(p);
      Drains(p.(worker := WantPoll), deadline, limit);
      RunThen(p, [WorkerAcquire, WorkerProceed], deadline, limit);
      RunThen(s, [WorkerAcquire, WorkerProceed], deadline, limit);
    } else {
      assert p == s.(worker := Sleeping(x + s.pause_offset, false));
      Drains(Woken(p).(worker := WantPoll), deadline, limit);
      BeginsAgain(Woken(p), deadline, limit);
      AfterSleep(p, deadline, limit);
      RunThen(s, [WorkerAcquire, WorkerProceed], deadline, limit);
    }
  }

  lemma TakenNow(s: State, deadline: int, limit: int)
    requires Run(s, [WorkerAcquire, WorkerProceed]) == Some(Poll(s)) && !s.paused && s.queue != []
    requires s.queue[First(s.queue)] == deadline && deadline <= s.Clock() < limit
    ensures CanComeBefore(s, deadline, limit)
  {
    hide Run;
    assert ComesBefore(s, deadline, limit, [WorkerAcquire, WorkerProceed]);
  }

  lemma BeginsAgain(s: State, deadline: int, limit: int)
    requires s.worker == Outside && s.driver == TimerThread && CanComeBefore(s.(worker := WantPoll), deadline, limit)
    ensures CanComeBefore(s, deadline, limit)
  {
    hide CanComeBefore;
    RunOne(s, Begin);
    RunThen(s, [Begin], deadline, limit);
  }

  /** Inside OPL_Lock and about to clear or move the queue: no callback can be invoked before that has happened. */
  predicate HoldsUp(pc: ControlPc) { pc.LockedWantQueue? && (pc.op.ClearCallbacks? || pc.op.Adjust?) }

  /** The thread that owns the callback mutex has done what it was about to do, and unlocked. */
  function Released(s: State): State {
    if s.callback_owner.Some? && s.callback_owner.value.Control? && s.callback_owner.value.id < |s.controls| then
      var j := s.callback_owner.value.id;
      var pc := s.controls[j];
      SetControl(if pc.LockedWantQueue? then Perform(s, pc.op) else s, j, Free).(callback_owner := None)
    else s
  }

  lemma UnlockRuns(s: State, j: nat)
    requires j < |s.controls| && s.controls[j] == Locked
    ensures Run(s, [Unlock(j)]) == Some(SetControl(s, j, Free).(callback_owner := None))
  {
    RunOne(s, Unlock(j));
  }

  lemma FinishRuns(s: State, j: nat)
    requires s.queue_owner == None && j < |s.controls| && s.controls[j].LockedWantQueue?
    ensures Run(s, [ControlAcquire(j), ControlProceed(j)]) == Some(SetControl(Perform(s, s.controls[j].op), j, Locked))
  {
    hide Run, Perform;
    var op := s.controls[j].op;
    PerformKeepsThreads(s, op);
    var s1 := SetControl(s, j, LockedInQueue(op)).(queue_owner := Some(Control(j)));
    var s2 := SetControl(Perform(s, op), j, Locked);
    PerformOnly(s, s1, op);
    assert Step(s, ControlAcquire(j)) == Some(s1);
    assert Step(s1, ControlProceed(j)) == Some(s2) by {
      assert Step(s1, ControlProceed(j)).value.controls == s2.controls;
    }
    RunThree(s, ControlAcquire(j), s1, ControlProceed(j), s2, Begin);
  }

  lemma AfterRelease(s: State, deadline: int, limit: int)
    requires Inv(s) && s.queue_owner == None && CanComeBefore(Released(s), deadline, limit)
    ensures CanComeBefore(s, deadline, limit)
  {
    hide Run, Step, CanComeBefore, Perform, Inv;
    if s.callback_owner.Some? && s.callback_owner.value.Control? && s.callback_owner.value.id < |s.controls| {
      var j := s.callback_owner.value.id;
      HolderIsLocked(s, j);
      if s.controls[j].LockedWantQueue? {
        PerformKeepsThreads(s, s.controls[j].op);
        FinishRuns(s, j);
      }
      var s1 := if s.controls[j].LockedWantQueue? then SetControl(Perform(s, s.controls[j].op), j, Locked) else s;
      UnlockRuns(s1, j);
      assert SetControl(s1, j, Free).(callback_owner := None) == Released(s) by {
        assert SetControl(s1, j, Free).controls == Released(s).controls;
      }
      RunThen(s1, [Unlock(j)], deadline, limit);
      if s.controls[j].LockedWantQueue? {
        RunThen(s, [ControlAcquire(j), ControlProceed(j)], deadline, limit);
      }
    }
  }

  lemma HolderIsLocked(s: State, j: nat)
    requires Inv(s) && s.queue_owner == None && j < |s.controls| && s.callback_owner == Some(Control(j))
    ensures s.controls[j] == Locked || s.controls[j].LockedWantQueue?
  {
    assert ControlMatches(s, j);
  }

  lemma ReleasedFacts(s: State, id: nat, deadline: int)
    requires Inv(s) && s.queue_owner == None && IsAsleep(s.worker) && deadline in s.queue
    requires id < |s.controls| && (s.controls[id] == Free || s.controls[id] == Locked)
    requires forall i | 0 <= i < |s.controls| :: !HoldsUp(s.controls[i])
    ensures var t := Released(s);
            && t.queue_owner == None && t.callback_owner == None && t.driver == s.driver && t.worker == s.worker
            && t.current_time == s.current_time && t.pause_offset == s.pause_offset && deadline in t.queue
            && id < |t.controls| && (t.controls[id] == Free || t.controls[id] == Locked)
  {
    if s.callback_owner.Some? && s.callback_owner.value.Control? {
      var j := s.callback_owner.value.id;
      HolderIsLocked(s, j);
      assert !HoldsUp(s.controls[j]);
      assert s.controls[j].LockedWantQueue? && s.controls[j].op.SetCallback? ==> s.queue <= Released(s).queue;
    }
  }

  /** Playback goes on as soon as some control thread asks for it. */
  lemma AfterResume(s: State, id: nat, deadline: int, limit: int)
    requires s.driver == TimerThread && s.queue_owner == None && id < |s.controls|
    requires s.controls[id] == Free || s.controls[id] == Locked
    requires CanComeBefore(s.(paused := false), deadline, limit)
    ensures CanComeBefore(s, deadline, limit)
  {
    hide Run, Step, CanComeBefore;
    DoesOne(s, id, SetPaused(false));
    RunThen(s, Does(id, SetPaused(false)), deadline, limit);
  }

  /** When the callback that is set by an action can come, on the settled clock: after us, or IDLE_TIME earlier if the
      timer thread sleeps through a counted pause, but never in the past. */
  function Earliest(s: State, us: nat): int {
    if PauseCounted(s) && us > IDLE_TIME then SettledClock(s) + us - IDLE_TIME
    else if PauseCounted(s) then SettledClock(s)
    else SettledClock(s) + us
  }

  lemma SettingStep(s: State, a: Action, us: nat)
    requires Inv(s) && SetsCallback(s, a, us) && |s.queue| < OplQueue.MAX_OPL_QUEUE
    ensures Step(s, a).Some?
    ensures var t := Step(s, a).value;
            && t.queue == s.queue + [s.Clock() + us] && t.Clock() == s.Clock() && SettledClock(t) == SettledClock(s) && Inv(t)
            && t.driver == s.driver && t.queue_owner == None && PauseCounted(t) == PauseCounted(s) && t.pause_offset == s.pause_offset
            && (PauseCounted(s) ==>
                  && t.worker == s.worker && s.driver == TimerThread && (s.worker.Sleeping? || s.worker.WantUpdate?)
                  && a.ControlProceed? && a.id < |t.controls| && (t.controls[a.id] == Free || t.controls[a.id] == Locked))
  {
    assert Step(s, a).Some?;
    StepKeepsInv(s, a);
    if a.ControlProceed? {
      assert ControlMatches(s, a.id);
    }
  }

  /** In no interleaving does a callback come before its earliest time. */
  lemma NeverEarlier(s: State, a: Action, us: nat, limit: int)
    requires Inv(s) && SetsCallback(s, a, us) && |s.queue| < OplQueue.MAX_OPL_QUEUE
    requires Step(s, a).Some? && CanComeBefore(Step(s, a).value, s.Clock() + us, limit)
    ensures limit > Earliest(s, us)
  {
    hide Step, OwnersMatch, SetsCallback, Run;
    SettingStep(s, a, us);
    var t := Step(s, a).value;
    var actions: seq<Action> :| ComesBefore(t, s.Clock() + us, limit, actions);
    RunKeepsInv(t, actions);
    ClockOverRuns(t, actions);
  }

  /** A callback that is set while the timer thread sleeps through a counted pause does come that early. */
  lemma ComesEarly(s: State, a: Action, us: nat, limit: int)
    requires Inv(s) && SetsCallback(s, a, us) && |s.queue| < OplQueue.MAX_OPL_QUEUE && PauseCounted(s)
    requires NothingInTheWay(s, s.Clock() + us) && limit > Earliest(s, us)
    ensures Step(s, a).Some? && CanComeBefore(Step(s, a).value, s.Clock() + us, limit)
  {
    hide Step, Inv, SetsCallback, CanComeBefore, IsFirst, HoldsUp, Perform;
    SettingStep(s, a, us);
    var t, deadline := Step(s, a).value, s.Clock() + us;
    SetDeadline(s, a, us);
    SleepEnds(s);
    if IsFirst(t, deadline) {
      EarlyFrom(t, a.id, deadline, limit);
    } else {
      ReleasedFacts(t, a.id, deadline);
      EarlyFrom(Released(t), a.id, deadline, limit);
      AfterRelease(t, deadline, limit);
    }
  }

  /** Nothing is due before the callback, or no thread inside OPL_Lock will clear or move the queue first. */
  ghost predicate NothingInTheWay(s: State, deadline: int) {
    (forall x | x in s.queue :: deadline <= x) || forall i | 0 <= i < |s.controls| :: !HoldsUp(s.controls[i])
  }

  lemma SleepEnds(s: State)
    requires Inv(s) && PauseCounted(s)
    ensures s.worker.next_time - s.pause_offset == SettledClock(s)
  {}

  lemma SetDeadline(s: State, a: Action, us: nat)
    requires SetsCallback(s, a, us) && Step(s, a).Some? && NothingInTheWay(s, s.Clock() + us)
    requires Step(s, a).value.queue == s.queue + [s.Clock() + us]
    ensures var t, deadline := Step(s, a).value, s.Clock() + us;
            && deadline in t.queue
            && (IsFirst(t, deadline) || forall i | 0 <= i < |t.controls| :: !HoldsUp(t.controls[i]))
  {
    var t, deadline := Step(s, a).value, s.Clock() + us;
    assert t.queue[|s.queue|] == deadline;
    if !forall x | x in s.queue :: deadline <= x {
      SetterFree(s, a, us);
    }
  }

  lemma SetterFree(s: State, a: Action, us: nat)
    requires SetsCallback(s, a, us) && Step(s, a).Some?
    ensures var t := Step(s, a).value;
            |t.controls| == |s.controls| && forall i | 0 <= i < |t.controls| :: HoldsUp(t.controls[i]) ==> HoldsUp(s.controls[i])
  {
    if a.ControlProceed? {
      PerformKeepsThreads(s, s.controls[a.id].op);
    } else {
      PerformKeepsThreads(s, s.worker.op);
    }
    hide Perform;
  }

  /** From the sleep through a counted pause: playback goes on, the thread wakes up, and the callback comes. */
  lemma EarlyFrom(s: State, id: nat, deadline: int, limit: int)
    requires s.driver == TimerThread && s.queue_owner == None && (s.worker.Sleeping? || s.worker.WantUpdate?)
    requires id < |s.controls| && (s.controls[id] == Free || s.controls[id] == Locked)
    requires deadline in s.queue && (s.callback_owner == None || IsFirst(s, deadline))
    requires s.worker.next_time - s.pause_offset < limit && deadline < limit
    ensures CanComeBefore(s, deadline, limit)
  {
    hide Step, Run, CanComeBefore;
    var s1 := s.(paused := false);
    var s2 := Woken(s1);
    Drains(s2.(worker := WantPoll), deadline, limit);
    BeginsAgain(s2, deadline, limit);
    AfterSleep(s1, deadline, limit);
    AfterResume(s, id, deadline, limit);
  }

  /** OPL_SetCallback promises a callback after us microseconds of playing time. Some interleaving brings it earlier if
      and only if it is set while the timer thread sleeps through a pause that it has already counted, and us is not
      zero. What is due before it in the queue is invoked first, and must not be held up. */
  lemma EarlyCallback(s: State, a: Action, us: nat)
    requires Inv(s) && SetsCallback(s, a, us) && |s.queue| < OplQueue.MAX_OPL_QUEUE
    requires NothingInTheWay(s, s.Clock() + us)
    ensures Step(s, a).Some?
    ensures CanComeBefore(Step(s, a).value, s.Clock() + us, SettledClock(s) + us) <==> PauseCounted(s) && us > 0
  {
    hide Step, Inv, SetsCallback, CanComeBefore, NothingInTheWay;
    SettingStep(s, a, us);
    if CanComeBefore(Step(s, a).value, s.Clock() + us, SettledClock(s) + us) {
      NeverEarlier(s, a, us, SettledClock(s) + us);
    }
    if PauseCounted(s) && us > 0 {
      ComesEarly(s, a, us, SettledClock(s) + us);
    }
  }

  /** A control thread pauses playback, the timer thread finds it paused and goes to sleep, and the control thread
      sets a callback. */
  function SetWhilePaused(us: nat): seq<Action> {
    Does(0, SetPaused(true)) + Polls() + [Request(0, SetCallback(us)), ControlAcquire(0)]
  }

  /** The state after that. */
  function AsleepSetting(init: State, us: nat): State
    requires |init.controls| > 0
  {
    init.(controls := init.controls[0 := InQueue(SetCallback(us))], queue_owner := Some(Control(0)), paused := true,
          worker := Sleeping(init.current_time + IDLE_TIME, true), pause_offset := init.pause_offset + IDLE_TIME)
  }

  lemma SettingWhilePaused(init: State, us: nat)
    requires Init(init) && init.driver == TimerThread && |init.controls| > 0
    ensures Run(init, SetWhilePaused(us)) == Some(AsleepSetting(init, us))
  {
    hide Run, Step;
    var s1 := init.(paused := true);
    DoesOne(init, 0, SetPaused(true));
    PollsOne(s1);
    DoesOne(Poll(s1), 0, SetCallback(us));
    RunBoth(init, Does(0, SetPaused(true)), Polls());
    RunBoth(init, Does(0, SetPaused(true)) + Polls(), [Request(0, SetCallback(us)), ControlAcquire(0)]);
  }

  /** So every delay but zero can be cut short, from a start with an empty queue. */
  lemma EarlyCallbackHappens(init: State, us: nat)
    requires Init(init) && init.driver == TimerThread && |init.controls| > 0 && us > 0
    ensures Run(init, SetWhilePaused(us)).Some?
    ensures var s := Run(init, SetWhilePaused(us)).value;
            && PauseCounted(s) && Step(s, ControlProceed(0)).Some?
            && CanComeBefore(Step(s, ControlProceed(0)).value, s.Clock() + us, SettledClock(s) + us)
  {
    hide Run, Step, CanComeBefore, SetWhilePaused;
    SettingWhilePaused(init, us);
    RunKeepsInv(init, SetWhilePaused(us));
    EarlyCallback(AsleepSetting(init, us), ControlProceed(0), us);
  }

  // ---------- Clearing the queue ----------

  predicate Sets(op: QueueOp) { op.SetCallback? }

  predicate MaySet(pc: ControlPc) {
    (pc.WantQueue? || pc.InQueue? || pc.LockedWantQueue? || pc.LockedInQueue?) && Sets(pc.op)
  }

  /** No callback is queued, in flight, or about to be queued. */
  ghost predicate Cleared(s: State) {
    && s.queue == [] && !s.worker.WantCallback? && !WorkerHasCallback(s.worker)
    && forall i | 0 <= i < |s.controls| :: !MaySet(s.controls[i])
  }

  lemma ClearedStep(s: State, a: Action)
    requires Cleared(s) && Step(s, a).Some? && (a.Request? ==> !Sets(a.op))
    ensures Cleared(Step(s, a).value)
  {
    var t := Step(s, a).value;
    if IsControl(a) {
      ControlStep(s, a);
      assert !MaySet(s.controls[a.id]);
      assert !MaySet(t.controls[a.id]);
    }
  }

  predicate NoRequests(actions: seq<Action>) {
    forall k | 0 <= k < |actions| :: actions[k].Request? ==> !Sets(actions[k].op)
  }

  /** Once cleared, no callback runs in any interleaving until a control thread sets a new one. */
  lemma {:induction false} ClearedStaysSilent(s: State, actions: seq<Action>)
    requires Cleared(s) && NoRequests(actions) && Run(s, actions).Some?
    ensures Cleared(Run(s, actions).value)
  {
    if actions != [] {
      var n := |actions| - 1;
      ClearedStaysSilent(s, actions[..n]);
      ClearedStep(Run(s, actions[..n]).value, actions[n]);
    }
  }

  /** In no interleaving from here does a callback run until a control thread sets a new one. */
  ghost predicate StaysSilent(s: State) {
    forall actions: seq<Action> | NoRequests(actions) && Run(s, actions).Some? :: !WorkerHasCallback(Run(s, actions).value.worker)
  }

  lemma ClearedIsSilent(s: State)
    requires Cleared(s)
    ensures StaysSilent(s)
  {
    forall actions: seq<Action> | NoRequests(actions) && Run(s, actions).Some?
      ensures !WorkerHasCallback(Run(s, actions).value.worker)
    {
      ClearedStaysSilent(s, actions);
    }
  }

  lemma OwnsCallback(s: State, id: nat)
    requires Inv(s) && id < |s.controls| && ControlHasCallback(s.controls[id])
    ensures s.callback_owner == Some(Control(id)) && !WorkerHasCallback(s.worker)
  {
    assert ControlMatches(s, id);
  }

  /** A callback that was taken out of the queue runs as soon as OPL_Unlock lets it. */
  lemma TakenOutRuns(s: State, id: nat)
    requires Inv(s) && id < |s.controls| && s.controls[id] == Locked && s.worker.WantCallback?
    ensures Run(s, [Unlock(id), WorkerAcquire]).Some?
    ensures Run(s, [Unlock(id), WorkerAcquire]).value.worker == InCallback(s.worker.deadline)
  {
    hide Run, Inv;
    OwnsCallback(s, id);
    var s1 := SetControl(s, id, Free).(callback_owner := None);
    var s2 := s1.(worker := InCallback(s.worker.deadline), callback_owner := Some(Worker));
    assert Step(s, Unlock(id)) == Some(s1) && Step(s1, WorkerAcquire) == Some(s2);
    RunThree(s, Unlock(id), s1, WorkerAcquire, s2, Begin);
  }

  /** Clearing the queue between OPL_Lock and OPL_Unlock, in any interleaving: no callback runs afterwards, until a
      control thread sets one, if and only if none had already been taken out of the queue. Other control threads must
      not be about to set one. */
  lemma ClearUnderLock(s: State, id: nat)
    requires Inv(s) && id < |s.controls| && s.controls[id] == LockedInQueue(ClearCallbacks)
    requires forall i | 0 <= i < |s.controls| :: !MaySet(s.controls[i])
    ensures Step(s, ControlProceed(id)).Some?
    ensures var t := Step(s, ControlProceed(id)).value; Inv(t) && t.queue == [] && (StaysSilent(t) <==> !s.worker.WantCallback?)
  {
    hide Run, Inv;
    var t := Step(s, ControlProceed(id)).value;
    StepKeepsInv(s, ControlProceed(id));
    OwnsCallback(s, id);
    if s.worker.WantCallback? {
      TakenOutRuns(t, id);
      assert NoRequests([Unlock(id), WorkerAcquire]);
    } else {
      ClearedIsSilent(t);
    }
  }

  /** A control thread sets a callback that is due at once, the timer thread takes it out of the queue, and the control
      thread locks and is about to clear the queue. */
  function ClearTooLate(): seq<Action> {
    Does(0, SetCallback(0)) + Polls() + [Lock(0), ControlAcquire(0)] + [Request(0, ClearCallbacks), ControlAcquire(0)]
  }

  /** The state after that. */
  function ClearingTooLate(init: State): State
    requires |init.controls| > 0
  {
    init.(controls := init.controls[0 := LockedInQueue(ClearCallbacks)], queue_owner := Some(Control(0)),
          callback_owner := Some(Control(0)), worker := WantCallback(init.current_time))
  }

  lemma TakenOutThenLocked(init: State, s2: State)
    requires Init(init) && init.driver == TimerThread && !init.paused && |init.controls| == 1
    requires s2 == init.(worker := WantCallback(init.current_time))
    ensures Run(init, Does(0, SetCallback(0)) + Polls()) == Some(s2)
  {
    hide Run, Step;
    var s1 := init.(queue := [init.current_time]);
    DoesOne(init, 0, SetCallback(0));
    assert Perform(init, SetCallback(0)) == s1 by { assert init.queue + [init.current_time] == s1.queue; }
    PollsOne(s1);
    assert Poll(s1) == s2 by { assert First(s1.queue) == 0 && Without(s1.queue, 0) == []; }
    RunBoth(init, Does(0, SetCallback(0)), Polls());
  }

  lemma LocksAfterwards(s2: State, s4: State)
    requires s2.callback_owner == None && |s2.controls| == 1 && s2.controls[0] == Free
    requires s4 == SetControl(s2, 0, Locked).(callback_owner := Some(Control(0)))
    ensures Run(s2, [Lock(0), ControlAcquire(0)]) == Some(s4)
  {
    hide Run;
    var s3 := SetControl(s2, 0, WantLock);
    assert Step(s2, Lock(0)) == Some(s3);
    assert Step(s3, ControlAcquire(0)) == Some(s4) by {
      assert Step(s3, ControlAcquire(0)).value.controls == s4.controls;
    }
    RunThree(s2, Lock(0), s3, ControlAcquire(0), s4, Begin);
  }

  lemma GettingThereTooLate(init: State)
    requires Init(init) && init.driver == TimerThread && !init.paused && |init.controls| == 1
    ensures Run(init, ClearTooLate()) == Some(ClearingTooLate(init))
  {
    hide Run, Step, Does, Polls;
    var s2 := init.(worker := WantCallback(init.current_time));
    var s4 := SetControl(s2, 0, Locked).(callback_owner := Some(Control(0)));
    var a, b, c := Does(0, SetCallback(0)) + Polls(), [Lock(0), ControlAcquire(0)], [Request(0, ClearCallbacks),
                        ControlAcquire(0)];
    TakenOutThenLocked(init, s2);
    LocksAfterwards(s2, s4);
    DoesOne(s4, 0, ClearCallbacks);
    assert SetControl(s4, 0, LockedInQueue(ClearCallbacks)).controls == ClearingTooLate(init).controls;
    RunBoth(init, a, b);
    RunBoth(init, a + b, c);
  }

  /** So a callback can run after the queue has been cleared under OPL_Lock. */
  lemma ClearTooLateHappens(init: State)
    requires Init(init) && init.driver == TimerThread && !init.paused && |init.controls| == 1
    ensures Run(init, ClearTooLate()).Some?
    ensures var s := Run(init, ClearTooLate()).value;
            Step(s, ControlProceed(0)).Some? && Step(s, ControlProceed(0)).value.queue == []
                && !StaysSilent(Step(s, ControlProceed(0)).value)
  {
    hide Run, Step, ClearTooLate, StaysSilent;
    GettingThereTooLate(init);
    RunKeepsInv(init, ClearTooLate());
    ClearUnderLock(ClearingTooLate(init), 0);
  }
}
