/** The handshake between one worker thread and the callers that make its tasks ready.
    Every shared-memory access of prs/worker.c and prs/sched/swprio.c is one step; any
    number of callers interleave with the worker in any order. A ready queue is the set of
    tasks in it: which of several equally urgent tasks is popped is left open here. */
module Worker {
  import opened Common

  type Task = nat
  const PRIORITIES := 32

  /** The flags word of a worker. */
  datatype Flags = Flags(interruptible: bool, pending: bool, idle: bool, stop: bool)

  const NO_FLAGS := Flags(false, false, false, false)

  datatype Status = Stopped | Ready | Running | Blocked | Zombie

  /** A task: its priority (0 is the most urgent), its state, whether it is in the ready queue of
      that priority and whether it is in the remove queue. */
  datatype TaskInfo = TaskInfo(prio: nat, status: Status, queued: bool, removing: bool)

  /** Where the worker thread is. */
  datatype Label =
    | Start          // thread entry loop, no task
    | Check          // about to clear the pending flag and look at it
    | Clear          // about to set the current task to none
    | Drain          // processing the remove queue
    | DrainProbe     // a removed task left the ready queue of `level`
    | DrainClear     // that queue looked empty
    | DrainReprobe   // its mask bit was cleared
    | DrainReset     // it was not empty after all
    | Load           // about to load the ready mask
    | Scan           // looking for the lowest level in `left`
    | ScanClear      // the queue of `level` looked empty
    | ScanReprobe    // its mask bit was cleared
    | ScanReset      // it was not empty after all
    | Found          // a ready task was seen at `level`
    | Preempt        // `hand` was pushed, its mask bit is not set yet
    | Pop            // about to take a task of `level`
    | Install        // about to publish `hand` as the current task
    | Idle           // nothing to run: about to try to go idle
    | Suspended      // waiting on the thread's semaphore
    | Enable         // about to try to become interruptible
    | User           // interruptible task code
    | Kernel         // non-interruptible code of the current task
    | PostSelf       // about to set the pending flag of its own worker
    | Exited

  /** Where a caller is: inside ready() for a task, or inside stop() (no task). */
  datatype Phase =
    | Entered                     // the task is READY but not in its queue
    | Pushed                      // in its queue, mask bit not set by this call
    | Masked                      // mask bit set
    | SawId(id: Option<Task>)     // has read the current task identifier
    | SawPrio(lowest: nat)        // has read that task's priority
    | Posting                     // about to set the pending flag
    | Waking                      // saw the idle flag, about to clear it
    | Resuming                    // cleared the idle flag, about to resume the thread
    | Sending                     // about to interrupt the thread

  datatype Caller = Caller(task: Option<Task>, phase: Phase)

  datatype State = State(
    flags: Flags,
    tokens: nat,                  // count of the semaphore a suspended thread waits on
    signal: bool,                 // an interrupt was sent and not delivered yet
    current: Option<Task>,        // the published current task
    mask: set<nat>,               // the ready mask
    tasks: map<Task, TaskInfo>,
    callers: map<nat, Caller>,
    pc: Label,                    // the worker and its locals
    hand: Option<Task>,           // the task that was current on entry, then the chosen one
    left: set<nat>,               // local copy of the ready mask
    level: nat)

  // ---------------------------------------------------------------- helpers

  /** Whether the ready queue of priority `p` is empty. */
  ghost predicate EmptyQueue(s: State, p: nat) {
    forall t :: t in s.tasks && s.tasks[t].queued ==> s.tasks[t].prio != p
  }

  ghost predicate AtPhase(s: State, c: nat, ph: Phase) {
    c in s.callers && s.callers[c].phase == ph
  }

  function WithPhase(s: State, c: nat, ph: Phase): map<nat, Caller>
    requires c in s.callers
  {
    s.callers[c := s.callers[c].(phase := ph)]
  }

  ghost predicate HasStatus(s: State, t: Option<Task>, st: Status) {
    t.Some? && t.value in s.tasks && s.tasks[t.value].status == st
  }

  // ---------------------------------------------------------------- the steps of a caller

  ghost predicate Init(s: State) {
    && s.flags == NO_FLAGS && s.tokens == 0 && !s.signal && s.current == None && s.pc == Start
    && s.mask == {} && s.tasks == map[] && s.callers == map[] && s.hand == None
  }

  /** prs_sched_swprio_add: a new task becomes READY and enters ready(). */
  ghost predicate AddTask(s: State, t: Task, p: nat, c: nat, s': State) {
    && t !in s.tasks && p < PRIORITIES && c !in s.callers
    && s' == s.(tasks := s.tasks[t := TaskInfo(p, Ready, false, false)],
                callers := s.callers[c := Caller(Some(t), Entered)])
  }

  /** prs_task_unblock wins its compare-and-swap and enters ready(). */
  ghost predicate Unblock(s: State, t: Task, c: nat, s': State) {
    && t in s.tasks && s.tasks[t].status == Blocked && c !in s.callers
    && s' == s.(tasks := s.tasks[t := s.tasks[t].(status := Ready)],
                callers := s.callers[c := Caller(Some(t), Entered)])
  }

  /** The task of caller `c`, which is in ready(). */
  ghost predicate ReadyCall(s: State, c: nat, t: Task) {
    c in s.callers && s.callers[c].task == Some(t) && t in s.tasks
  }

  ghost predicate PushReady(s: State, c: nat, t: Task, s': State) {
    && ReadyCall(s, c, t) && AtPhase(s, c, Entered)
    && s' == s.(tasks := s.tasks[t := s.tasks[t].(queued := true)], callers := WithPhase(s, c, Pushed))
  }

  ghost predicate SetMask(s: State, c: nat, t: Task, s': State) {
    && ReadyCall(s, c, t) && AtPhase(s, c, Pushed)
    && s' == s.(mask := s.mask + {s.tasks[t].prio}, callers := WithPhase(s, c, Masked))
  }

  ghost predicate ReadId(s: State, c: nat, t: Task, s': State) {
    && ReadyCall(s, c, t) && AtPhase(s, c, Masked)
    && s' == s.(callers := WithPhase(s, c, SawId(s.current)))
  }

  /** The priority of the task that was current. No task, or a task that can no longer be
      locked, counts as less urgent than any. */
  ghost predicate ReadPrio(s: State, c: nat, t: Task, s': State) {
    && ReadyCall(s, c, t) && s.callers[c].phase.SawId?
    && var id := s.callers[c].phase.id;
    || (id.Some? && id.value in s.tasks
        && s' == s.(callers := WithPhase(s, c, SawPrio(s.tasks[id.value].prio))))
    || ((id.None? || HasStatus(s, id, Zombie)) && s' == s.(callers := WithPhase(s, c, SawPrio(PRIORITIES))))
  }

  ghost predicate Decide(s: State, c: nat, t: Task, s': State) {
    && ReadyCall(s, c, t) && s.callers[c].phase.SawPrio?
    && s' == s.(callers := if s.tasks[t].prio < s.callers[c].phase.lowest
                           then WithPhase(s, c, Posting) else s.callers - {c})
  }

  /** The end of prs_worker_post, which decides on the flags word it saw last. */
  function AfterPost(s: State, c: nat): map<nat, Caller>
    requires c in s.callers
  {
    if s.flags.interruptible && !s.flags.pending then WithPhase(s, c, Sending) else s.callers - {c}
  }

  ghost predicate Post(s: State, c: nat, s': State) {
    && AtPhase(s, c, Posting)
    && s' == s.(flags := s.flags.(pending := true),
                callers := if s.flags.idle then WithPhase(s, c, Waking) else AfterPost(s, c))
  }

  ghost predicate ClearIdle(s: State, c: nat, s': State) {
    && AtPhase(s, c, Waking)
    && s' == s.(flags := s.flags.(idle := false),
                callers := if s.flags.idle then WithPhase(s, c, Resuming) else AfterPost(s, c))
  }

  ghost predicate Resume(s: State, c: nat, s': State) {
    && AtPhase(s, c, Resuming)
    && s' == s.(tokens := s.tokens + 1, callers := s.callers - {c})
  }

  ghost predicate SendInterrupt(s: State, c: nat, s': State) {
    && AtPhase(s, c, Sending)
    && s' == s.(signal := true, callers := s.callers - {c})
  }

  /** prs_worker_stop from another worker: sets the stop flag, then posts. */
  ghost predicate RequestStop(s: State, c: nat, s': State) {
    && c !in s.callers
    && s' == s.(flags := s.flags.(stop := true), callers := s.callers[c := Caller(None, Posting)])
  }

  /** The interrupt handler runs on the worker thread; outside interruptible code it does nothing. */
  ghost predicate Deliver(s: State, s': State) {
    && s.signal
    && s' == if s.flags.interruptible
             then s.(signal := false, flags := s.flags.(interruptible := false), pc := Check)
             else s.(signal := false)
  }

  // ---------------------------------------------------------------- the steps of the worker

  ghost predicate Enter(s: State, s': State) {
    && s.pc == Start
    && s' == s.(pc := if s.flags.stop then Exited else Clear)
  }

  ghost predicate CheckFlags(s: State, s': State) {
    && s.pc == Check
    && s' == s.(flags := s.flags.(pending := false),
                pc := if s.flags.stop then Exited else if s.flags.pending then Clear else Enable)
  }

  ghost predicate ClearCurrent(s: State, s': State) {
    && s.pc == Clear
    && s' == s.(current := None, hand := s.current, pc := Drain)
  }

  /** One round of the removal loop of get_next, for some task of the remove queue. */
  ghost predicate DrainOne(s: State, t: Task, s': State) {
    && s.pc == Drain && t in s.tasks && s.tasks[t].removing
    && s' == if s.hand == Some(t) then s.(hand := None, pc := Start)
             else s.(tasks := s.tasks[t := s.tasks[t].(status := Zombie, queued := false, removing := false)],
                     level := s.tasks[t].prio,
                     pc := if s.tasks[t].queued then DrainProbe else Drain)
  }

  ghost predicate DrainDone(s: State, s': State) {
    && s.pc == Drain && (forall t :: t in s.tasks ==> !s.tasks[t].removing)
    && s' == s.(pc := Load)
  }

  ghost predicate DrainStep(s: State, s': State) {
    || (s.pc == DrainProbe && s' == s.(pc := if EmptyQueue(s, s.level) then DrainClear else Drain))
    || (s.pc == DrainClear && s' == s.(mask := s.mask - {s.level}, pc := DrainReprobe))
    || (s.pc == DrainReprobe && s' == s.(pc := if EmptyQueue(s, s.level) then Drain else DrainReset))
    || (s.pc == DrainReset && s' == s.(mask := s.mask + {s.level}, pc := Drain))
  }

  ghost predicate LoadMask(s: State, s': State) {
    && s.pc == Load
    && s' == s.(left := s.mask, pc := Scan)
  }

  ghost predicate ScanLevel(s: State, p: nat, s': State) {
    && s.pc == Scan && IsLowest(s.left, p)
    && s' == s.(level := p, pc := if EmptyQueue(s, p) then ScanClear else Found)
  }

  ghost predicate ScanStep(s: State, s': State) {
    || (s.pc == ScanClear && s' == s.(mask := s.mask - {s.level}, pc := ScanReprobe))
    || (s.pc == ScanReprobe
        && s' == if EmptyQueue(s, s.level) then s.(left := s.left - {s.level}, pc := Scan) else s.(pc := ScanReset))
    || (s.pc == ScanReset && s' == s.(mask := s.mask + {s.level}, pc := Found))
  }

  /** No ready task: keep the previous one if it still runs. */
  ghost predicate ScanDone(s: State, s': State) {
    && s.pc == Scan && s.left == {}
    && s' == if HasStatus(s, s.hand, Running) then s.(pc := Install) else s.(hand := None, pc := Idle)
  }

  /** A ready task was found: preempt the previous task, keep it, or just pop. */
  ghost predicate Choose(s: State, s': State) {
    && s.pc == Found
    && s' == if !HasStatus(s, s.hand, Running) then s.(hand := None, pc := Pop)
             else if s.tasks[s.hand.value].prio > s.level
             then s.(tasks := s.tasks[s.hand.value := s.tasks[s.hand.value].(queued := true)], pc := Preempt)
             else s.(pc := Install)
  }

  ghost predicate FinishPreempt(s: State, t: Task, s': State) {
    && s.pc == Preempt && s.hand == Some(t) && t in s.tasks
    && s' == s.(mask := s.mask + {s.tasks[t].prio}, tasks := s.tasks[t := s.tasks[t].(status := Ready)],
                hand := None, pc := Pop)
  }

  ghost predicate PopNext(s: State, t: Task, s': State) {
    && s.pc == Pop && t in s.tasks && s.tasks[t].queued && s.tasks[t].prio == s.level
    && s' == s.(tasks := s.tasks[t := s.tasks[t].(status := Running, queued := false)], hand := Some(t), pc := Install)
  }

  /** The current task is published and its context restored: it resumes in the task prologue
      or in non-interruptible code. */
  ghost predicate InstallNext(s: State, resume: Label, s': State) {
    && s.pc == Install && (resume == Check || resume == Enable || resume == Kernel)
    && s' == s.(current := s.hand, hand := None, pc := resume)
  }

  ghost predicate GoIdle(s: State, s': State) {
    && s.pc == Idle
    && s' == if s.flags == NO_FLAGS
             then s.(flags := Flags(false, true, true, false), pc := Suspended)
             else s.(pc := Check)
  }

  ghost predicate Wake(s: State, s': State) {
    && s.pc == Suspended && s.tokens > 0
    && s' == s.(tokens := s.tokens - 1, pc := Check)
  }

  ghost predicate TryEnable(s: State, s': State) {
    && s.pc == Enable
    && s' == if s.flags == NO_FLAGS
             then s.(flags := Flags(true, false, false, false), pc := User)
             else s.(pc := Check)
  }

  ghost predicate Disable(s: State, s': State) {
    && s.pc == User
    && s' == s.(flags := s.flags.(interruptible := false), pc := Kernel)
  }

  // Non-interruptible code of the current task.

  ghost predicate InKernel(s: State, me: Task) {
    s.pc == Kernel && s.current == Some(me) && me in s.tasks
  }

  /** Interrupts are only enabled again by a task that runs, or that was just removed. */
  ghost predicate EnableInterrupts(s: State, me: Task, s': State) {
    && InKernel(s, me) && (s.tasks[me].status == Running || s.tasks[me].status == Stopped)
    && s' == s.(pc := Check)
  }

  ghost predicate Schedule(s: State, me: Task, s': State) {
    && InKernel(s, me)
    && s' == s.(pc := Clear)
  }

  ghost predicate BlockSelf(s: State, me: Task, s': State) {
    && InKernel(s, me) && s.tasks[me].status == Running
    && s' == s.(tasks := s.tasks[me := s.tasks[me].(status := Blocked)])
  }

  ghost predicate UnblockSelf(s: State, me: Task, s': State) {
    && InKernel(s, me) && s.tasks[me].status == Blocked
    && s' == s.(tasks := s.tasks[me := s.tasks[me].(status := Running)])
  }

  ghost predicate YieldSelf(s: State, me: Task, c: nat, s': State) {
    && InKernel(s, me) && s.tasks[me].status == Running && c !in s.callers
    && s' == s.(tasks := s.tasks[me := s.tasks[me].(status := Ready)],
                callers := s.callers[c := Caller(Some(me), Entered)])
  }

  ghost predicate SetPrio(s: State, me: Task, p: nat, s': State) {
    && InKernel(s, me) && s.tasks[me].status == Running && p < PRIORITIES
    && s' == s.(tasks := s.tasks[me := s.tasks[me].(prio := p)], pc := PostSelf)
  }

  ghost predicate RemoveSelf(s: State, me: Task, s': State) {
    && InKernel(s, me) && s.tasks[me].status == Running
    && s' == s.(tasks := s.tasks[me := s.tasks[me].(status := Stopped, removing := true)], pc := PostSelf)
  }

  /** Removal of another task of this worker, with no ready() call for it under way. */
  ghost predicate RemoveOther(s: State, me: Task, t: Task, s': State) {
    && InKernel(s, me) && t != me && t in s.tasks && (s.tasks[t].status == Ready || s.tasks[t].status == Blocked)
    && (forall c :: c in s.callers ==> s.callers[c].task != Some(t))
    && s' == s.(tasks := s.tasks[t := s.tasks[t].(status := Stopped, removing := true)])
  }

  ghost predicate StopSelf(s: State, me: Task, s': State) {
    && InKernel(s, me)
    && s' == s.(flags := s.flags.(stop := true), pc := Start)
  }

  ghost predicate SignalSelf(s: State, s': State) {
    && s.pc == PostSelf
    && s' == s.(flags := s.flags.(pending := true), pc := Kernel)
  }

  // ---------------------------------------------------------------- runs

  datatype Action =
    | AddA(t: Task, p: nat, c: nat) | UnblockA(t: Task, c: nat)
    | PushA(c: nat, t: Task) | MaskA(c: nat, t: Task) | ReadIdA(c: nat, t: Task) | ReadPrioA(c: nat, t: Task)
    | DecideA(c: nat, t: Task) | PostA(c: nat) | ClearIdleA(c: nat) | ResumeA(c: nat) | SendA(c: nat)
    | StopA(c: nat) | DeliverA
    | EnterA | CheckA | ClearA | DrainA(t: Task) | DrainDoneA | DrainStepA | LoadA | ScanA(p: nat) | ScanStepA
    | ScanDoneA | ChooseA | PreemptA(t: Task) | PopA(t: Task) | InstallA(resume: Label) | IdleA | WakeA
    | EnableA | DisableA
    | IntEnableA(me: Task) | ScheduleA(me: Task) | BlockA(me: Task) | UnblockSelfA(me: Task)
    | YieldA(me: Task, c: nat) | SetPrioA(me: Task, p: nat) | RemoveSelfA(me: Task)
    | RemoveOtherA(me: Task, t: Task) | StopSelfA(me: Task) | SignalA

  ghost predicate Step(s: State, a: Action, s': State) {
    match a
    case AddA(t, p, c) => AddTask(s, t, p, c, s')
    case UnblockA(t, c) => Unblock(s, t, c, s')
    case PushA(c, t) => PushReady(s, c, t, s')
    case MaskA(c, t) => SetMask(s, c, t, s')
    case ReadIdA(c, t) => ReadId(s, c, t, s')
    case ReadPrioA(c, t) => ReadPrio(s, c, t, s')
    case DecideA(c, t) => Decide(s, c, t, s')
    case PostA(c) => Post(s, c, s')
    case ClearIdleA(c) => ClearIdle(s, c, s')
    case ResumeA(c) => Resume(s, c, s')
    case SendA(c) => SendInterrupt(s, c, s')
    case StopA(c) => RequestStop(s, c, s')
    case DeliverA => Deliver(s, s')
    case EnterA => Enter(s, s')
    case CheckA => CheckFlags(s, s')
    case ClearA => ClearCurrent(s, s')
    case DrainA(t) => DrainOne(s, t, s')
    case DrainDoneA => DrainDone(s, s')
    case DrainStepA => DrainStep(s, s')
    case LoadA => LoadMask(s, s')
    case ScanA(p) => ScanLevel(s, p, s')
    case ScanStepA => ScanStep(s, s')
    case ScanDoneA => ScanDone(s, s')
    case ChooseA => Choose(s, s')
    case PreemptA(t) => FinishPreempt(s, t, s')
    case PopA(t) => PopNext(s, t, s')
    case InstallA(resume) => InstallNext(s, resume, s')
    case IdleA => GoIdle(s, s')
    case WakeA => Wake(s, s')
    case EnableA => TryEnable(s, s')
    case DisableA => Disable(s, s')
    case IntEnableA(me) => EnableInterrupts(s, me, s')
    case ScheduleA(me) => Schedule(s, me, s')
    case BlockA(me) => BlockSelf(s, me, s')
    case UnblockSelfA(me) => UnblockSelf(s, me, s')
    case YieldA(me, c) => YieldSelf(s, me, c, s')
    case SetPrioA(me, p) => SetPrio(s, me, p, s')
    case RemoveSelfA(me) => RemoveSelf(s, me, s')
    case RemoveOtherA(me, t) => RemoveOther(s, me, t, s')
    case StopSelfA(me) => StopSelf(s, me, s')
    case SignalA => SignalSelf(s, s')
  }

  /** A finite run: the states it visits and the action between each two. */
  ghost predicate StepAt(states: seq<State>, actions: seq<Action>, i: nat) {
    i < |actions| && i + 1 < |states| && Step(states[i], actions[i], states[i + 1])
  }

  ghost predicate Run(states: seq<State>, actions: seq<Action>) {
    && |states| == |actions| + 1 && Init(states[0])
    && forall i: nat {:trigger StepAt(states, actions, i)} :: i < |actions| ==> StepAt(states, actions, i)
  }
}
