/** What every step of the worker protocol keeps, and the theorems about all reachable states. */
module WorkerProof {
  import opened Common
  import opened Worker

  // ---------------------------------------------------------------- the invariant

  ghost predicate Known(s: State, t: Option<Task>) {
    t.Some? ==> t.value in s.tasks
  }

  /** The worker is inside the scheduler, between clearing and publishing the current task. */
  ghost predicate Scheduling(pc: Label) {
    Draining(pc) || Selecting(pc)
  }

  ghost predicate Draining(pc: Label) {
    pc == Drain || pc == DrainProbe || pc == DrainClear || pc == DrainReprobe || pc == DrainReset
  }

  /** The remove queue was drained. */
  ghost predicate Selecting(pc: Label) {
    pc == Load || pc == Scan || pc == ScanClear || pc == ScanReprobe || pc == ScanReset || HasFound(pc)
    || pc == Install || pc == Idle
  }

  ghost predicate HasFound(pc: Label) {
    pc == Found || pc == Preempt || pc == Pop
  }

  ghost predicate Shape(s: State) {
    && (forall t :: t in s.tasks ==> s.tasks[t].prio < PRIORITIES)
    && (forall c :: c in s.callers ==> Known(s, s.callers[c].task))
    && Known(s, s.current) && Known(s, s.hand)
  }

  ghost predicate FlagsOk(s: State) {
    && (s.flags.interruptible <==> s.pc == User)
    && (s.flags.idle ==> s.pc == Suspended)
    && (s.pc == Suspended ==> s.flags.pending)
  }

  ghost function Resumers(callers: map<nat, Caller>): set<nat> {
    set c | c in callers && callers[c].phase == Resuming
  }

  /** Resume tokens, posters about to resume and the idle flag account for the one suspended thread. */
  ghost predicate WakeUpAccount(s: State) {
    s.tokens + |Resumers(s.callers)| + (if s.flags.idle then 1 else 0) == if s.pc == Suspended then 1 else 0
  }

  ghost predicate NoInterruptDue(s: State) {
    !s.flags.interruptible || !s.flags.pending || s.signal
  }

  /** Interruptible with the pending flag set: an interrupt was sent or is about to be. */
  ghost predicate InterruptComing(s: State) {
    NoInterruptDue(s) || exists c :: AtPhase(s, c, Sending)
  }

  /** What the fields of a task say about each other. */
  ghost predicate TaskOk(s: State, t: Task)
    requires t in s.tasks
  {
    var i := s.tasks[t];
    && (i.removing <==> i.status == Stopped)
    && (i.queued ==> i.status == Ready || i.removing || (i.status == Running && s.pc == Preempt && s.hand == Some(t)))
    && (i.status == Running ==> s.current == Some(t) || s.hand == Some(t))
    && (Selecting(s.pc) ==> !i.removing)
  }

  ghost predicate EnteredOk(s: State, c: nat) {
    AtPhase(s, c, Entered) ==>
      HasStatus(s, s.callers[c].task, Ready) && !s.tasks[s.callers[c].task.value].queued
  }

  ghost predicate TasksOk(s: State) {
    && (forall t :: t in s.tasks ==> TaskOk(s, t))
    && (forall c :: c in s.callers ==> EnteredOk(s, c))
    && (forall c, d :: AtPhase(s, c, Entered) && AtPhase(s, d, Entered) && s.callers[c].task == s.callers[d].task ==> c == d)
  }

  ghost predicate HandOk(s: State) {
    && (Scheduling(s.pc) || s.pc == Suspended ==> s.current == None)
    && (!Scheduling(s.pc) || s.pc == Pop || s.pc == Idle ==> s.hand == None)
    && (s.pc == Enable || s.pc == User || s.pc == Kernel || s.pc == PostSelf ==> s.current.Some?)
    && (s.pc == Check && s.current.None? ==> s.flags.pending || s.flags.stop)
    && (s.pc == Check || s.pc == Enable || s.pc == User ==>
          s.current.None? || HasStatus(s, s.current, Running) || HasStatus(s, s.current, Stopped))
    && (s.pc == Check || s.pc == Enable || s.pc == User || s.pc == Kernel ==>
          HasStatus(s, s.current, Stopped) ==> s.flags.pending)
    && (s.pc == Install || s.pc == Preempt ==> HasStatus(s, s.hand, Running))
    && (s.pc == Preempt && s.hand.Some? && s.hand.value in s.tasks ==> s.level < s.tasks[s.hand.value].prio)
    && (s.pc == ScanClear || s.pc == ScanReprobe ==> IsLowest(s.left, s.level))
  }

  ghost predicate AtLevel(s: State, t: Task, p: nat) {
    t in s.tasks && s.tasks[t].queued && s.tasks[t].prio == p
  }

  /** The ready task that was found stays in its queue until it is popped. */
  ghost predicate FoundOk(s: State) {
    HasFound(s.pc) || s.pc == ScanReset ==> exists t :: AtLevel(s, t, s.level)
  }

  ghost predicate PushedFor(s: State, c: nat, t: Task) {
    AtPhase(s, c, Pushed) && s.callers[c].task == Some(t)
  }

  ghost predicate Queued(s: State, t: Task) {
    t in s.tasks && s.tasks[t].queued
  }

  ghost predicate MaskSoon(s: State, t: Task)
    requires t in s.tasks
  {
    || s.tasks[t].prio in s.mask
    || ((s.pc == DrainReprobe || s.pc == DrainReset || s.pc == ScanReprobe || s.pc == ScanReset)
        && s.level == s.tasks[t].prio)
    || (s.pc == Preempt && s.hand == Some(t))
  }

  /** A queued task has its mask bit, or someone is about to set it. */
  ghost predicate MaskOk(s: State) {
    forall t :: Queued(s, t) ==> MaskSoon(s, t) || exists c :: PushedFor(s, c, t)
  }

  /** The worker will look at level `p` before it runs a task, or has chosen at least as well. */
  ghost predicate WillSee(s: State, p: nat) {
    match s.pc
    case Scan => p in s.left
    case ScanClear => p in s.left
    case ScanReprobe => p in s.left
    case ScanReset => s.level <= p
    case Found => s.level <= p
    case Preempt => s.level <= p
    case Pop => s.level <= p
    case Install => AtMost(s, s.hand, p)
    case Suspended => !s.flags.idle
    case Check => AtMost(s, s.current, p)
    case Enable => AtMost(s, s.current, p)
    case User => AtMost(s, s.current, p)
    case Kernel => AtMost(s, s.current, p)
    case Idle => false
    case _ => true
  }

  ghost predicate AtMost(s: State, t: Option<Task>, p: nat) {
    t.Some? && t.value in s.tasks && s.tasks[t.value].prio <= p
  }

  ghost predicate CallerCovers(s: State, c: nat, t: Task) {
    && c in s.callers && s.callers[c].task == Some(t)
    && match s.callers[c].phase
       case Pushed => true
       case Masked => true
       case SawId(id) => id.None? || id == s.current
       case SawPrio(lowest) => t in s.tasks && s.tasks[t].prio < lowest
       case Posting => true
       case Waking => s.flags.idle
       case _ => false
  }

  ghost predicate SelfCovered(s: State, t: Task)
    requires t in s.tasks
  {
    (s.flags.pending && !s.flags.idle) || WillSee(s, s.tasks[t].prio)
  }

  /** A queued task is no more urgent than the running one, or the worker will rescan. */
  ghost predicate Cover(s: State) {
    forall t :: Queued(s, t) ==> SelfCovered(s, t) || exists c :: CallerCovers(s, c, t)
  }

  ghost predicate StopperAt(s: State, c: nat) {
    && c in s.callers && s.callers[c].task.None?
    && (s.callers[c].phase == Posting || (s.callers[c].phase == Waking && s.flags.idle))
  }

  ghost predicate StopSeen(s: State) {
    !s.flags.stop || (s.flags.pending && !s.flags.idle) || s.pc == Exited || s.pc == Start
  }

  /** A stop request that was made is still on its way to the worker. */
  ghost predicate StopOk(s: State) {
    StopSeen(s) || exists c :: StopperAt(s, c)
  }

  ghost predicate Base(s: State) {
    Shape(s) && FlagsOk(s) && WakeUpAccount(s) && TasksOk(s) && HandOk(s)
  }

  ghost predicate Links(s: State) {
    InterruptComing(s) && FoundOk(s) && MaskOk(s) && Cover(s) && StopOk(s)
  }

  ghost predicate Inv(s: State) {
    Base(s) && Links(s)
  }

  lemma InitInv(s: State)
    requires Init(s)
    ensures Inv(s)
  {
    assert Resumers(s.callers) == {};
  }

  // Carrying the existential clauses from one state to the next.

  lemma FoundKept(s: State, s': State, w: Task)
    requires FoundOk(s)
    requires HasFound(s'.pc) || s'.pc == ScanReset ==>
      AtLevel(s', w, s'.level) || ((HasFound(s.pc) || s.pc == ScanReset) && s'.level == s.level)
    requires forall t :: AtLevel(s, t, s.level) && (HasFound(s'.pc) || s'.pc == ScanReset) ==> AtLevel(s', t, s.level)
    ensures FoundOk(s')
  {
    if (HasFound(s'.pc) || s'.pc == ScanReset) && !AtLevel(s', w, s'.level) {
      var t :| AtLevel(s, t, s.level);
      assert AtLevel(s', t, s'.level);
    }
  }

  lemma MaskKept(s: State, s': State, w: nat)
    requires MaskOk(s)
    requires forall t :: Queued(s', t) && !MaskSoon(s', t) ==> PushedFor(s', w, t) || (Queued(s, t) && !MaskSoon(s, t))
    requires forall c, t :: PushedFor(s, c, t) && Queued(s', t) && !MaskSoon(s', t) ==> PushedFor(s', c, t)
    ensures MaskOk(s')
  {
    forall t | Queued(s', t) && !MaskSoon(s', t) ensures exists c :: PushedFor(s', c, t) {
      if !PushedFor(s', w, t) {
        var c :| PushedFor(s, c, t);
        assert PushedFor(s', c, t);
      }
    }
  }

  lemma CoverKept(s: State, s': State, w: nat)
    requires Cover(s)
    requires forall t :: Queued(s', t) && !SelfCovered(s', t) ==>
                           CallerCovers(s', w, t) || (Queued(s, t) && !SelfCovered(s, t))
    requires forall c, t :: CallerCovers(s, c, t) && Queued(s', t) && !SelfCovered(s', t) ==> CallerCovers(s', c, t)
    ensures Cover(s')
  {
    forall t | Queued(s', t) && !SelfCovered(s', t) ensures exists c :: CallerCovers(s', c, t) {
      if !CallerCovers(s', w, t) {
        var c :| CallerCovers(s, c, t);
        assert CallerCovers(s', c, t);
      }
    }
  }

  lemma InterruptKept(s: State, s': State, w: nat)
    requires InterruptComing(s)
    requires NoInterruptDue(s') || AtPhase(s', w, Sending) || !NoInterruptDue(s)
    requires forall c :: AtPhase(s, c, Sending) && !NoInterruptDue(s') ==> AtPhase(s', c, Sending)
    ensures InterruptComing(s')
  {
    if !NoInterruptDue(s') && !AtPhase(s', w, Sending) {
      var c :| AtPhase(s, c, Sending);
      assert AtPhase(s', c, Sending);
    }
  }

  lemma StopKept(s: State, s': State, w: nat)
    requires StopOk(s)
    requires StopSeen(s') || StopperAt(s', w) || !StopSeen(s)
    requires forall c :: StopperAt(s, c) && !StopSeen(s') ==> StopperAt(s', c)
    ensures StopOk(s')
  {
    if !StopSeen(s') && !StopperAt(s', w) {
      var c :| StopperAt(s, c);
      assert StopperAt(s', c);
    }
  }

  /** All the existential clauses at once; `w` and `f` witness what is new. */
  lemma LinksKept(s: State, s': State, w: nat, f: Task)
    requires Links(s)
    requires NoInterruptDue(s') || AtPhase(s', w, Sending) || !NoInterruptDue(s)
    requires forall c :: AtPhase(s, c, Sending) && !NoInterruptDue(s') ==> AtPhase(s', c, Sending)
    requires HasFound(s'.pc) || s'.pc == ScanReset ==>
      AtLevel(s', f, s'.level) || ((HasFound(s.pc) || s.pc == ScanReset) && s'.level == s.level)
    requires forall t :: AtLevel(s, t, s.level) && (HasFound(s'.pc) || s'.pc == ScanReset) ==> AtLevel(s', t, s.level)
    requires forall t :: Queued(s', t) && !MaskSoon(s', t) ==> PushedFor(s', w, t) || (Queued(s, t) && !MaskSoon(s, t))
    requires forall c, t :: PushedFor(s, c, t) && Queued(s', t) && !MaskSoon(s', t) ==> PushedFor(s', c, t)
    requires forall t :: Queued(s', t) && !SelfCovered(s', t) ==>
      CallerCovers(s', w, t) || (Queued(s, t) && !SelfCovered(s, t))
    requires forall c, t :: CallerCovers(s, c, t) && Queued(s', t) && !SelfCovered(s', t) ==> CallerCovers(s', c, t)
    requires StopSeen(s') || StopperAt(s', w) || !StopSeen(s)
    requires forall c :: StopperAt(s, c) && !StopSeen(s') ==> StopperAt(s', c)
    ensures Links(s')
  {
    InterruptKept(s, s', w);
    FoundKept(s, s', f);
    MaskKept(s, s', w);
    CoverKept(s, s', w);
    StopKept(s, s', w);
  }
}
