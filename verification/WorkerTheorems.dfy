/** The theorems about every reachable state of the worker protocol. */
module WorkerTheorems {
  import opened Common
  import opened Worker
  import opened WorkerProof
  import opened WorkerSteps

  ghost predicate ReadyCallStep(a: Action) {
    a.AddA? || a.UnblockA? || a.PushA? || a.MaskA? || a.ReadIdA? || a.ReadPrioA? || a.DecideA?
  }

  ghost predicate PostCallStep(a: Action) {
    a.PostA? || a.ClearIdleA? || a.ResumeA? || a.SendA? || a.StopA? || a.DeliverA?
  }

  ghost predicate GetNextStep(a: Action) {
    a.ClearA? || a.DrainA? || a.DrainDoneA? || a.DrainStepA? || a.LoadA? || a.ScanA? || a.ScanStepA?
    || a.ScanDoneA? || a.ChooseA? || a.PreemptA? || a.PopA? || a.InstallA?
  }

  ghost predicate WorkerLoopStep(a: Action) {
    a.EnterA? || a.CheckA? || a.IdleA? || a.WakeA? || a.EnableA? || a.DisableA? || a.SignalA?
  }

  lemma ReadyStepKeepsInv(s: State, a: Action, s': State)
    requires Inv(s) && Step(s, a, s')
    requires ReadyCallStep(a)
    ensures Inv(s')
  {
    match a
    case AddA(t, p, c) => AddKeeps(s, t, p, c, s'); AddLinks(s, t, p, c, s');
    case UnblockA(t, c) => UnblockKeeps(s, t, c, s'); UnblockLinks(s, t, c, s');
    case PushA(c, t) => PushKeeps(s, c, t, s'); PushLinks(s, c, t, s');
    case MaskA(c, t) => MaskKeeps(s, c, t, s'); MaskLinks(s, c, t, s');
    case ReadIdA(c, t) => ReadIdKeeps(s, c, t, s'); ReadIdLinks(s, c, t, s');
    case ReadPrioA(c, t) => ReadPrioKeeps(s, c, t, s'); ReadPrioLinks(s, c, t, s');
    case DecideA(c, t) => DecideKeeps(s, c, t, s'); DecideLinks(s, c, t, s');
    case _ =>
  }

  lemma PostStepKeepsInv(s: State, a: Action, s': State)
    requires Inv(s) && Step(s, a, s')
    requires PostCallStep(a)
    ensures Inv(s')
  {
    match a
    case PostA(c) => PostKeeps(s, c, s'); PostLinks(s, c, s');
    case ClearIdleA(c) => ClearIdleKeeps(s, c, s'); ClearIdleLinks(s, c, s');
    case ResumeA(c) => ResumeKeeps(s, c, s'); ResumeLinks(s, c, s');
    case SendA(c) => SendKeeps(s, c, s'); SendLinks(s, c, s');
    case StopA(c) => StopKeeps(s, c, s'); StopLinks(s, c, s');
    case DeliverA => DeliverKeeps(s, s'); DeliverLinks(s, s');
    case _ =>
  }

  lemma GetNextStepKeepsInv(s: State, a: Action, s': State)
    requires Inv(s) && Step(s, a, s')
    requires GetNextStep(a)
    ensures Inv(s')
  {
    match a
    case ClearA => ClearKeeps(s, s');
    case DrainA(t) => DrainKeeps(s, t, s'); DrainLinks(s, t, s');
    case DrainDoneA => DrainDoneKeeps(s, s');
    case DrainStepA => DrainStepKeeps(s, s'); DrainStepLinks(s, s');
    case LoadA => LoadKeeps(s, s'); LoadLinks(s, s');
    case ScanA(p) => ScanKeeps(s, p, s'); ScanLinks(s, p, s');
    case ScanStepA => ScanStepKeeps(s, s'); ScanStepLinks(s, s');
    case ScanDoneA => ScanDoneKeeps(s, s');
    case ChooseA => ChooseKeeps(s, s'); ChooseLinks(s, s');
    case PreemptA(t) => PreemptKeeps(s, t, s');
    case PopA(t) => PopKeeps(s, t, s'); PopLinks(s, t, s');
    case InstallA(r) => InstallKeeps(s, r, s');
    case _ =>
  }

  lemma LoopStepKeepsInv(s: State, a: Action, s': State)
    requires Inv(s) && Step(s, a, s')
    requires WorkerLoopStep(a)
    ensures Inv(s')
  {
    match a
    case EnterA => EnterKeeps(s, s'); EnterLinks(s, s');
    case CheckA => CheckKeeps(s, s'); CheckLinks(s, s');
    case IdleA => IdleKeeps(s, s'); IdleLinks(s, s');
    case WakeA => WakeKeeps(s, s');
    case EnableA => EnableKeeps(s, s'); EnableLinks(s, s');
    case DisableA => DisableKeeps(s, s');
    case SignalA => SignalKeeps(s, s');
    case _ =>
  }

  lemma KernelStepKeepsInv(s: State, a: Action, s': State)
    requires Inv(s) && Step(s, a, s')
    requires !ReadyCallStep(a) && !PostCallStep(a) && !GetNextStep(a) && !WorkerLoopStep(a)
    ensures Inv(s')
  {
    match a
    case IntEnableA(me) => IntEnableKeeps(s, me, s');
    case ScheduleA(me) => ScheduleKeeps(s, me, s');
    case BlockA(me) => BlockKeeps(s, me, s');
    case UnblockSelfA(me) => UnblockSelfKeeps(s, me, s');
    case YieldA(me, c) => YieldKeeps(s, me, c, s');
    case SetPrioA(me, p) => SetPrioKeeps(s, me, p, s');
    case RemoveSelfA(me) => RemoveSelfKeeps(s, me, s');
    case RemoveOtherA(me, t) => RemoveOtherKeeps(s, me, t, s');
    case StopSelfA(me) => StopSelfKeeps(s, me, s');
    case _ =>
  }

  lemma StepKeepsInv(s: State, a: Action, s': State)
    requires Inv(s) && Step(s, a, s')
    ensures Inv(s')
  {
    if ReadyCallStep(a) {
      ReadyStepKeepsInv(s, a, s');
    } else if PostCallStep(a) {
      PostStepKeepsInv(s, a, s');
    } else if GetNextStep(a) {
      GetNextStepKeepsInv(s, a, s');
    } else if WorkerLoopStep(a) {
      LoopStepKeepsInv(s, a, s');
    } else {
      KernelStepKeepsInv(s, a, s');
    }
  }

  lemma InvAt(states: seq<State>, actions: seq<Action>, n: nat)
    requires Run(states, actions) && n < |states| && (n == 0 || Inv(states[n - 1]))
    ensures Inv(states[n])
  {
    if n == 0 {
      InitInv(states[0]);
    } else {
      assert StepAt(states, actions, n - 1);
      StepKeepsInv(states[n - 1], actions[n - 1], states[n]);
    }
  }

  lemma {:induction false} RunKeepsInv(states: seq<State>, actions: seq<Action>, i: nat)
    requires Run(states, actions) && i < |states|
    ensures Inv(states[i])
  {
    if i > 0 {
      RunKeepsInv(states, actions, i - 1);
    }
    InvAt(states, actions, i);
  }

  // ---------------------------------------------------------------- ready tasks are in their queue

  ghost predicate EnteredFor(s: State, c: nat, t: Task) {
    AtPhase(s, c, Entered) && s.callers[c].task == Some(t)
  }

  /** The task is READY, or in a ready queue. */
  ghost predicate Runnable(s: State, t: Task) {
    Queued(s, t) || HasStatus(s, Some(t), Ready)
  }

  ghost predicate Unqueued(s: State, t: Task) {
    HasStatus(s, Some(t), Ready) && !s.tasks[t].queued
  }

  /** A READY task is in its queue, or its ready() call has not pushed it yet. */
  ghost predicate ReadyOk(s: State) {
    && (forall t: Task :: Unqueued(s, t) ==> exists c :: EnteredFor(s, c, t))
    && (s.pc == Preempt ==> s.hand.Some? && Queued(s, s.hand.value))
  }

  lemma ReadyKept(s: State, s': State, t: Task, c: nat)
    requires ReadyOk(s)
    requires forall u: Task :: Unqueued(s', u) ==> (u == t && EnteredFor(s', c, t)) || Unqueued(s, u)
    requires forall d, u: Task :: EnteredFor(s, d, u) && Unqueued(s', u) ==> EnteredFor(s', d, u)
    requires s'.pc == Preempt ==> s'.hand.Some? && Queued(s', s'.hand.value)
    ensures ReadyOk(s')
  {
    forall u: Task | Unqueued(s', u) ensures exists d :: EnteredFor(s', d, u) {
      if !(u == t && EnteredFor(s', c, t)) {
        var d :| EnteredFor(s, d, u);
        assert EnteredFor(s', d, u);
      }
    }
  }

  /** The steps of a ready() call that has pushed its task. */
  lemma PushedKeepsReady(s: State, a: Action, s': State)
    requires ReadyOk(s) && Step(s, a, s') && (a.MaskA? || a.ReadIdA? || a.ReadPrioA? || a.DecideA?)
    ensures ReadyOk(s')
  {
    ReadyKept(s, s', a.t, a.c);
  }

  lemma PushKeepsReady(s: State, a: Action, s': State)
    requires ReadyOk(s) && Step(s, a, s') && (a.AddA? || a.UnblockA? || a.PushA?)
    ensures ReadyOk(s')
  {
    ReadyKept(s, s', a.t, a.c);
  }

  lemma ReadyCallKeepsReady(s: State, a: Action, s': State)
    requires ReadyOk(s) && Step(s, a, s') && ReadyCallStep(a)
    ensures ReadyOk(s')
  {
    if a.AddA? || a.UnblockA? || a.PushA? {
      PushKeepsReady(s, a, s');
    } else {
      PushedKeepsReady(s, a, s');
    }
  }

  lemma PostCallKeepsReady(s: State, a: Action, s': State)
    requires ReadyOk(s) && Step(s, a, s') && PostCallStep(a)
    ensures ReadyOk(s')
  {
    ReadyKept(s, s', 0, 0);
  }

  /** The steps of get_next that change a task. */
  ghost predicate ChangesTask(a: Action) {
    a.DrainA? || a.ChooseA? || a.PreemptA? || a.PopA?
  }

  lemma ChoiceKeepsReady(s: State, a: Action, s': State)
    requires ReadyOk(s) && Step(s, a, s') && ChangesTask(a)
    ensures ReadyOk(s')
  {
    ReadyKept(s, s', 0, 0);
  }

  lemma ScanKeepsReady(s: State, a: Action, s': State)
    requires ReadyOk(s) && Step(s, a, s') && GetNextStep(a) && !ChangesTask(a)
    ensures ReadyOk(s')
  {
    ReadyKept(s, s', 0, 0);
  }

  lemma GetNextKeepsReady(s: State, a: Action, s': State)
    requires ReadyOk(s) && Step(s, a, s') && GetNextStep(a)
    ensures ReadyOk(s')
  {
    if ChangesTask(a) {
      ChoiceKeepsReady(s, a, s');
    } else {
      ScanKeepsReady(s, a, s');
    }
  }

  lemma OtherKeepsReady(s: State, a: Action, s': State)
    requires ReadyOk(s) && Step(s, a, s') && !ReadyCallStep(a) && !PostCallStep(a) && !GetNextStep(a)
    ensures ReadyOk(s')
  {
    if a.YieldA? {
      ReadyKept(s, s', a.me, a.c);
    } else {
      ReadyKept(s, s', 0, 0);
    }
  }

  lemma {:induction false} RunKeepsReady(states: seq<State>, actions: seq<Action>, n: nat)
    requires Run(states, actions) && n < |states|
    ensures ReadyOk(states[n])
  {
    if n > 0 {
      RunKeepsReady(states, actions, n - 1);
      ReadyAt(states, actions, n);
    }
  }

  lemma ReadyAt(states: seq<State>, actions: seq<Action>, n: nat)
    requires Run(states, actions) && 0 < n < |states| && ReadyOk(states[n - 1])
    ensures ReadyOk(states[n])
  {
    assert StepAt(states, actions, n - 1);
    var s, a, s' := states[n - 1], actions[n - 1], states[n];
    if ReadyCallStep(a) {
      ReadyCallKeepsReady(s, a, s');
    } else if PostCallStep(a) {
      PostCallKeepsReady(s, a, s');
    } else if GetNextStep(a) {
      GetNextKeepsReady(s, a, s');
    } else {
      OtherKeepsReady(s, a, s');
    }
  }

  /** Some call, ready() for `t` or stop(), is under way. */
  ghost predicate Calling(s: State, t: Option<Task>) {
    exists c :: c in s.callers && s.callers[c].task == t
  }

  /** In every state of every run a READY task is in its ready queue, or its ready() call has not pushed it
      yet. */
  lemma ReadyIsQueued(states: seq<State>, actions: seq<Action>, i: nat, t: Task)
    requires Run(states, actions) && i < |states| && HasStatus(states[i], Some(t), Ready)
    ensures Queued(states[i], t) || exists c :: EnteredFor(states[i], c, t)
  {
    RunKeepsReady(states, actions, i);
    assert Queued(states[i], t) || Unqueued(states[i], t);
  }

  /** No missed preemption: while the flags word is exactly INTERRUPTIBLE, a task that is READY or in a queue
      and more urgent than the running one still has its ready() call under way. */
  lemma NoMissedPreemption(states: seq<State>, actions: seq<Action>, i: nat)
    requires Run(states, actions) && i < |states|
    requires states[i].flags == Flags(true, false, false, false)
    ensures HasStatus(states[i], states[i].current, Running)
    ensures forall t: Task :: Runnable(states[i], t) && states[i].tasks[t].prio < states[i].tasks[states[i].current.value].prio ==>
              Calling(states[i], Some(t))
  {
    RunKeepsInv(states, actions, i);
    var s := states[i];
    forall t: Task | Runnable(s, t) && s.tasks[t].prio < s.tasks[s.current.value].prio
      ensures Calling(s, Some(t))
    {
      if Queued(s, t) {
        assert !SelfCovered(s, t);
        var c :| CallerCovers(s, c, t);
        assert c in s.callers && s.callers[c].task == Some(t);
      } else {
        UnqueuedIsCalling(states, actions, i, t);
      }
    }
  }

  lemma UnqueuedIsCalling(states: seq<State>, actions: seq<Action>, i: nat, t: Task)
    requires Run(states, actions) && i < |states| && HasStatus(states[i], Some(t), Ready)
    ensures Queued(states[i], t) || Calling(states[i], Some(t))
  {
    ReadyIsQueued(states, actions, i, t);
    if !Queued(states[i], t) {
      var c :| EnteredFor(states[i], c, t);
      assert c in states[i].callers && states[i].callers[c].task == Some(t);
    }
  }

  /** An interruptible worker with a pending request has an interrupt under way. */
  lemma PendingInterruptIsUnderWay(states: seq<State>, actions: seq<Action>, i: nat)
    requires Run(states, actions) && i < |states|
    requires states[i].flags.interruptible && states[i].flags.pending
    ensures states[i].signal || exists c :: AtPhase(states[i], c, Sending)
  {
    RunKeepsInv(states, actions, i);
  }

  /** No lost wake-up: the account of one suspended thread, and what a thread that sleeps for good may
      leave in its queues. */
  lemma NoLostWakeUp(states: seq<State>, actions: seq<Action>, i: nat)
    requires Run(states, actions) && i < |states|
    ensures states[i].tokens + |Resumers(states[i].callers)| + (if states[i].flags.idle then 1 else 0)
            == if states[i].pc == Suspended then 1 else 0
    ensures states[i].pc != Suspended ==> !states[i].flags.idle
    ensures states[i].pc == Suspended && states[i].flags.idle ==>
              forall t: Task :: Runnable(states[i], t) ==> Calling(states[i], Some(t))
    ensures states[i].pc == Suspended && states[i].callers == map[] && states[i].tokens == 0 ==>
              forall t: Task :: !Runnable(states[i], t)
  {
    RunKeepsInv(states, actions, i);
    var s := states[i];
    if s.pc == Suspended && s.flags.idle {
      forall t: Task | Runnable(s, t) ensures Calling(s, Some(t)) {
        if Queued(s, t) {
          assert !SelfCovered(s, t);
          var c :| CallerCovers(s, c, t);
          assert c in s.callers && s.callers[c].task == Some(t);
        } else {
          UnqueuedIsCalling(states, actions, i, t);
        }
      }
    }
    if s.callers == map[] {
      assert Resumers(s.callers) == {};
    }
  }

  /** The ready mask never hides work: a task in a queue has its bit, or a ready() call for it is between
      its push and its fetch_or, or the worker is between clearing that bit and the end of its recheck. */
  lemma MaskNeverHidesWork(states: seq<State>, actions: seq<Action>, i: nat, t: Task)
    requires Run(states, actions) && i < |states| && Queued(states[i], t)
    ensures MaskSoon(states[i], t) || exists c :: PushedFor(states[i], c, t)
  {
    RunKeepsInv(states, actions, i);
  }

  /** A stop request that was posted reaches the worker: it is woken, interrupted or about to look, whatever
      ready() calls are under way. */
  lemma StopIsNotLost(states: seq<State>, actions: seq<Action>, i: nat)
    requires Run(states, actions) && i < |states|
    requires states[i].flags.stop && !Calling(states[i], None) && states[i].pc != Exited
    ensures states[i].flags.pending || states[i].pc == Start
    ensures states[i].pc == Suspended ==> states[i].tokens + |Resumers(states[i].callers)| == 1
    ensures states[i].pc == User ==> states[i].signal || exists c :: AtPhase(states[i], c, Sending)
  {
    RunKeepsInv(states, actions, i);
    StopperIsCalling(states[i]);
  }

  lemma StopperIsCalling(s: State)
    requires StopOk(s)
    ensures StopSeen(s) || Calling(s, None)
  {
    if !StopSeen(s) {
      var c :| StopperAt(s, c);
      assert c in s.callers && s.callers[c].task == None;
    }
  }

  /** At most one task is RUNNING; interruptible code and task code always have a current task; a task
      taken from a ready queue is READY. */
  lemma OneTaskRuns(states: seq<State>, actions: seq<Action>, i: nat)
    requires Run(states, actions) && i < |states|
    ensures forall t: Task, u: Task :: HasStatus(states[i], Some(t), Running) && HasStatus(states[i], Some(u), Running) ==> t == u
    ensures states[i].pc == User ==> HasStatus(states[i], states[i].current, Running) || states[i].flags.pending
    ensures states[i].pc == Kernel || states[i].pc == Enable ==> states[i].current.Some?
    ensures states[i].pc == Pop ==> (exists t :: AtLevel(states[i], t, states[i].level))
                                    && forall t: Task :: Queued(states[i], t) ==> states[i].tasks[t].status == Ready
  {
    RunKeepsInv(states, actions, i);
    var s := states[i];
    forall t: Task, u: Task | HasStatus(s, Some(t), Running) && HasStatus(s, Some(u), Running) ensures t == u {
      assert TaskOk(s, t) && TaskOk(s, u);
    }
    if s.pc == Pop {
      forall t: Task | Queued(s, t) ensures s.tasks[t].status == Ready {
        assert TaskOk(s, t);
      }
    }
  }

  // ---------------------------------------------------------------- what becomes of a task

  /** The state of task `t` after an action. */
  ghost function NextStatus(s: State, a: Action, t: Task): Status
    requires t in s.tasks
  {
    var st := s.tasks[t].status;
    match a
    case UnblockA(x, _) => if x == t then Ready else st
    case DrainA(x) => if x == t && s.hand != Some(t) then Zombie else st
    case PreemptA(x) => if x == t then Ready else st
    case PopA(x) => if x == t then Running else st
    case BlockA(x) => if x == t then Blocked else st
    case UnblockSelfA(x) => if x == t then Running else st
    case YieldA(x, _) => if x == t then Ready else st
    case RemoveSelfA(x) => if x == t then Stopped else st
    case RemoveOtherA(_, x) => if x == t then Stopped else st
    case _ => st
  }

  /** Tasks move from state to state as their life cycle says, and change their priority only themselves. */
  lemma TaskMoves(s: State, a: Action, s': State, t: Task)
    requires Step(s, a, s') && t in s.tasks
    ensures t in s'.tasks && s'.tasks[t].status == NextStatus(s, a, t)
    ensures s'.tasks[t].prio == if a.SetPrioA? && a.me == t then a.p else s.tasks[t].prio
  {
    if !TaskAction(a) {
      TasksSame(s, a, s');
    } else if ChangesTask(a) {
      ChoiceMoves(s, a, s', t);
    } else {
      OtherMoves(s, a, s', t);
    }
  }

  /** The actions that change a task. */
  ghost predicate TaskAction(a: Action) {
    a.AddA? || a.UnblockA? || a.PushA? || ChangesTask(a) || a.BlockA? || a.UnblockSelfA? || a.YieldA? || a.SetPrioA?
    || a.RemoveSelfA? || a.RemoveOtherA?
  }

  lemma TasksSame(s: State, a: Action, s': State)
    requires Step(s, a, s') && !TaskAction(a)
    ensures s'.tasks == s.tasks
  {
    if ReadyCallStep(a) {
      CallTasksSame(s, a, s');
    } else if GetNextStep(a) {
      ScanTasksSame(s, a, s');
    } else {
      RestTasksSame(s, a, s');
    }
  }

  lemma CallTasksSame(s: State, a: Action, s': State)
    requires Step(s, a, s') && !TaskAction(a) && ReadyCallStep(a)
    ensures s'.tasks == s.tasks
  {
  }

  lemma ScanTasksSame(s: State, a: Action, s': State)
    requires Step(s, a, s') && !TaskAction(a) && GetNextStep(a)
    ensures s'.tasks == s.tasks
  {
  }

  lemma RestTasksSame(s: State, a: Action, s': State)
    requires Step(s, a, s') && !TaskAction(a) && !ReadyCallStep(a) && !GetNextStep(a)
    ensures s'.tasks == s.tasks
  {
  }

  lemma ChoiceMoves(s: State, a: Action, s': State, t: Task)
    requires Step(s, a, s') && t in s.tasks && ChangesTask(a)
    ensures t in s'.tasks && s'.tasks[t].status == NextStatus(s, a, t) && s'.tasks[t].prio == s.tasks[t].prio
  {
  }

  lemma OtherMoves(s: State, a: Action, s': State, t: Task)
    requires Step(s, a, s') && t in s.tasks && TaskAction(a) && !ChangesTask(a)
    ensures t in s'.tasks && s'.tasks[t].status == NextStatus(s, a, t)
    ensures s'.tasks[t].prio == if a.SetPrioA? && a.me == t then a.p else s.tasks[t].prio
  {
  }

  /** A task has the priority it was added with, or gave itself last. */
  lemma {:induction false} PriorityIsLastGiven(states: seq<State>, actions: seq<Action>, i: nat, n: nat, t: Task, p: nat)
    requires Run(states, actions) && i < n < |states|
    requires (actions[i].AddA? && actions[i].t == t && actions[i].p == p) || actions[i] == SetPrioA(t, p)
    requires forall k :: i < k < n ==> !(actions[k].SetPrioA? && actions[k].me == t)
    ensures t in states[n].tasks && states[n].tasks[t].prio == p
  {
    if i + 1 == n {
      assert StepAt(states, actions, i);
    } else {
      PriorityIsLastGiven(states, actions, i, n - 1, t, p);
      assert StepAt(states, actions, n - 1);
      TaskMoves(states[n - 1], actions[n - 1], states[n], t);
    }
  }

  // ---------------------------------------------------------------- a worker that nobody disturbs

  /** The action may set a flag: a post, a stop request, or the worker's own going idle or interruptible. */
  ghost predicate SetsFlag(a: Action) {
    a.PostA? || a.StopA? || a.SignalA? || a.StopSelfA? || a.EnableA? || a.IdleA?
  }

  lemma QuietStep(s: State, a: Action, s': State)
    requires s.flags == NO_FLAGS && Step(s, a, s') && !SetsFlag(a)
    ensures s'.flags == NO_FLAGS
  {
    if !(ReadyCallStep(a) || GetNextStep(a)) {
      QuietLoopStep(s, a, s');
    }
  }

  lemma QuietLoopStep(s: State, a: Action, s': State)
    requires s.flags == NO_FLAGS && Step(s, a, s') && !SetsFlag(a) && !ReadyCallStep(a) && !GetNextStep(a)
    ensures s'.flags == NO_FLAGS
  {
  }

  /** After a worker looked at its flags they stay clear until somebody posts or stops it. */
  lemma {:induction false} FlagsStayClear(states: seq<State>, actions: seq<Action>, i: nat, n: nat)
    requires Run(states, actions) && i < n < |states| && actions[i] == CheckA && states[i + 1].pc != Exited
    requires forall k :: i < k < n ==> !SetsFlag(actions[k])
    ensures states[n].flags == NO_FLAGS
  {
    if i + 1 == n {
      RunKeepsInv(states, actions, i);
      assert StepAt(states, actions, i);
    } else {
      FlagsStayClear(states, actions, i, n - 1);
      assert StepAt(states, actions, n - 1);
      QuietStep(states[n - 1], actions[n - 1], states[n]);
    }
  }

  /** So a worker that nobody disturbs after its check runs its task interruptibly, or parks. */
  lemma UndisturbedWorker(states: seq<State>, actions: seq<Action>, i: nat, n: nat)
    requires Run(states, actions) && i < n < |actions| && actions[i] == CheckA && states[i + 1].pc != Exited
    requires forall k :: i < k < n ==> !SetsFlag(actions[k])
    ensures actions[n] == EnableA ==> states[n + 1].pc == User && states[n + 1].flags == Flags(true, false, false, false)
    ensures actions[n] == IdleA ==> states[n + 1].pc == Suspended && states[n + 1].flags.idle
  {
    FlagsStayClear(states, actions, i, n);
    assert StepAt(states, actions, n);
  }

  // ---------------------------------------------------------------- requests are answered

  /** No step of the caller or of get_next resets the stop flag. */
  lemma StopStays(s: State, a: Action, s': State)
    requires Step(s, a, s') && (s.flags.stop || a.StopA? || a.StopSelfA?)
    ensures s'.flags.stop
  {
    if ReadyCallStep(a) {
      StopStaysInReady(s, a, s');
    } else if GetNextStep(a) {
      StopStaysInGetNext(s, a, s');
    }
  }

  lemma StopStaysInReady(s: State, a: Action, s': State)
    requires Step(s, a, s') && s.flags.stop && ReadyCallStep(a)
    ensures s'.flags.stop
  {
  }

  lemma StopStaysInGetNext(s: State, a: Action, s': State)
    requires Step(s, a, s') && s.flags.stop && GetNextStep(a)
    ensures s'.flags.stop
  {
  }

  /** A stop request is never forgotten. */
  lemma {:induction false} StopIsRemembered(states: seq<State>, actions: seq<Action>, i: nat, n: nat)
    requires Run(states, actions) && i < n < |states| && (actions[i].StopA? || actions[i].StopSelfA?)
    ensures states[n].flags.stop
  {
    assert StepAt(states, actions, n - 1);
    if i + 1 < n {
      StopIsRemembered(states, actions, i, n - 1);
    }
    StopStays(states[n - 1], actions[n - 1], states[n]);
  }

  /** An interrupted worker looks at its flags before it runs any code of a task, and a look that finds a
      request leads to the exit or into the scheduler. */
  lemma InterruptIsAnswered(states: seq<State>, actions: seq<Action>, n: nat)
    requires Run(states, actions) && n < |actions|
    ensures actions[n] == DeliverA && states[n].pc == User ==> states[n + 1].pc == Check && !states[n + 1].flags.interruptible
    ensures actions[n] == CheckA && states[n].flags.stop ==> states[n + 1].pc == Exited
    ensures actions[n] == CheckA && !states[n].flags.stop && states[n].flags.pending ==> states[n + 1].pc == Clear
  {
    RunKeepsInv(states, actions, n);
    assert StepAt(states, actions, n);
  }
}
