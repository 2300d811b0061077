/** Each step of the worker protocol keeps the invariant. */
module WorkerSteps {
  import opened Common
  import opened Worker
  import opened WorkerProof

  // ---------------------------------------------------------------- frames

  ghost predicate CallersBecome(s: State, c: nat, x: Option<Caller>, s': State) {
    s'.callers == match x case Some(k) => s.callers[c := k] case None => s.callers - {c}
  }

  ghost function Resuming1(x: Option<Caller>): nat {
    if x.Some? && x.value.phase == Resuming then 1 else 0
  }

  /** Only a caller that is about to resume the thread counts in the wake-up account. */
  lemma CountResumers(s: State, c: nat, x: Option<Caller>, s': State)
    requires CallersBecome(s, c, x, s')
    ensures |Resumers(s'.callers)| ==
            |Resumers(s.callers)| - (if c in Resumers(s.callers) then 1 else 0) + Resuming1(x)
  {
    if Resuming1(x) == 1 {
      assert Resumers(s'.callers) == Resumers(s.callers) + {c};
    } else {
      assert Resumers(s'.callers) == Resumers(s.callers) - {c};
    }
  }

  /** A caller moved on, arrived or left; the worker and the tasks did not change. */
  lemma CallerFrame(s: State, c: nat, x: Option<Caller>, s': State)
    requires Shape(s) && TasksOk(s) && HandOk(s) && CallersBecome(s, c, x, s')
    requires s'.tasks == s.tasks && s'.current == s.current && s'.pc == s.pc && s'.hand == s.hand
    requires s'.left == s.left && s'.level == s.level
    requires (s.flags.pending ==> s'.flags.pending) && (s.flags.stop ==> s'.flags.stop)
    requires x.Some? ==> Known(s, x.value.task) && x.value.phase != Entered
    ensures Shape(s') && TasksOk(s') && HandOk(s')
    ensures |Resumers(s'.callers)| ==
            |Resumers(s.callers)| - (if c in Resumers(s.callers) then 1 else 0) + Resuming1(x)
  {
    CountResumers(s, c, x, s');
    CallerTasks(s, c, x, s');
  }

  lemma CallerTasks(s: State, c: nat, x: Option<Caller>, s': State)
    requires TasksOk(s) && CallersBecome(s, c, x, s')
    requires s'.tasks == s.tasks && s'.current == s.current && s'.pc == s.pc && s'.hand == s.hand
    requires x.Some? ==> x.value.phase != Entered
    ensures TasksOk(s')
  {
    forall t | t in s'.tasks ensures TaskOk(s', t) {
      assert TaskOk(s, t);
    }
    forall d | d in s'.callers ensures EnteredOk(s', d) {
      assert d != c ==> EnteredOk(s, d);
    }
  }

  /** The worker moved on without touching tasks, callers, the idle flag or the semaphore. */
  lemma WorkerFrame(s: State, s': State)
    requires Shape(s) && TasksOk(s) && WakeUpAccount(s)
    requires s'.tasks == s.tasks && s'.callers == s.callers && s'.tokens == s.tokens
    requires s'.flags.idle == s.flags.idle && (s'.pc == Suspended <==> s.pc == Suspended)
    requires s.pc != Preempt && s'.pc != Preempt
    requires Selecting(s'.pc) ==> Selecting(s.pc) || forall t :: t in s.tasks ==> !s.tasks[t].removing
    requires Known(s, s'.current) && Known(s, s'.hand)
    requires forall t :: HasStatus(s, t, Running) && (s.current == t || s.hand == t) ==> s'.current == t || s'.hand == t
    ensures Shape(s') && TasksOk(s') && WakeUpAccount(s')
  {
    forall t | t in s'.tasks ensures TaskOk(s', t) {
      assert TaskOk(s, t);
      assert HasStatus(s, Some(t), Running) ==> s'.current == Some(t) || s'.hand == Some(t);
    }
    forall d | d in s'.callers ensures EnteredOk(s', d) {
      assert EnteredOk(s, d);
    }
  }

  /** One task changed, and no caller is about to push it. */
  lemma TaskFrame(s: State, t: Task, s': State)
    requires TasksOk(s) && t in s.tasks && t in s'.tasks
    requires s'.tasks == s.tasks[t := s'.tasks[t]] && s'.callers == s.callers
    requires TaskOk(s', t)
    requires s.tasks[t].status != Ready || s.tasks[t].queued
    requires s.pc != Preempt && (Selecting(s'.pc) ==> Selecting(s.pc))
    requires forall u: Option<Task> :: u != Some(t) && HasStatus(s, u, Running) && (s.current == u || s.hand == u) ==>
                           s'.current == u || s'.hand == u
    ensures TasksOk(s')
  {
    forall u | u in s'.tasks ensures TaskOk(s', u) {
      if u != t {
        assert TaskOk(s, u);
        assert HasStatus(s, Some(u), Running) ==> s'.current == Some(u) || s'.hand == Some(u);
      }
    }
    forall d | d in s'.callers ensures EnteredOk(s', d) {
      assert EnteredOk(s, d);
    }
  }

  /** A task became READY and a caller is about to push it. */
  lemma ArriveFrame(s: State, t: Task, c: nat, s': State)
    requires TasksOk(s) && c !in s.callers && CallersBecome(s, c, Some(Caller(Some(t), Entered)), s')
    requires t in s'.tasks && s'.tasks == s.tasks[t := s'.tasks[t]] && s'.tasks[t].status == Ready
    requires !s'.tasks[t].queued && !s'.tasks[t].removing && !HasStatus(s, Some(t), Ready)
    requires forall d :: d in s.callers ==> Known(s, s.callers[d].task)
    requires s'.pc == s.pc && s'.hand == s.hand && s'.current == s.current
    ensures TasksOk(s')
    ensures |Resumers(s'.callers)| == |Resumers(s.callers)|
  {
    CountResumers(s, c, Some(Caller(Some(t), Entered)), s');
    forall u | u in s'.tasks ensures TaskOk(s', u) {
      if u != t {
        assert TaskOk(s, u);
      }
    }
    forall d | d in s'.callers ensures EnteredOk(s', d) {
      assert d != c ==> EnteredOk(s, d);
    }
  }

  ghost predicate SameWorker(s: State, s': State) {
    s'.pc == s.pc && s'.hand == s.hand && s'.left == s.left && s'.level == s.level && s'.current == s.current
  }

  /** The promises of all other callers stand; those of the caller that moved are checked here. */
  lemma CallerLinks(s: State, c: nat, x: Option<Caller>, s': State)
    requires Links(s) && FlagsOk(s) && CallersBecome(s, c, x, s') && SameWorker(s, s') && s'.tasks == s.tasks
    requires s.mask <= s'.mask && (s.signal ==> s'.signal)
    requires s'.flags.interruptible == s.flags.interruptible && (s.flags.pending ==> s'.flags.pending)
    requires (s'.flags.idle ==> s.flags.idle) && s'.flags.stop == s.flags.stop
    requires NoInterruptDue(s') || AtPhase(s', c, Sending) || (!NoInterruptDue(s) && !AtPhase(s, c, Sending))
    requires StopperAt(s, c) ==> StopSeen(s') || StopperAt(s', c)
    requires forall t :: PushedFor(s, c, t) && t in s.tasks ==> s.tasks[t].prio in s'.mask
    requires forall t :: CallerCovers(s, c, t) && Queued(s, t) ==> SelfCovered(s', t) || CallerCovers(s', c, t)
    ensures Links(s')
  {
    forall d, t | PushedFor(s, d, t) && Queued(s', t) && !MaskSoon(s', t) ensures PushedFor(s', d, t) {
      assert d != c;
    }
    forall d, t | CallerCovers(s, d, t) && Queued(s', t) && !SelfCovered(s', t) ensures CallerCovers(s', d, t) {
      assert d == c || s'.callers[d] == s.callers[d];
    }
    LinksKept(s, s', c, 0);
  }

  /** The worker moved on; tasks, callers and the idle flag did not change. */
  lemma WorkerLinks(s: State, s': State)
    requires Links(s) && s'.tasks == s.tasks && s'.callers == s.callers && s'.flags.idle == s.flags.idle
    requires NoInterruptDue(s') || (!NoInterruptDue(s) && s'.signal == s.signal)
    requires StopSeen(s') || !StopSeen(s)
    requires forall t :: Queued(s, t) && MaskSoon(s, t) ==> MaskSoon(s', t)
    requires forall t :: Queued(s, t) && SelfCovered(s, t) ==> SelfCovered(s', t)
    requires s'.current == s.current || forall t :: Queued(s, t) ==> SelfCovered(s', t)
    requires HasFound(s'.pc) || s'.pc == ScanReset ==>
      (exists f :: AtLevel(s, f, s'.level)) || ((HasFound(s.pc) || s.pc == ScanReset) && s'.level == s.level)
    ensures Links(s')
  {
    var f: Task := 0;
    if exists f :: AtLevel(s, f, s'.level) {
      f :| AtLevel(s, f, s'.level);
      assert AtLevel(s', f, s'.level);
    }
    LinksKept(s, s', 0, f);
  }

  /** A new caller promises nothing yet, and the task it brings is in no queue. */
  lemma ArriveLinks(s: State, t: Task, c: nat, x: Caller, s': State)
    requires Links(s) && c !in s.callers && CallersBecome(s, c, Some(x), s') && SameWorker(s, s')
    requires s'.mask == s.mask && s'.signal == s.signal && s'.flags == s.flags
    requires t in s'.tasks && s'.tasks == s.tasks[t := s'.tasks[t]] && !s'.tasks[t].queued
    requires s.pc == Install ==> HasStatus(s, s.hand, Running)
    requires t in s.tasks ==> !s.tasks[t].queued && s'.tasks[t].prio == s.tasks[t].prio
    requires Known(s, s.current) && Known(s, s.hand)
    ensures Links(s')
  {
    forall u | Queued(s', u)
      ensures Queued(s, u) && MaskSoon(s', u) == MaskSoon(s, u) && SelfCovered(s', u) == SelfCovered(s, u)
    {}
    forall d, u | PushedFor(s, d, u) ensures PushedFor(s', d, u) {
      assert d != c;
    }
    forall d, u | CallerCovers(s, d, u) ensures u == t || CallerCovers(s', d, u) {
      assert d != c;
    }
    LinksKept(s, s', c, 0);
  }

  // ---------------------------------------------------------------- callers

  lemma AddKeeps(s: State, t: Task, p: nat, c: nat, s': State)
    requires Base(s) && AddTask(s, t, p, c, s')
    ensures Base(s')
  {
    ArriveFrame(s, t, c, s');
  }

  lemma AddLinks(s: State, t: Task, p: nat, c: nat, s': State)
    requires Inv(s) && AddTask(s, t, p, c, s')
    ensures Links(s')
  {
    ArriveLinks(s, t, c, Caller(Some(t), Entered), s');
  }

  lemma UnblockKeeps(s: State, t: Task, c: nat, s': State)
    requires Base(s) && Unblock(s, t, c, s')
    ensures Base(s')
  {
    assert TaskOk(s, t);
    ArriveFrame(s, t, c, s');
  }

  lemma UnblockLinks(s: State, t: Task, c: nat, s': State)
    requires Inv(s) && Unblock(s, t, c, s')
    ensures Links(s')
  {
    assert TaskOk(s, t);
    ArriveLinks(s, t, c, Caller(Some(t), Entered), s');
  }

  lemma PushKeeps(s: State, c: nat, t: Task, s': State)
    requires Base(s) && PushReady(s, c, t, s')
    ensures Base(s')
  {
    assert Resumers(s'.callers) == Resumers(s.callers);
    PushTasks(s, c, t, s');
  }

  lemma PushTasks(s: State, c: nat, t: Task, s': State)
    requires TasksOk(s) && PushReady(s, c, t, s')
    ensures TasksOk(s')
  {
    assert EnteredOk(s, c);
    forall u | u in s'.tasks ensures TaskOk(s', u) {
      assert TaskOk(s, u);
    }
    forall d | d in s'.callers ensures EnteredOk(s', d) {
      if d != c && AtPhase(s, d, Entered) {
        assert EnteredOk(s, d) && s.callers[d].task != Some(t);
      }
    }
  }

  lemma PushLinks(s: State, c: nat, t: Task, s': State)
    requires Links(s) && PushReady(s, c, t, s')
    ensures Links(s')
  {
    assert PushedFor(s', c, t) && CallerCovers(s', c, t);
    forall u | u != t && Queued(s', u)
      ensures Queued(s, u) && MaskSoon(s', u) == MaskSoon(s, u) && SelfCovered(s', u) == SelfCovered(s, u)
    {}
    forall d, u | PushedFor(s, d, u) ensures PushedFor(s', d, u) {
      assert d != c;
    }
    forall d, u | CallerCovers(s, d, u) ensures CallerCovers(s', d, u) {
      assert d != c;
    }
    LinksKept(s, s', c, 0);
  }

  lemma MaskKeeps(s: State, c: nat, t: Task, s': State)
    requires Base(s) && SetMask(s, c, t, s')
    ensures Base(s')
  {
    CallerFrame(s, c, Some(s.callers[c].(phase := Masked)), s');
  }

  lemma MaskLinks(s: State, c: nat, t: Task, s': State)
    requires Links(s) && FlagsOk(s) && SetMask(s, c, t, s')
    ensures Links(s')
  {
    CallerLinks(s, c, Some(s'.callers[c]), s');
  }

  lemma ReadIdKeeps(s: State, c: nat, t: Task, s': State)
    requires Base(s) && ReadId(s, c, t, s')
    ensures Base(s')
  {
    CallerFrame(s, c, Some(s.callers[c].(phase := SawId(s.current))), s');
  }

  lemma ReadIdLinks(s: State, c: nat, t: Task, s': State)
    requires Links(s) && FlagsOk(s) && ReadId(s, c, t, s')
    ensures Links(s')
  {
    CallerLinks(s, c, Some(s'.callers[c]), s');
  }

  lemma ReadPrioKeeps(s: State, c: nat, t: Task, s': State)
    requires Base(s) && ReadPrio(s, c, t, s')
    ensures Base(s')
  {
    CallerFrame(s, c, Some(s'.callers[c]), s');
  }

  lemma ReadPrioLinks(s: State, c: nat, t: Task, s': State)
    requires Links(s) && FlagsOk(s) && Shape(s) && HandOk(s) && ReadPrio(s, c, t, s')
    ensures Links(s')
  {
    CallerLinks(s, c, Some(s'.callers[c]), s');
  }

  lemma DecideKeeps(s: State, c: nat, t: Task, s': State)
    requires Base(s) && Decide(s, c, t, s')
    ensures Base(s')
  {
    CallerFrame(s, c, if c in s'.callers then Some(s'.callers[c]) else None, s');
  }

  lemma DecideLinks(s: State, c: nat, t: Task, s': State)
    requires Links(s) && FlagsOk(s) && Decide(s, c, t, s')
    ensures Links(s')
  {
    CallerLinks(s, c, if c in s'.callers then Some(s'.callers[c]) else None, s');
  }

  lemma PostKeeps(s: State, c: nat, s': State)
    requires Base(s) && Worker.Post(s, c, s')
    ensures Base(s')
  {
    CallerFrame(s, c, if c in s'.callers then Some(s'.callers[c]) else None, s');
  }

  lemma PostLinks(s: State, c: nat, s': State)
    requires Links(s) && FlagsOk(s) && Worker.Post(s, c, s')
    ensures Links(s')
  {
    CallerLinks(s, c, if c in s'.callers then Some(s'.callers[c]) else None, s');
  }

  lemma ClearIdleKeeps(s: State, c: nat, s': State)
    requires Base(s) && ClearIdle(s, c, s')
    ensures Base(s')
  {
    CallerFrame(s, c, if c in s'.callers then Some(s'.callers[c]) else None, s');
  }

  lemma ClearIdleLinks(s: State, c: nat, s': State)
    requires Links(s) && FlagsOk(s) && ClearIdle(s, c, s')
    ensures Links(s')
  {
    CallerLinks(s, c, if c in s'.callers then Some(s'.callers[c]) else None, s');
  }

  lemma ResumeKeeps(s: State, c: nat, s': State)
    requires Base(s) && Resume(s, c, s')
    ensures Base(s')
  {
    CallerFrame(s, c, None, s');
  }

  lemma ResumeLinks(s: State, c: nat, s': State)
    requires Links(s) && FlagsOk(s) && Resume(s, c, s')
    ensures Links(s')
  {
    CallerLinks(s, c, None, s');
  }

  lemma SendKeeps(s: State, c: nat, s': State)
    requires Base(s) && SendInterrupt(s, c, s')
    ensures Base(s')
  {
    CallerFrame(s, c, None, s');
  }

  lemma SendLinks(s: State, c: nat, s': State)
    requires Links(s) && FlagsOk(s) && SendInterrupt(s, c, s')
    ensures Links(s')
  {
    CallerLinks(s, c, None, s');
  }

  lemma StopKeeps(s: State, c: nat, s': State)
    requires Base(s) && RequestStop(s, c, s')
    ensures Base(s')
  {
    CallerFrame(s, c, if c in s'.callers then Some(s'.callers[c]) else None, s');
  }

  lemma StopLinks(s: State, c: nat, s': State)
    requires Links(s) && FlagsOk(s) && RequestStop(s, c, s')
    ensures Links(s')
  {
    LinksKept(s, s', c, 0);
  }

  lemma DeliverKeeps(s: State, s': State)
    requires Base(s) && Deliver(s, s')
    ensures Base(s')
  {
    if s.flags.interruptible {
      WorkerFrame(s, s');
    } else {
      assert s' == s.(signal := false);
    }
  }

  lemma DeliverLinks(s: State, s': State)
    requires Links(s) && FlagsOk(s) && Deliver(s, s')
    ensures Links(s')
  {
    forall t | Queued(s, t) && SelfCovered(s, t) ensures SelfCovered(s', t) {}
    WorkerLinks(s, s');
  }

  // ---------------------------------------------------------------- the worker

  lemma EnterFrame(s: State, s': State)
    requires Shape(s) && TasksOk(s) && WakeUpAccount(s) && Enter(s, s')
    ensures Shape(s') && TasksOk(s') && WakeUpAccount(s')
  {
    WorkerFrame(s, s');
  }

  lemma EnterKeeps(s: State, s': State)
    requires Base(s) && Enter(s, s')
    ensures Base(s')
  {
    EnterFrame(s, s');
  }

  lemma EnterLinks(s: State, s': State)
    requires Inv(s) && Enter(s, s')
    ensures Links(s')
  {
    WorkerLinks(s, s');
  }

  lemma CheckFrame(s: State, s': State)
    requires Shape(s) && TasksOk(s) && WakeUpAccount(s) && CheckFlags(s, s')
    ensures Shape(s') && TasksOk(s') && WakeUpAccount(s')
  {
    WorkerFrame(s, s');
  }

  lemma CheckKeeps(s: State, s': State)
    requires Base(s) && CheckFlags(s, s')
    ensures Base(s')
  {
    CheckFrame(s, s');
  }

  lemma CheckLinks(s: State, s': State)
    requires Inv(s) && CheckFlags(s, s')
    ensures Links(s')
  {
    WorkerLinks(s, s');
  }

  lemma ClearKeeps(s: State, s': State)
    requires Inv(s) && ClearCurrent(s, s')
    ensures Inv(s')
  {
    WorkerFrame(s, s');
    WorkerLinks(s, s');
  }

  lemma DrainKeeps(s: State, t: Task, s': State)
    requires Base(s) && DrainOne(s, t, s')
    ensures Base(s')
  {
    assert TaskOk(s, t);
    if s.hand == Some(t) {
      WorkerFrame(s, s');
    } else {
      TaskFrame(s, t, s');
    }
  }

  lemma DrainLinks(s: State, t: Task, s': State)
    requires Inv(s) && DrainOne(s, t, s')
    ensures Links(s')
  {
    LinksKept(s, s', 0, 0);
  }

  lemma DrainDoneKeeps(s: State, s': State)
    requires Inv(s) && DrainDone(s, s')
    ensures Inv(s')
  {
    WorkerFrame(s, s');
    WorkerLinks(s, s');
  }

  lemma DrainStepKeeps(s: State, s': State)
    requires Base(s) && DrainStep(s, s')
    ensures Base(s')
  {
    WorkerFrame(s, s');
  }

  lemma DrainStepLinks(s: State, s': State)
    requires Inv(s) && DrainStep(s, s')
    ensures Links(s')
  {
    LinksKept(s, s', 0, 0);
  }

  lemma LoadKeeps(s: State, s': State)
    requires Base(s) && LoadMask(s, s')
    ensures Base(s')
  {
    WorkerFrame(s, s');
  }

  lemma LoadLinks(s: State, s': State)
    requires Links(s) && LoadMask(s, s')
    ensures Links(s')
  {
    forall t | Queued(s', t) && !SelfCovered(s', t) ensures exists c :: CallerCovers(s', c, t) {
      assert !MaskSoon(s, t);
      var c :| PushedFor(s, c, t);
      assert CallerCovers(s', c, t);
    }
    InterruptKept(s, s', 0);
    MaskKept(s, s', 0);
    StopKept(s, s', 0);
  }

  lemma ScanKeeps(s: State, p: nat, s': State)
    requires Base(s) && ScanLevel(s, p, s')
    ensures Base(s')
  {
    WorkerFrame(s, s');
  }

  lemma ScanLinks(s: State, p: nat, s': State)
    requires Links(s) && ScanLevel(s, p, s')
    ensures Links(s')
  {
    if !EmptyQueue(s, p) {
      var f :| f in s.tasks && s.tasks[f].queued && s.tasks[f].prio == p;
      assert AtLevel(s, f, p);
    }
    forall t | Queued(s, t) && SelfCovered(s, t) ensures SelfCovered(s', t) {}
    WorkerLinks(s, s');
  }

  lemma ScanStepKeeps(s: State, s': State)
    requires Base(s) && ScanStep(s, s')
    ensures Base(s')
  {
    WorkerFrame(s, s');
  }

  lemma ScanStepLinks(s: State, s': State)
    requires Links(s) && HandOk(s) && ScanStep(s, s')
    ensures Links(s')
  {
    if !EmptyQueue(s, s.level) {
      var f :| f in s.tasks && s.tasks[f].queued && s.tasks[f].prio == s.level;
      assert AtLevel(s, f, s.level);
    }
    forall t | Queued(s, t) && SelfCovered(s, t) ensures SelfCovered(s', t) {}
    WorkerLinks(s, s');
  }

  lemma ScanDoneKeeps(s: State, s': State)
    requires Inv(s) && ScanDone(s, s')
    ensures Inv(s')
  {
    WorkerFrame(s, s');
    WorkerLinks(s, s');
  }

  lemma ChooseKeeps(s: State, s': State)
    requires Base(s) && Choose(s, s')
    ensures Base(s')
  {
    if HasStatus(s, s.hand, Running) {
      var t := s.hand.value;
      assert TaskOk(s, t);
      if s.tasks[t].prio > s.level {
        TaskFrame(s, t, s');
      } else {
        WorkerFrame(s, s');
      }
    } else {
      WorkerFrame(s, s');
    }
  }

  lemma ChooseLinks(s: State, s': State)
    requires Inv(s) && Choose(s, s')
    ensures Links(s')
  {
    LinksKept(s, s', 0, 0);
  }

  lemma PreemptKeeps(s: State, t: Task, s': State)
    requires Inv(s) && FinishPreempt(s, t, s')
    ensures Inv(s')
  {
    LinksKept(s, s', 0, 0);
  }

  lemma PopKeeps(s: State, t: Task, s': State)
    requires Base(s) && PopNext(s, t, s')
    ensures Base(s')
  {
    assert TaskOk(s, t);
    TaskFrame(s, t, s');
  }

  lemma PopLinks(s: State, t: Task, s': State)
    requires Inv(s) && PopNext(s, t, s')
    ensures Links(s')
  {
    LinksKept(s, s', 0, 0);
  }

  lemma InstallKeeps(s: State, r: Label, s': State)
    requires Inv(s) && InstallNext(s, r, s')
    ensures Inv(s')
  {
    LinksKept(s, s', 0, 0);
  }

  lemma IdleKeeps(s: State, s': State)
    requires Base(s) && GoIdle(s, s')
    ensures Base(s')
  {
    if s.flags != NO_FLAGS {
      WorkerFrame(s, s');
    }
  }

  lemma IdleLinks(s: State, s': State)
    requires Inv(s) && GoIdle(s, s')
    ensures Links(s')
  {
    LinksKept(s, s', 0, 0);
  }

  lemma WakeKeeps(s: State, s': State)
    requires Inv(s) && Worker.Wake(s, s')
    ensures Inv(s')
  {
    LinksKept(s, s', 0, 0);
  }

  lemma EnableKeeps(s: State, s': State)
    requires Base(s) && TryEnable(s, s')
    ensures Base(s')
  {
    WorkerFrame(s, s');
  }

  lemma EnableLinks(s: State, s': State)
    requires Inv(s) && TryEnable(s, s')
    ensures Links(s')
  {
    LinksKept(s, s', 0, 0);
  }

  lemma DisableKeeps(s: State, s': State)
    requires Inv(s) && Disable(s, s')
    ensures Inv(s')
  {
    WorkerFrame(s, s');
    WorkerLinks(s, s');
  }

  lemma IntEnableKeeps(s: State, me: Task, s': State)
    requires Inv(s) && EnableInterrupts(s, me, s')
    ensures Inv(s')
  {
    WorkerFrame(s, s');
    WorkerLinks(s, s');
  }

  lemma ScheduleKeeps(s: State, me: Task, s': State)
    requires Inv(s) && Schedule(s, me, s')
    ensures Inv(s')
  {
    WorkerFrame(s, s');
    WorkerLinks(s, s');
  }

  lemma BlockKeeps(s: State, me: Task, s': State)
    requires Inv(s) && BlockSelf(s, me, s')
    ensures Inv(s')
  {
    LinksKept(s, s', 0, 0);
  }

  lemma UnblockSelfKeeps(s: State, me: Task, s': State)
    requires Inv(s) && UnblockSelf(s, me, s')
    ensures Inv(s')
  {
    LinksKept(s, s', 0, 0);
  }

  lemma YieldKeeps(s: State, me: Task, c: nat, s': State)
    requires Inv(s) && YieldSelf(s, me, c, s')
    ensures Inv(s')
  {
    assert Resumers(s'.callers) == Resumers(s.callers);
    LinksKept(s, s', c, 0);
  }

  lemma SetPrioKeeps(s: State, me: Task, p: nat, s': State)
    requires Inv(s) && SetPrio(s, me, p, s')
    ensures Inv(s')
  {
    LinksKept(s, s', 0, 0);
  }

  lemma RemoveSelfKeeps(s: State, me: Task, s': State)
    requires Inv(s) && RemoveSelf(s, me, s')
    ensures Inv(s')
  {
    LinksKept(s, s', 0, 0);
  }

  lemma RemoveOtherKeeps(s: State, me: Task, t: Task, s': State)
    requires Inv(s) && RemoveOther(s, me, t, s')
    ensures Inv(s')
  {
    LinksKept(s, s', 0, 0);
  }

  lemma StopSelfKeeps(s: State, me: Task, s': State)
    requires Inv(s) && StopSelf(s, me, s')
    ensures Inv(s')
  {
    WorkerFrame(s, s');
    WorkerLinks(s, s');
  }

  lemma SignalKeeps(s: State, s': State)
    requires Inv(s) && SignalSelf(s, s')
    ensures Inv(s')
  {
    WorkerFrame(s, s');
    WorkerLinks(s, s');
  }
}
