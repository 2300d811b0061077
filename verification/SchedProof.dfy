/** Choice, rotation and task lifetime over every serial run of the scheduler. */
module SchedProof {
  import opened Common
  import opened Sched

  // ---------------------------------------------------------------- the invariant

  /** One reference from creation, one from prs_sched_add_task, one from the scheduler itself. */
  ghost predicate TaskOk(t: Task) {
    && t.prio < PRIOS
    && t.refcnt == One(t.named) + One(t.named && t.schedId) + One(t.userdata)
    && t.freed == One(t.refcnt == 0)
    && (t.userdata ==> t.schedId)
    && (t.named && t.schedId ==> t.userdata)
    && (!t.userdata ==> t.state == STOPPED || t.state == ZOMBIE)
    && (t.named ==> t.state != ZOMBIE && (t.userdata <==> t.state != STOPPED))
    && (!t.named && t.userdata ==> t.state == STOPPED)
  }

  ghost predicate TasksOk(s: Sched) {
    forall t :: t in s.tasks ==> TaskOk(s.tasks[t])
  }

  /** Task `t` is known to the scheduler and belongs in queue `p`. */
  ghost predicate Queued(s: Sched, t: nat, p: nat) {
    t in s.tasks && s.tasks[t].prio == p && s.tasks[t].userdata && (s.tasks[t].state == READY || s.tasks[t].state == STOPPED)
  }

  ghost predicate QueueOk(s: Sched, p: nat)
    requires p < |s.readyq|
  {
    && NoDuplicates(s.readyq[p])
    && (forall i :: 0 <= i < |s.readyq[p]| ==> Queued(s, s.readyq[p][i], p))
    && (s.readyq[p] != [] ==> p in s.mask)
  }

  ghost predicate QueuesOk(s: Sched) {
    && |s.readyq| == PRIOS
    && (forall p :: p in s.mask ==> p < PRIOS)
    && (forall p: nat :: p < PRIOS ==> QueueOk(s, p))
    && (forall t :: t in s.tasks && s.tasks[t].state == READY ==> s.tasks[t].prio < PRIOS && t in s.readyq[s.tasks[t].prio])
  }

  ghost predicate RemoveOk(s: Sched) {
    && NoDuplicates(s.removeq)
    && (forall t :: t in s.removeq <==> Removing(s, t))
  }

  ghost predicate Removing(s: Sched, t: nat) {
    t in s.tasks && s.tasks[t].userdata && s.tasks[t].state == STOPPED
  }

  ghost predicate CurrentOk(s: Sched) {
    && (s.current.Some? ==> s.current.value in s.tasks && s.tasks[s.current.value].userdata)
    && (forall t :: t in s.tasks && s.tasks[t].state == RUNNING ==> s.current == Some(t))
  }

  ghost predicate Inv(s: Sched) {
    TasksOk(s) && QueuesOk(s) && RemoveOk(s) && CurrentOk(s)
  }

  lemma {:induction false} WithoutFacts(q: seq<nat>, t: nat)
    requires NoDuplicates(q)
    ensures forall u :: u in Without(q, t) <==> u in q && u != t
    ensures NoDuplicates(Without(q, t)) && (t !in q ==> Without(q, t) == q)
  {
    if q != [] {
      var rest := q[1..];
      assert q == [q[0]] + rest;
      assert q[0] !in rest;
      WithoutFacts(rest, t);
      forall u ensures u in Without(q, t) <==> u in q && u != t {
        assert u in Without(rest, t) <==> u in rest && u != t;
      }
    }
  }

  // ---------------------------------------------------------------- each operation keeps it

  lemma CreateKeeps(s: Sched, t: nat, prio: nat, s': Sched)
    requires Inv(s) && Create(s, t, prio, s')
    ensures Inv(s')
  {
    forall p: nat | p < PRIOS ensures QueueOk(s', p) {
      assert QueueOk(s, p);
    }
  }

  lemma AddTaskKeeps(s: Sched, t: nat, ok: bool, s': Sched)
    requires Inv(s) && AddTask(s, t, ok, s')
    ensures Inv(s')
  {
    forall p: nat | p < PRIOS ensures QueueOk(s', p) {
      assert QueueOk(s, p);
    }
  }

  lemma UnblockKeeps(s: Sched, t: nat, s': Sched)
    requires Inv(s) && Unblock(s, t, s')
    ensures Inv(s')
  {
    forall p: nat | p < PRIOS ensures QueueOk(s', p) {
      assert QueueOk(s, p);
    }
  }

  lemma BlockKeeps(s: Sched, s': Sched)
    requires Inv(s) && Block(s, s')
    ensures Inv(s')
  {
    forall p: nat | p < PRIOS ensures QueueOk(s', p) {
      assert QueueOk(s, p);
    }
  }

  lemma YieldKeeps(s: Sched, s': Sched)
    requires Inv(s) && Yield(s, s')
    ensures Inv(s')
  {
    forall p: nat | p < PRIOS ensures QueueOk(s', p) {
      assert QueueOk(s, p);
    }
  }

  lemma DestroyRemoves(s: Sched, t: nat, s': Sched)
    requires Inv(s) && Destroy(s, t, s')
    ensures RemoveOk(s')
  {
    if s.tasks[t].named && s.tasks[t].schedId {
      assert !Removing(s, t) && Removing(s', t) && s'.removeq == s.removeq + [t];
      forall u | u != t ensures u in s'.removeq <==> Removing(s', u) {
        assert Removing(s', u) <==> Removing(s, u);
      }
    }
  }

  lemma DestroyKeeps(s: Sched, t: nat, s': Sched)
    requires Inv(s) && Destroy(s, t, s')
    ensures Inv(s')
  {
    DestroyRemoves(s, t, s');
    forall p: nat | p < PRIOS ensures QueueOk(s', p) {
      assert QueueOk(s, p);
    }
  }

  lemma DrainOneRemoves(s: Sched, s': Sched)
    requires Inv(s) && CanDrain(s) && s' == DrainOne(s)
    ensures RemoveOk(s')
  {
    var t := s.removeq[0];
    assert t in s.removeq && Removing(s, t);
    assert s.removeq == [t] + s'.removeq;
    forall u | Removing(s', u) ensures u in s'.removeq {
      assert Removing(s, u) && u != t;
    }
    forall u | u in s'.removeq ensures Removing(s', u) {
      assert u in s.removeq && u != t;
    }
  }

  lemma DrainOneQueues(s: Sched, s': Sched)
    requires Inv(s) && CanDrain(s) && s' == DrainOne(s)
    ensures QueuesOk(s')
  {
    var t := s.removeq[0];
    assert t in s.removeq && Removing(s, t);
    var p := s.tasks[t].prio;
    assert QueueOk(s, p);
    WithoutFacts(s.readyq[p], t);
    var q := s'.readyq[p];
    forall i | 0 <= i < |q| ensures Queued(s', q[i], p) {
      assert q[i] in s.readyq[p] && q[i] != t;
      var j :| 0 <= j < |s.readyq[p]| && s.readyq[p][j] == q[i];
      assert Queued(s, s.readyq[p][j], p);
    }
    assert q == [] && t !in s.readyq[p] ==> s.readyq[p] == [];
    forall r: nat | r < PRIOS ensures QueueOk(s', r) {
      assert QueueOk(s, r);
    }
  }

  lemma DrainOneKeeps(s: Sched, s': Sched)
    requires Inv(s) && CanDrain(s) && s.current != Some(s.removeq[0]) && s' == DrainOne(s)
    ensures Inv(s')
  {
    assert s.removeq[0] in s.removeq && Removing(s, s.removeq[0]);
    DrainOneRemoves(s, s');
    DrainOneQueues(s, s');
  }

  lemma ChosenQueues(s: Sched, p: nat, s': Sched)
    requires Inv(s) && s.removeq == [] && IsBest(s, p) && QueuesKnown(s) && s' == Chosen(s, p)
    ensures QueuesOk(s')
  {
    assert QueueOk(s, p) && Queued(s, s.readyq[p][0], p);
    forall r: nat | r < PRIOS ensures QueueOk(s', r) {
      assert QueueOk(s, r);
    }
  }

  lemma ChosenKeeps(s: Sched, p: nat, s': Sched)
    requires Inv(s) && s.removeq == [] && IsBest(s, p) && QueuesKnown(s) && s' == Chosen(s, p)
    ensures Inv(s')
  {
    ChosenQueues(s, p, s');
    assert QueueOk(s, p) && Queued(s, s.readyq[p][0], p);
    assert !Removing(s, s.readyq[p][0]);
  }

  lemma PickKeeps(s: Sched, s': Sched)
    requires Inv(s) && s.removeq == [] && Pick(s, s')
    ensures Inv(s')
  {
    if NoneReady(s) && s' == s.(mask := {}, current := if RunsOn(s) then s.current else None) {
      forall p: nat | p < PRIOS ensures QueueOk(s', p) {
        assert QueueOk(s, p);
      }
    } else {
      var p: nat :| IsBest(s, p) && s' == Chosen(s, p);
      ChosenKeeps(s, p, s');
    }
  }

  lemma LeftKeeps(s: Sched)
    requires Inv(s)
    ensures Inv(Left(s))
    ensures Clear(Left(s))
  {
    var s' := Left(s);
    forall p: nat | p < PRIOS ensures QueueOk(s', p) {
      assert QueueOk(s, p);
    }
  }

  /** The current task is not being removed. */
  ghost predicate Clear(s: Sched) {
    s.current.Some? ==> s.current.value !in s.removeq
  }

  lemma HeadDrains(s: Sched)
    requires Inv(s) && s.removeq != []
    ensures CanDrain(s) && Removing(s, s.removeq[0])
  {
    assert s.removeq[0] in s.removeq;
  }

  lemma ClearStep(s: Sched)
    requires CanDrain(s) && Clear(s)
    ensures s.current != Some(s.removeq[0]) && Clear(DrainOne(s))
  {
    assert s.removeq == [s.removeq[0]] + s.removeq[1..];
  }

  lemma {:induction false} DrainedKeeps(s: Sched)
    requires Inv(s) && Clear(s)
    ensures Inv(Drained(s)) && Drained(s).removeq == []
    decreases |s.removeq|
  {
    if s.removeq != [] {
      HeadDrains(s);
      ClearStep(s);
      DrainOneKeeps(s, DrainOne(s));
      DrainedKeeps(DrainOne(s));
    }
  }

  lemma ScheduleKeeps(s: Sched, s': Sched)
    requires Inv(s) && Schedule(s, s')
    ensures Inv(s')
  {
    LeftKeeps(s);
    DrainedKeeps(Left(s));
    PickKeeps(Drained(Left(s)), s');
  }

  lemma StepKeepsInv(s: Sched, op: Op, s': Sched)
    requires Inv(s) && Step(s, op, s')
    ensures Inv(s')
  {
    match op
    case CreateOp(t, prio) => CreateKeeps(s, t, prio, s');
    case AddOp(t, ok) => AddTaskKeeps(s, t, ok, s');
    case UnblockOp(t) => UnblockKeeps(s, t, s');
    case BlockOp => BlockKeeps(s, s');
    case YieldOp => YieldKeeps(s, s');
    case DestroyOp(t) => DestroyKeeps(s, t, s');
    case ScheduleOp => ScheduleKeeps(s, s');
  }

  lemma {:induction false} RunKeepsInv(states: seq<Sched>, ops: seq<Op>, n: nat)
    requires Run(states, ops) && n < |states|
    ensures Inv(states[n])
  {
    if n > 0 {
      RunKeepsInv(states, ops, n - 1);
      assert StepAt(states, ops, n - 1);
      StepKeepsInv(states[n - 1], ops[n - 1], states[n]);
    }
  }
}
