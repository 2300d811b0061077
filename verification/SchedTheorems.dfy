/** What the scheduler promises over every serial run. */
module SchedTheorems {
  import opened Common
  import opened Sched
  import opened SchedProof

  ghost predicate Ready(s: Sched, t: nat) {
    t in s.tasks && s.tasks[t].state == READY
  }

  /** `t` occurs in `q` before an occurrence of `u`. */
  ghost predicate Precedes(q: seq<nat>, t: nat, u: nat) {
    q != [] && ((q[0] == t && u in q[1..]) || Precedes(q[1..], t, u))
  }

  // ---------------------------------------------------------------- draining keeps ready tasks in order

  lemma {:induction false} WithoutOrder(q: seq<nat>, x: nat, t: nat, u: nat)
    requires NoDuplicates(q) && Precedes(Without(q, x), t, u)
    ensures Precedes(q, t, u)
  {
    var rest := q[1..];
    assert NoDuplicates(rest);
    if q[0] != x {
      var r := Without(rest, x);
      assert Without(q, x) == [q[0]] + r && Without(q, x)[1..] == r;
      WithoutFacts(rest, x);
      if Precedes(r, t, u) {
        WithoutOrder(rest, x, t, u);
      }
    }
  }

  ghost predicate Gone(st: TaskState) {
    st == STOPPED || st == ZOMBIE
  }

  /** Task `t` is the same in both states, unless it was stopped. */
  ghost predicate SameUnlessGone(s: Sched, s': Sched, t: nat)
    requires t in s.tasks && t in s'.tasks
  {
    if Gone(s.tasks[t].state) then Gone(s'.tasks[t].state) else s'.tasks[t] == s.tasks[t]
  }

  lemma DrainOneSame(s: Sched, t: nat)
    requires CanDrain(s) && t in s.tasks && Removing(s, s.removeq[0])
    ensures SameUnlessGone(s, DrainOne(s), t)
  {
  }

  /** Taking out removed tasks leaves ready and running tasks alone. */
  lemma {:induction false} DrainedSame(s: Sched, t: nat)
    requires Inv(s) && Clear(s) && t in s.tasks
    ensures SameUnlessGone(s, Drained(s), t)
    decreases |s.removeq|
  {
    if s.removeq != [] {
      HeadDrains(s);
      ClearStep(s);
      DrainOneKeeps(s, DrainOne(s));
      DrainOneSame(s, t);
      DrainedSame(DrainOne(s), t);
    }
  }

  lemma DrainOneOrder(s: Sched, p: nat, t: nat, u: nat)
    requires CanDrain(s) && p < |s.readyq| && NoDuplicates(s.readyq[p]) && Precedes(DrainOne(s).readyq[p], t, u)
    ensures Precedes(s.readyq[p], t, u)
  {
    if s.tasks[s.removeq[0]].prio == p {
      WithoutOrder(s.readyq[p], s.removeq[0], t, u);
    }
  }

  lemma {:induction false} DrainedOrder(s: Sched, p: nat, t: nat, u: nat)
    requires Inv(s) && Clear(s) && p < PRIOS && Precedes(Drained(s).readyq[p], t, u)
    ensures Precedes(s.readyq[p], t, u)
    decreases |s.removeq|
  {
    if s.removeq != [] {
      HeadDrains(s);
      ClearStep(s);
      DrainOneKeeps(s, DrainOne(s));
      DrainedOrder(DrainOne(s), p, t, u);
      assert QueueOk(s, p);
      DrainOneOrder(s, p, t, u);
    }
  }

  // ---------------------------------------------------------------- the choice

  /** `t` is the oldest of the most urgent ready tasks. */
  ghost predicate FirstReady(s: Sched, t: nat) {
    && Ready(s, t) && s.tasks[t].prio < |s.readyq|
    && forall u :: Ready(s, u) && u != t ==>
         s.tasks[t].prio < s.tasks[u].prio
         || (s.tasks[t].prio == s.tasks[u].prio && Precedes(s.readyq[s.tasks[t].prio], t, u))
  }

  ghost predicate Keeps(s: Sched) {
    RunsOn(s) && forall u :: Ready(s, u) ==> s.tasks[s.current.value].prio <= s.tasks[u].prio
  }

  lemma HeadIsFirst(s: Sched, p: nat)
    requires Inv(s) && s.removeq == [] && IsBest(s, p)
    ensures FirstReady(s, s.readyq[p][0])
  {
    var t := s.readyq[p][0];
    assert QueueOk(s, p) && Queued(s, t, p) && !Removing(s, t);
    forall u | Ready(s, u) && u != t
      ensures p < s.tasks[u].prio || (p == s.tasks[u].prio && Precedes(s.readyq[p], t, u))
    {
      var r := s.tasks[u].prio;
      assert QueueOk(s, r);
      assert u in s.readyq[r];
      if r == p {
        assert s.readyq[p] == [t] + s.readyq[p][1..];
      }
    }
  }

  lemma KeepsIs(s: Sched, p: nat)
    requires Inv(s) && s.removeq == [] && IsBest(s, p)
    ensures Keeps(s) <==> RunsOn(s) && s.tasks[s.current.value].prio <= p
  {
    HeadIsFirst(s, p);
    var t := s.readyq[p][0];
    assert QueueOk(s, p) && Queued(s, t, p) && Ready(s, t);
  }

  lemma NobodyReady(s: Sched)
    requires Inv(s) && NoneReady(s)
    ensures forall u :: !Ready(s, u)
  {
    forall u | u in s.tasks && s.tasks[u].prio < PRIOS ensures !Ready(s, u) {
      assert QueueOk(s, s.tasks[u].prio);
      assert s.readyq[s.tasks[u].prio] == [];
    }
  }

  /** The choice without removed tasks: who runs next. */
  lemma PickChooses(s: Sched, s': Sched)
    requires Inv(s) && s.removeq == [] && Pick(s, s')
    ensures Keeps(s) ==> s'.current == s.current
    ensures !Keeps(s) && s'.current.Some? ==> FirstReady(s, s'.current.value)
    ensures s'.current.None? ==> forall u :: !Ready(s, u)
  {
    if NoneReady(s) && s' == s.(mask := {}, current := if RunsOn(s) then s.current else None) {
      NobodyReady(s);
    } else {
      var p: nat :| IsBest(s, p) && s' == Chosen(s, p);
      HeadIsFirst(s, p);
      KeepsIs(s, p);
    }
  }

  lemma DrainedReady(s: Sched)
    requires Inv(s) && Clear(s)
    ensures forall t :: Ready(Drained(s), t) <==> Ready(s, t)
    ensures forall t :: Ready(s, t) ==> Drained(s).tasks[t] == s.tasks[t]
    ensures RunsOn(Drained(s)) <==> RunsOn(s)
    ensures RunsOn(s) ==> Drained(s).tasks[s.current.value] == s.tasks[s.current.value]
  {
    var d := Drained(s);
    forall t | t in s.tasks
      ensures (Ready(d, t) <==> Ready(s, t)) && (s.tasks[t].state == READY || s.tasks[t].state == RUNNING ==> d.tasks[t] == s.tasks[t])
      ensures d.tasks[t].state == RUNNING ==> s.tasks[t].state == RUNNING
    {
      DrainedSame(s, t);
    }
  }

  lemma LeftSame(s: Sched)
    requires Inv(s)
    ensures Left(s).tasks == s.tasks && Left(s).readyq == s.readyq && Left(s).removeq == s.removeq
    ensures RunsOn(s) ==> Left(s) == s
    ensures RunsOn(Left(s)) ==> Left(s) == s
  {
    forall i | 0 <= i < |s.removeq| ensures !(RunsOn(s) && s.current.value == s.removeq[i]) {
      assert Removing(s, s.removeq[i]);
    }
  }

  /** A call of the scheduler keeps the running task exactly when no ready task is more urgent. Else the
      oldest of the most urgent ready tasks runs, or nobody if none is ready. */
  lemma ScheduleChooses(s: Sched, s': Sched)
    requires Inv(s) && Schedule(s, s')
    ensures Keeps(s) ==> s'.current == s.current
    ensures !Keeps(s) && s'.current.Some? ==> FirstReady(s, s'.current.value)
    ensures s'.current.None? ==> forall u :: !Ready(s, u)
  {
    LeftKeeps(s);
    LeftSame(s);
    var l := Left(s);
    var d := Drained(l);
    DrainedKeeps(l);
    PickChooses(d, s');
    DrainedReady(l);
    assert Keeps(d) <==> Keeps(s);
    if !Keeps(d) && s'.current.Some? {
      var t := s'.current.value;
      forall u | Ready(s, u) && u != t && s.tasks[t].prio == s.tasks[u].prio
        ensures Precedes(s.readyq[s.tasks[t].prio], t, u)
      {
        DrainedOrder(l, s.tasks[t].prio, t, u);
      }
    }
  }

  /** The current task runs, and no ready task is more urgent. */
  ghost predicate BestRuns(s: Sched) {
    if s.current.Some? then
      RunsOn(s) && forall u :: Ready(s, u) ==> s.tasks[s.current.value].prio <= s.tasks[u].prio
    else
      forall u :: !Ready(s, u)
  }

  lemma ChosenIsBest(s: Sched, p: nat, s': Sched)
    requires Inv(s) && s.removeq == [] && IsBest(s, p) && QueuesKnown(s) && s' == Chosen(s, p)
    ensures BestRuns(s')
  {
    HeadIsFirst(s, p);
    KeepsIs(s, p);
    assert QueueOk(s, p) && Queued(s, s.readyq[p][0], p);
  }

  lemma PickIsBest(s: Sched, s': Sched)
    requires Inv(s) && s.removeq == [] && Pick(s, s')
    ensures BestRuns(s')
  {
    if NoneReady(s) && s' == s.(mask := {}, current := if RunsOn(s) then s.current else None) {
      NobodyReady(s);
      assert forall u :: Ready(s', u) <==> Ready(s, u);
    } else {
      var p: nat :| IsBest(s, p) && s' == Chosen(s, p);
      ChosenIsBest(s, p, s');
    }
  }

  lemma ScheduleIsBest(s: Sched, s': Sched)
    requires Inv(s) && Schedule(s, s')
    ensures BestRuns(s')
  {
    LeftKeeps(s);
    DrainedKeeps(Left(s));
    PickIsBest(Drained(Left(s)), s');
  }

  /** After a call of the scheduler in any run, the current task runs and no ready task is more urgent; if
      there is no current task then none is ready or running. */
  lemma MostUrgentRuns(states: seq<Sched>, ops: seq<Op>, n: nat)
    requires Run(states, ops) && n < |ops| && ops[n] == ScheduleOp
    ensures BestRuns(states[n + 1])
    ensures var s' := states[n + 1];
      s'.current.None? ==> forall u :: u in s'.tasks ==> s'.tasks[u].state != RUNNING
  {
    RunKeepsInv(states, ops, n);
    RunKeepsInv(states, ops, n + 1);
    assert StepAt(states, ops, n);
    ScheduleIsBest(states[n], states[n + 1]);
  }

  lemma OneRuns(states: seq<Sched>, ops: seq<Op>, n: nat, t: nat, u: nat)
    requires Run(states, ops) && n < |states|
    requires t in states[n].tasks && u in states[n].tasks
    requires states[n].tasks[t].state == RUNNING && states[n].tasks[u].state == RUNNING
    ensures t == u && states[n].current == Some(t)
  {
    RunKeepsInv(states, ops, n);
  }

  // ---------------------------------------------------------------- ready order

  lemma {:induction false} PrecedesAppend(q: seq<nat>, x: nat, t: nat, u: nat)
    ensures Precedes(q, t, u) ==> Precedes(q + [x], t, u)
    ensures t in q ==> Precedes(q + [x], t, x)
  {
    if q != [] {
      assert (q + [x])[1..] == q[1..] + [x];
      PrecedesAppend(q[1..], x, t, u);
    }
  }

  lemma {:induction false} WithoutKeepsOrder(q: seq<nat>, x: nat, t: nat, u: nat)
    requires NoDuplicates(q) && Precedes(q, t, u) && t != x && u != x
    ensures Precedes(Without(q, x), t, u)
  {
    var rest := q[1..];
    assert NoDuplicates(rest);
    if q[0] != x {
      assert Without(q, x) == [q[0]] + Without(rest, x) && Without(q, x)[1..] == Without(rest, x);
      WithoutFacts(rest, x);
      if Precedes(rest, t, u) {
        WithoutKeepsOrder(rest, x, t, u);
      }
    }
  }

  lemma {:induction false} DrainedKeepsOrder(s: Sched, p: nat, t: nat, u: nat)
    requires Inv(s) && Clear(s) && p < PRIOS && Precedes(s.readyq[p], t, u) && Ready(s, t) && Ready(s, u)
    ensures Precedes(Drained(s).readyq[p], t, u)
    decreases |s.removeq|
  {
    if s.removeq != [] {
      HeadDrains(s);
      ClearStep(s);
      DrainOneKeeps(s, DrainOne(s));
      assert QueueOk(s, p);
      if s.tasks[s.removeq[0]].prio == p {
        WithoutKeepsOrder(s.readyq[p], s.removeq[0], t, u);
      }
      DrainedKeepsOrder(DrainOne(s), p, t, u);
    }
  }

  /** Both tasks are ready at the same priority, `t` before `u`. */
  ghost predicate Ahead(s: Sched, t: nat, u: nat) {
    && Ready(s, t) && Ready(s, u) && s.tasks[t].prio == s.tasks[u].prio < |s.readyq|
    && Precedes(s.readyq[s.tasks[t].prio], t, u)
  }

  /** Both tasks are ready at the same priority. */
  ghost predicate Rivals(s: Sched, t: nat, u: nat) {
    Ready(s, t) && Ready(s, u) && s.tasks[t].prio == s.tasks[u].prio
  }

  lemma PushKeepsOrder(s: Sched, x: nat, s': Sched, t: nat, u: nat)
    requires Inv(s) && x in s.tasks && s.tasks[x].state != READY && x in s'.tasks && s'.tasks[x].prio == s.tasks[x].prio
    requires s'.tasks == s.tasks[x := s'.tasks[x]] && s.tasks[x].prio < |s.readyq|
    requires s'.readyq == s.readyq[s.tasks[x].prio := s.readyq[s.tasks[x].prio] + [x]]
    requires Rivals(s', t, u)
    ensures Ahead(s, t, u) ==> Ahead(s', t, u)
    ensures Ready(s, t) && !Ready(s, u) ==> Ahead(s', t, u)
  {
    PrecedesAppend(s.readyq[s.tasks[x].prio], x, t, u);
  }

  lemma PopKeepsOrder(s: Sched, p: nat, s': Sched, t: nat, u: nat)
    requires p < |s.readyq| && s.readyq[p] != [] && s'.readyq == s.readyq[p := s.readyq[p][1..]]
    requires var h := s.readyq[p][0]; h in s.tasks && s'.tasks == s.tasks[h := s.tasks[h].(state := RUNNING)]
    requires Rivals(s', t, u)
    ensures Rivals(s, t, u) && (Ahead(s, t, u) ==> Ahead(s', t, u))
  {
  }

  lemma ChosenKeepsOrder(s: Sched, p: nat, s': Sched, t: nat, u: nat)
    requires Inv(s) && s.removeq == [] && IsBest(s, p) && QueuesKnown(s) && s' == Chosen(s, p) && Rivals(s', t, u)
    ensures Ahead(s, t, u) ==> Ahead(s', t, u)
    ensures Ready(s, t) && !Ready(s, u) ==> Ahead(s', t, u)
  {
    if !(RunsOn(s) && s.tasks[s.current.value].prio <= p) {
      var m := if RunsOn(s) then InState(Pushed(s, s.current.value), s.current.value, READY) else s;
      assert s'.readyq == m.readyq[p := m.readyq[p][1..]];
      PopKeepsOrder(m, p, s', t, u);
      if RunsOn(s) {
        PushKeepsOrder(s, s.current.value, m, t, u);
      }
    }
  }

  lemma PickKeepsOrder(s: Sched, s': Sched, t: nat, u: nat)
    requires Inv(s) && s.removeq == [] && Pick(s, s') && Rivals(s', t, u)
    ensures Ahead(s, t, u) ==> Ahead(s', t, u)
    ensures Ready(s, t) && !Ready(s, u) ==> Ahead(s', t, u)
  {
    if !(NoneReady(s) && s' == s.(mask := {}, current := if RunsOn(s) then s.current else None)) {
      var p: nat :| IsBest(s, p) && s' == Chosen(s, p);
      ChosenKeepsOrder(s, p, s', t, u);
    }
  }

  lemma ScheduleKeepsOrder(s: Sched, s': Sched, t: nat, u: nat)
    requires Inv(s) && Schedule(s, s') && Rivals(s', t, u)
    ensures Ahead(s, t, u) ==> Ahead(s', t, u)
    ensures Ready(s, t) && !Ready(s, u) ==> Ahead(s', t, u)
  {
    LeftKeeps(s);
    LeftSame(s);
    var l := Left(s);
    DrainedKeeps(l);
    DrainedReady(l);
    if Ahead(s, t, u) {
      DrainedKeepsOrder(l, s.tasks[t].prio, t, u);
    }
    PickKeepsOrder(Drained(l), s', t, u);
  }

  /** Ready order: no operation changes the order of two tasks that stay ready, and a task that becomes ready
      goes behind those that are. */
  lemma OrderKept(s: Sched, op: Op, s': Sched, t: nat, u: nat)
    requires Inv(s) && Step(s, op, s') && Rivals(s', t, u)
    ensures Ahead(s, t, u) ==> Ahead(s', t, u)
    ensures Ready(s, t) && !Ready(s, u) ==> Ahead(s', t, u)
  {
    match op
    case AddOp(x, ok) =>
      if ok { PushKeepsOrder(s, x, s', t, u); }
    case UnblockOp(x) =>
      if s.current != Some(x) { PushKeepsOrder(s, x, s', t, u); }
    case YieldOp => PushKeepsOrder(s, s.current.value, s', t, u);
    case ScheduleOp => ScheduleKeepsOrder(s, s', t, u);
    case _ =>
  }

  lemma OrderStep(states: seq<Sched>, ops: seq<Op>, n: nat, t: nat, u: nat)
    requires Run(states, ops) && 0 < n < |states| && Rivals(states[n], t, u)
    ensures Ahead(states[n - 1], t, u) ==> Ahead(states[n], t, u)
    ensures Ready(states[n - 1], t) && !Ready(states[n - 1], u) ==> Ahead(states[n], t, u)
  {
    RunKeepsInv(states, ops, n - 1);
    assert StepAt(states, ops, n - 1);
    OrderKept(states[n - 1], ops[n - 1], states[n], t, u);
  }

  /** Among tasks of one priority the one that became ready first stays ahead as long as both wait. */
  lemma {:induction false} FirstComeFirstServed(states: seq<Sched>, ops: seq<Op>, i: nat, j: nat, t: nat, u: nat)
    requires Run(states, ops) && i < j < |states| && Ready(states[i], t) && !Ready(states[i], u)
    requires forall k :: i < k <= j ==> Rivals(states[k], t, u)
    ensures Ahead(states[j], t, u)
  {
    OrderStep(states, ops, j, t, u);
    if i + 1 < j {
      FirstComeFirstServed(states, ops, i, j - 1, t, u);
    }
  }

  // ---------------------------------------------------------------- lifetime

  /** A task is freed at most once, exactly once it is destroyed and the scheduler has let go of it, and
      never while it is in a ready queue, in the remove queue, or current. */
  lemma FreedOnce(states: seq<Sched>, ops: seq<Op>, n: nat, t: nat)
    requires Run(states, ops) && n < |states| && t in states[n].tasks
    ensures var s := states[n]; var task := s.tasks[t];
      && task.freed <= 1
      && (task.freed == 1 <==> !task.named && !task.userdata)
      && (task.freed == 1 ==> t !in s.removeq && s.current != Some(t) && forall p :: 0 <= p < |s.readyq| ==> t !in s.readyq[p])
  {
    RunKeepsInv(states, ops, n);
    var s := states[n];
    if s.tasks[t].freed == 1 {
      forall p: nat | p < |s.readyq| ensures t !in s.readyq[p] {
        assert QueueOk(s, p);
      }
    }
  }

  // ---------------------------------------------------------------- what becomes of a task

  lemma DrainOneState(s: Sched, t: nat)
    requires CanDrain(s) && t in s.tasks
    ensures DrainOne(s).tasks[t].state == if t == s.removeq[0] then ZOMBIE else s.tasks[t].state
    ensures DrainOne(s).tasks[t].named == s.tasks[t].named && DrainOne(s).tasks[t].prio == s.tasks[t].prio
    ensures DrainOne(s).tasks[t].userdata == (s.tasks[t].userdata && t != s.removeq[0])
  {
  }

  lemma {:induction false} DrainedState(s: Sched, t: nat)
    requires Inv(s) && Clear(s) && t in s.tasks
    ensures Drained(s).tasks[t].state == if Removing(s, t) then ZOMBIE else s.tasks[t].state
    ensures Drained(s).tasks[t].named == s.tasks[t].named && Drained(s).tasks[t].prio == s.tasks[t].prio
    ensures Drained(s).tasks[t].userdata == (s.tasks[t].userdata && !Removing(s, t))
    decreases |s.removeq|
  {
    if s.removeq != [] {
      HeadDrains(s);
      ClearStep(s);
      DrainOneKeeps(s, DrainOne(s));
      DrainOneState(s, t);
      DrainedState(DrainOne(s), t);
    }
  }

  /** Task `t` before and after a choice. */
  ghost predicate Picked(s: Sched, s': Sched, t: nat)
    requires t in s.tasks
  {
    t in s'.tasks && s'.tasks[t] == s.tasks[t].(state := if s'.current == Some(t) then RUNNING
                                                         else if s.tasks[t].state == RUNNING then READY
                                                         else s.tasks[t].state)
  }

  lemma ChosenState(s: Sched, p: nat, s': Sched, t: nat)
    requires Inv(s) && IsBest(s, p) && QueuesKnown(s) && s' == Chosen(s, p) && t in s.tasks
    ensures Picked(s, s', t)
  {
    assert QueueOk(s, p) && Queued(s, s.readyq[p][0], p);
  }

  lemma PickState(s: Sched, s': Sched, t: nat)
    requires Inv(s) && s.removeq == [] && Pick(s, s') && t in s.tasks
    ensures Picked(s, s', t)
  {
    if !(NoneReady(s) && s' == s.(mask := {}, current := if RunsOn(s) then s.current else None)) {
      var p: nat :| IsBest(s, p) && s' == Chosen(s, p);
      ChosenState(s, p, s', t);
    }
  }

  /** The state of task `t` after an operation, in terms of the state before and of who is current. */
  ghost function NextState(s: Sched, op: Op, s': Sched, t: nat): TaskState
    requires t in s.tasks
  {
    var st := s.tasks[t].state;
    match op
    case CreateOp(_, _) => st
    case AddOp(x, ok) => if x == t && ok then READY else st
    case UnblockOp(x) => if x != t then st else if s.current == Some(t) then RUNNING else READY
    case BlockOp => if s.current == Some(t) then BLOCKED else st
    case YieldOp => if s.current == Some(t) then READY else st
    case DestroyOp(x) => if x == t && s.tasks[t].named && s.tasks[t].userdata then STOPPED else st
    case ScheduleOp =>
      if s'.current == Some(t) then RUNNING
      else if Removing(s, t) then ZOMBIE
      else if st == RUNNING then READY
      else st
  }

  /** Task `t` before and after the removed tasks are taken out. */
  ghost predicate TakenOut(l: Sched, d: Sched, t: nat)
    requires t in l.tasks
  {
    && t in d.tasks && d.tasks[t].named == l.tasks[t].named && d.tasks[t].prio == l.tasks[t].prio
    && d.tasks[t].userdata == (l.tasks[t].userdata && !Removing(l, t))
    && d.tasks[t].state == if Removing(l, t) then ZOMBIE else l.tasks[t].state
  }

  lemma CallState(l: Sched, d: Sched, s': Sched, t: nat)
    requires t in l.tasks && TakenOut(l, d, t) && Picked(d, s', t)
    ensures t in s'.tasks && s'.tasks[t].named == l.tasks[t].named && s'.tasks[t].prio == l.tasks[t].prio
    ensures s'.tasks[t].userdata == (l.tasks[t].userdata && !Removing(l, t))
    ensures s'.tasks[t].state == NextState(l, ScheduleOp, s', t)
  {
  }

  lemma DrainedPicked(l: Sched, s': Sched, t: nat)
    requires Inv(l) && Clear(l) && Pick(Drained(l), s') && t in l.tasks
    ensures TakenOut(l, Drained(l), t) && Picked(Drained(l), s', t)
  {
    DrainedKeeps(l);
    DrainedState(l, t);
    PickState(Drained(l), s', t);
  }

  lemma ScheduleState(s: Sched, s': Sched, t: nat)
    requires Inv(s) && Schedule(s, s') && t in s.tasks
    ensures t in s'.tasks && s'.tasks[t].named == s.tasks[t].named && s'.tasks[t].prio == s.tasks[t].prio
    ensures s'.tasks[t].userdata == (s.tasks[t].userdata && !Removing(s, t))
    ensures s'.tasks[t].state == NextState(s, ScheduleOp, s', t)
  {
    LeftKeeps(s);
    DrainedPicked(Left(s), s', t);
    CallState(Left(s), Drained(Left(s)), s', t);
  }

  /** Every operation, in every state a run can reach: a task keeps its priority, moves from state to state as
      its life cycle says, loses its name exactly by its destruction, and leaves the scheduler exactly when a
      call of the scheduler takes it out. Adding it succeeds exactly if it was not freed. */
  lemma TaskMoves(s: Sched, op: Op, s': Sched, t: nat)
    requires Inv(s) && Step(s, op, s') && t in s.tasks
    ensures t in s'.tasks && s'.tasks[t].prio == s.tasks[t].prio && s'.tasks[t].state == NextState(s, op, s', t)
    ensures s'.tasks[t].named <==> s.tasks[t].named && op != DestroyOp(t)
    ensures s'.tasks[t].userdata <==>
      op == AddOp(t, true) || (s.tasks[t].userdata && !(op == ScheduleOp && Removing(s, t)))
    ensures op.AddOp? && op.t == t ==> (op.ok <==> s.tasks[t].freed == 0)
  {
    if op == ScheduleOp {
      ScheduleState(s, s', t);
    }
  }

  /** Only a call of the scheduler changes who is current. */
  lemma CurrentMoves(s: Sched, op: Op, s': Sched)
    requires Step(s, op, s') && op != ScheduleOp
    ensures s'.current == s.current
  {
  }

  lemma MovesAt(states: seq<Sched>, ops: seq<Op>, n: nat, t: nat)
    requires Run(states, ops) && n < |ops| && t in states[n].tasks
    ensures t in states[n + 1].tasks && states[n + 1].tasks[t].prio == states[n].tasks[t].prio
    ensures states[n + 1].tasks[t].state == NextState(states[n], ops[n], states[n + 1], t)
    ensures states[n + 1].tasks[t].named <==> states[n].tasks[t].named && ops[n] != DestroyOp(t)
    ensures states[n + 1].tasks[t].userdata <==>
      ops[n] == AddOp(t, true) || (states[n].tasks[t].userdata && !(ops[n] == ScheduleOp && Removing(states[n], t)))
  {
    RunKeepsInv(states, ops, n);
    assert StepAt(states, ops, n);
    TaskMoves(states[n], ops[n], states[n + 1], t);
  }

  /** A created task is STOPPED, and has the priority it was given in every later state. */
  lemma {:induction false} PriorityIsGiven(states: seq<Sched>, ops: seq<Op>, i: nat, n: nat, t: nat, p: nat)
    requires Run(states, ops) && i < n < |states| && ops[i] == CreateOp(t, p)
    ensures t in states[n].tasks && states[n].tasks[t].prio == p
    ensures n == i + 1 ==> states[n].tasks[t].state == STOPPED && states[n].tasks[t].named
  {
    assert StepAt(states, ops, i);
    if i + 1 < n {
      PriorityIsGiven(states, ops, i, n - 1, t, p);
      MovesAt(states, ops, n - 1, t);
    }
  }

  /** A blocked task stays blocked, and so is not chosen, until it is unblocked or destroyed. */
  lemma {:induction false} BlockedUntilUnblocked(states: seq<Sched>, ops: seq<Op>, i: nat, n: nat, t: nat)
    requires Run(states, ops) && i <= n < |states| && t in states[i].tasks && states[i].tasks[t].state == BLOCKED
    requires forall k :: i <= k < n ==> ops[k] != UnblockOp(t) && ops[k] != DestroyOp(t)
    ensures t in states[n].tasks && states[n].tasks[t].state == BLOCKED
  {
    if i < n {
      BlockedUntilUnblocked(states, ops, i, n - 1, t);
      MovesAt(states, ops, n - 1, t);
      RunKeepsInv(states, ops, n - 1);
      RunKeepsInv(states, ops, n);
      assert StepAt(states, ops, n - 1);
      StaysBlocked(states[n - 1], ops[n - 1], states[n], t);
    }
  }

  lemma StaysBlocked(s: Sched, op: Op, s': Sched, t: nat)
    requires Inv(s) && Step(s, op, s') && t in s.tasks && s.tasks[t].state == BLOCKED && op != UnblockOp(t) && op != DestroyOp(t)
    ensures t in s'.tasks && s'.tasks[t].state == BLOCKED
  {
    TaskMoves(s, op, s', t);
    if op == ScheduleOp {
      ScheduleChooses(s, s');
      if Keeps(s) { LeftSame(s); }
    }
  }

  /** Some operation from `i` up to `n` is a call of the scheduler. */
  ghost predicate ScheduledSince(ops: seq<Op>, i: nat, n: nat) {
    exists k :: i < k < n && k < |ops| && ops[k] == ScheduleOp
  }

  /** Task `t` was destroyed by operation `i`, and the scheduler does not know it or was called since. */
  ghost predicate DestroyedAt(states: seq<Sched>, ops: seq<Op>, n: nat, t: nat, i: nat) {
    && i < n && i < |ops| && i < |states| && ops[i] == DestroyOp(t) && t in states[i].tasks
    && (states[i].tasks[t].userdata ==> ScheduledSince(ops, i, n))
  }

  lemma {:induction false} NamelessStays(states: seq<Sched>, ops: seq<Op>, i: nat, n: nat, t: nat)
    requires Run(states, ops) && i <= n < |states| && t in states[i].tasks && !states[i].tasks[t].named
    ensures t in states[n].tasks && !states[n].tasks[t].named
  {
    if i < n {
      NamelessStays(states, ops, i, n - 1, t);
      MovesAt(states, ops, n - 1, t);
    }
  }

  lemma {:induction false} FreedStays(states: seq<Sched>, ops: seq<Op>, i: nat, n: nat, t: nat)
    requires Run(states, ops) && i <= n < |states| && t in states[i].tasks && states[i].tasks[t].freed == 1
    ensures t in states[n].tasks && states[n].tasks[t].freed == 1
  {
    if i < n {
      FreedStays(states, ops, i, n - 1, t);
      RunKeepsInv(states, ops, n - 1);
      RunKeepsInv(states, ops, n);
      assert StepAt(states, ops, n - 1);
      FreedStep(states[n - 1], ops[n - 1], states[n], t);
    }
  }

  lemma FreedStep(s: Sched, op: Op, s': Sched, t: nat)
    requires Inv(s) && Inv(s') && Step(s, op, s') && t in s.tasks && s.tasks[t].freed == 1
    ensures t in s'.tasks && s'.tasks[t].freed == 1
  {
    TaskMoves(s, op, s', t);
  }

  /** A destroyed task is STOPPED and waits to be taken out, or is freed at once. */
  lemma JustDestroyed(states: seq<Sched>, ops: seq<Op>, i: nat, t: nat)
    requires Run(states, ops) && i < |ops| && ops[i] == DestroyOp(t)
    ensures t in states[i].tasks && t in states[i + 1].tasks && !states[i + 1].tasks[t].named
    ensures if states[i].tasks[t].userdata then Removing(states[i + 1], t) && t in states[i + 1].removeq
            else states[i + 1].tasks[t].freed == 1
  {
    assert StepAt(states, ops, i);
    MovesAt(states, ops, i, t);
    RunKeepsInv(states, ops, i);
    RunKeepsInv(states, ops, i + 1);
  }

  /** A call of the scheduler frees every task that was destroyed before. */
  lemma ScheduleFrees(states: seq<Sched>, ops: seq<Op>, k: nat, t: nat)
    requires Run(states, ops) && k < |ops| && ops[k] == ScheduleOp && t in states[k].tasks && !states[k].tasks[t].named
    ensures t in states[k + 1].tasks && states[k + 1].tasks[t].freed == 1
  {
    MovesAt(states, ops, k, t);
    RunKeepsInv(states, ops, k);
    RunKeepsInv(states, ops, k + 1);
  }

  lemma DestroyedIsFreed(states: seq<Sched>, ops: seq<Op>, i: nat, n: nat, t: nat)
    requires Run(states, ops) && n < |states| && DestroyedAt(states, ops, n, t, i)
    ensures t in states[n].tasks && states[n].tasks[t].freed == 1
  {
    JustDestroyed(states, ops, i, t);
    if states[i].tasks[t].userdata {
      var k :| i < k < n && ops[k] == ScheduleOp;
      NamelessStays(states, ops, i + 1, k, t);
      ScheduleFrees(states, ops, k, t);
      FreedStays(states, ops, k + 1, n, t);
    } else {
      FreedStays(states, ops, i + 1, n, t);
    }
  }

  lemma {:induction false} FreedWasDestroyed(states: seq<Sched>, ops: seq<Op>, n: nat, t: nat) returns (i: nat)
    requires Run(states, ops) && n < |states| && t in states[n].tasks && states[n].tasks[t].freed == 1
    ensures DestroyedAt(states, ops, n, t, i)
  {
    i := FirstDestroyed(states, ops, n, t);
    if states[i].tasks[t].userdata && !ScheduledSince(ops, i, n) {
      JustDestroyed(states, ops, i, t);
      StillKnown(states, ops, i + 1, n, t);
      RunKeepsInv(states, ops, n);
    }
  }

  lemma {:induction false} FirstDestroyed(states: seq<Sched>, ops: seq<Op>, n: nat, t: nat) returns (i: nat)
    requires Run(states, ops) && n < |states| && t in states[n].tasks && states[n].tasks[t].freed == 1
    ensures i < n && ops[i] == DestroyOp(t) && t in states[i].tasks && states[i].tasks[t].named
  {
    RunKeepsInv(states, ops, n);
    i := NameLost(states, ops, n, t);
  }

  lemma {:induction false} NameLost(states: seq<Sched>, ops: seq<Op>, n: nat, t: nat) returns (i: nat)
    requires Run(states, ops) && n < |states| && t in states[n].tasks && !states[n].tasks[t].named
    ensures i < n && ops[i] == DestroyOp(t) && t in states[i].tasks && states[i].tasks[t].named
  {
    assert n > 0;
    assert StepAt(states, ops, n - 1);
    RunKeepsInv(states, ops, n - 1);
    NotCreatedNameless(states[n - 1], ops[n - 1], states[n], t);
    MovesAt(states, ops, n - 1, t);
    if states[n - 1].tasks[t].named {
      i := n - 1;
    } else {
      i := NameLost(states, ops, n - 1, t);
    }
  }

  lemma NotCreatedNameless(s: Sched, op: Op, s': Sched, t: nat)
    requires Inv(s) && Step(s, op, s') && t in s'.tasks && !s'.tasks[t].named
    ensures t in s.tasks
  {
    if op == ScheduleOp {
      ScheduleTasks(s, s');
    }
  }

  lemma ScheduleTasks(s: Sched, s': Sched)
    requires Inv(s) && Schedule(s, s')
    ensures s'.tasks.Keys == s.tasks.Keys
  {
    LeftKeeps(s);
    LeftSame(s);
    DrainedKeeps(Left(s));
    PickTasks(Drained(Left(s)), s');
  }

  lemma PickTasks(s: Sched, s': Sched)
    requires Inv(s) && Pick(s, s')
    ensures s'.tasks.Keys == s.tasks.Keys
  {
    if !(NoneReady(s) && s' == s.(mask := {}, current := if RunsOn(s) then s.current else None)) {
      var p: nat :| IsBest(s, p) && s' == Chosen(s, p);
      assert QueueOk(s, p) && Queued(s, s.readyq[p][0], p);
    }
  }

  lemma {:induction false} StillKnown(states: seq<Sched>, ops: seq<Op>, i: nat, n: nat, t: nat)
    requires Run(states, ops) && 0 < i <= n < |states| && t in states[i].tasks && states[i].tasks[t].userdata
    requires forall k :: i <= k < n ==> ops[k] != ScheduleOp
    ensures t in states[n].tasks && states[n].tasks[t].userdata
  {
    if i < n {
      StillKnown(states, ops, i, n - 1, t);
      MovesAt(states, ops, n - 1, t);
    }
  }

  /** A task is freed if and only if it was destroyed and, in case the scheduler knew it, the scheduler was
      called since. */
  lemma FreedExactly(states: seq<Sched>, ops: seq<Op>, n: nat, t: nat)
    requires Run(states, ops) && n < |states| && t in states[n].tasks
    ensures states[n].tasks[t].freed == 1 <==> exists i: nat :: DestroyedAt(states, ops, n, t, i)
  {
    if states[n].tasks[t].freed == 1 {
      var i := FreedWasDestroyed(states, ops, n, t);
    }
    if i: nat :| DestroyedAt(states, ops, n, t, i) {
      DestroyedIsFreed(states, ops, i, n, t);
    }
  }

  // ---------------------------------------------------------------- rotation

  /** Task `c` runs at priority `p`, `q` waits behind it, and nobody more urgent is ready. */
  ghost predicate Ring(s: Sched, p: nat, c: nat, q: seq<nat>) {
    && Inv(s) && s.removeq == [] && RunsOn(s) && s.current == Some(c) && s.tasks[c].prio == p
    && s.readyq[p] == q && (forall r: nat :: r < p ==> s.readyq[r] == [])
  }

  lemma YieldRound(s: Sched, m: Sched, s': Sched, p: nat, c: nat, q: seq<nat>)
    requires Ring(s, p, c, q) && Yield(s, m) && Schedule(m, s')
    ensures Ring(s', p, (q + [c])[0], (q + [c])[1..])
  {
    YieldKeeps(s, m);
    ScheduleKeeps(m, s');
    assert Left(m) == m && Drained(m) == m;
    assert Pick(m, s');
    assert m.readyq[p] == q + [c] && IsBest(m, p) && !NoneReady(m);
    assert QueueOk(m, p) && Queued(m, (q + [c])[0], p);
    var b: nat :| IsBest(m, b) && s' == Chosen(m, b);
    assert b == p;
  }

  function Rotated(ring: seq<nat>, n: nat): seq<nat>
    requires |ring| > 0
  {
    if n == 0 then ring else var r := Rotated(ring, n - 1); if r == [] then [] else r[1..] + [r[0]]
  }

  lemma {:induction false} RotatedIs(ring: seq<nat>, n: nat)
    requires |ring| > 0
    ensures |Rotated(ring, n)| == |ring|
    ensures forall i :: 0 <= i < |ring| ==> Rotated(ring, n)[i] == ring[(n + i) % |ring|]
  {
    if n > 0 {
      RotatedIs(ring, n - 1);
      forall i | 0 <= i < |ring| ensures Rotated(ring, n)[i] == ring[(n + i) % |ring|] {
        RotatedAt(ring, Rotated(ring, n - 1), n - 1, i);
      }
    }
  }

  lemma RotatedAt(ring: seq<nat>, r: seq<nat>, n: nat, i: nat)
    requires |r| == |ring| > 0 && i < |ring|
    requires forall j :: 0 <= j < |ring| ==> r[j] == ring[(n + j) % |ring|]
    ensures (r[1..] + [r[0]])[i] == ring[(n + 1 + i) % |ring|]
  {
    var k := |ring|;
    if i == k - 1 {
      ModUnique(n + 1 + i, k, n / k + 1, n % k);
      assert r[0] == ring[(n + 0) % k];
    } else {
      assert r[i + 1] == ring[(n + (i + 1)) % k];
    }
  }

  lemma {:induction false} RingTurns(rounds: seq<Sched>, p: nat, c: nat, q: seq<nat>, n: nat)
    requires n < |rounds| && Ring(rounds[0], p, c, q)
    requires forall i, j :: 0 <= i < |rounds| - 1 && j == i + 1 ==> Round(rounds[i], rounds[j])
    ensures |Rotated([c] + q, n)| > 0
    ensures Ring(rounds[n], p, Rotated([c] + q, n)[0], Rotated([c] + q, n)[1..])
  {
    RotatedIs([c] + q, n);
    if n == 0 {
      assert ([c] + q)[1..] == q;
    } else {
      RingTurns(rounds, p, c, q, n - 1);
      RotatedIs([c] + q, n - 1);
      var r := Rotated([c] + q, n - 1);
      assert Round(rounds[n - 1], rounds[n]);
      var m :| Yield(rounds[n - 1], m) && Schedule(m, rounds[n]);
      YieldRound(rounds[n - 1], m, rounds[n], p, r[0], r[1..]);
    }
  }

  /** Tasks of the same priority that only yield run in strict rotation, each every k-th round. */
  lemma StrictRotation(rounds: seq<Sched>, p: nat, c: nat, q: seq<nat>, n: nat)
    requires n < |rounds| && Ring(rounds[0], p, c, q)
    requires forall i, j :: 0 <= i < |rounds| - 1 && j == i + 1 ==> Round(rounds[i], rounds[j])
    ensures var ring := [c] + q; rounds[n].current == Some(ring[n % |ring|])
  {
    RingTurns(rounds, p, c, q, n);
    RotatedIs([c] + q, n);
  }
}
