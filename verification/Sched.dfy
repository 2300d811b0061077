/** The priority scheduler of prs/sched/swprio.c with the task references of prs/sched.c and prs/task.c,
    calls run one at a time on one worker. A mask is the set of its bits. */
module Sched {
  import opened Common

  const PRIOS: nat := 32

  datatype TaskState = STOPPED | READY | RUNNING | BLOCKED | ZOMBIE

  /** A task: `named` until it is destroyed, `userdata` while the scheduler knows it, its reference count
      and how often it was freed. */
  datatype Task = Task(prio: nat, state: TaskState, named: bool, schedId: bool, userdata: bool, refcnt: int, freed: nat)

  datatype Sched = Sched(
    tasks: map<nat, Task>,
    readyq: seq<seq<nat>>,
    mask: set<nat>,
    removeq: seq<nat>,
    current: Option<nat>)

  ghost predicate Init(s: Sched) {
    s.tasks == map[] && |s.readyq| == PRIOS && (forall p :: 0 <= p < PRIOS ==> s.readyq[p] == []) && s.mask == {}
    && s.removeq == [] && s.current == None
  }

  // ---------------------------------------------------------------- references

  function Ref(t: Task): Task {
    t.(refcnt := t.refcnt + 1)
  }

  /** prs_god_unlock: the last reference frees the task. */
  function Unref(t: Task): Task {
    t.(refcnt := t.refcnt - 1, freed := if t.refcnt == 1 then t.freed + 1 else t.freed)
  }

  // ---------------------------------------------------------------- queues

  function Without(q: seq<nat>, t: nat): seq<nat> {
    if q == [] then [] else if q[0] == t then q[1..] else [q[0]] + Without(q[1..], t)
  }

  /** prs_sched_swprio_ready: push and set the bit. */
  function Pushed(s: Sched, t: nat): Sched
    requires t in s.tasks && s.tasks[t].prio < |s.readyq|
  {
    var p := s.tasks[t].prio;
    s.(readyq := s.readyq[p := s.readyq[p] + [t]], mask := s.mask + {p})
  }

  function InState(s: Sched, t: nat, state: TaskState): Sched
    requires t in s.tasks
  {
    s.(tasks := s.tasks[t := s.tasks[t].(state := state)])
  }

  // ---------------------------------------------------------------- operations other than the choice

  ghost predicate Create(s: Sched, t: nat, prio: nat, s': Sched) {
    && t !in s.tasks && prio < PRIOS
    && s' == s.(tasks := s.tasks[t := Task(prio, STOPPED, true, false, false, 1, 0)])
  }

  /** prs_sched_add_task: one reference for prs/sched.c, one for the scheduler. */
  ghost predicate AddTask(s: Sched, t: nat, ok: bool, s': Sched) {
    && t in s.tasks && |s.readyq| == PRIOS && s.tasks[t].prio < PRIOS
    && ok == (s.tasks[t].refcnt > 0)
    && (ok ==> s.tasks[t].state == STOPPED && !s.tasks[t].userdata)
    && s' == if !ok then s else
         Pushed(s.(tasks := s.tasks[t := Ref(Ref(s.tasks[t])).(userdata := true, schedId := true, state := READY)]), t)
  }

  /** prs_task_unblock with the token of the task's last blocking. */
  ghost predicate Unblock(s: Sched, t: nat, s': Sched) {
    && t in s.tasks && s.tasks[t].state == BLOCKED && |s.readyq| == PRIOS && s.tasks[t].prio < PRIOS
    && s' == if s.current == Some(t) then InState(s, t, RUNNING) else Pushed(InState(s, t, READY), t)
  }

  /** The running task blocks; it stays current until it calls the scheduler. */
  ghost predicate Block(s: Sched, s': Sched) {
    && s.current.Some? && s.current.value in s.tasks && s.tasks[s.current.value].state == RUNNING
    && s' == InState(s, s.current.value, BLOCKED)
  }

  /** prs_sched_yield, up to the call of the scheduler. */
  ghost predicate Yield(s: Sched, s': Sched) {
    && s.current.Some? && s.current.value in s.tasks && s.tasks[s.current.value].state == RUNNING
    && |s.readyq| == PRIOS && s.tasks[s.current.value].prio < PRIOS
    && s' == Pushed(InState(s, s.current.value, READY), s.current.value)
  }

  /** prs_sched_remove_task: takes one reference and drops two. */
  function Removed(s: Sched, t: nat): Sched
    requires t in s.tasks
  {
    var task := Ref(s.tasks[t]);
    var queued := task.state != STOPPED;
    s.(tasks := s.tasks[t := Unref(Unref(if queued then task.(state := STOPPED) else task))],
       removeq := if queued then s.removeq + [t] else s.removeq)
  }

  /** prs_task_destroy by somebody who may still reach the task; only the first call has an effect. */
  ghost predicate Destroy(s: Sched, t: nat, s': Sched) {
    && t in s.tasks && s.tasks[t].refcnt > 0
    && s' == if !s.tasks[t].named then s else
         var s1 := s.(tasks := s.tasks[t := s.tasks[t].(named := false)]);
         var s2 := if s.tasks[t].schedId then Removed(s1, t) else s1;
         s2.(tasks := s2.tasks[t := Unref(s2.tasks[t])])
  }

  // ---------------------------------------------------------------- the choice

  ghost predicate CanDrain(s: Sched) {
    |s.removeq| > 0 && s.removeq[0] in s.tasks && s.tasks[s.removeq[0]].prio < |s.readyq|
  }

  /** Takes the oldest removed task out of the scheduler. */
  function DrainOne(s: Sched): (s': Sched)
    requires CanDrain(s)
    ensures |s'.readyq| == |s.readyq| && s'.tasks.Keys == s.tasks.Keys && s'.current == s.current
    ensures s'.removeq == s.removeq[1..]
  {
    var t := s.removeq[0];
    var p := s.tasks[t].prio;
    var q := Without(s.readyq[p], t);
    s.(tasks := s.tasks[t := Unref(s.tasks[t].(state := ZOMBIE, userdata := false))],
       readyq := s.readyq[p := q],
       mask := if t in s.readyq[p] && q == [] then s.mask - {p} else s.mask,
       removeq := s.removeq[1..])
  }

  /** Takes all removed tasks out of the scheduler, oldest first. */
  ghost function Drained(s: Sched): (s': Sched)
    ensures |s'.readyq| == |s.readyq| && s'.tasks.Keys == s.tasks.Keys && s'.current == s.current
    decreases |s.removeq|
  {
    if CanDrain(s) then Drained(DrainOne(s)) else s
  }

  /** The lowest priority value of the mask with a task in its queue. */
  ghost predicate IsBest(s: Sched, p: nat) {
    && p < |s.readyq| && p in s.mask && s.readyq[p] != []
    && forall q :: 0 <= q < p && q in s.mask && q < |s.readyq| ==> s.readyq[q] == []
  }

  ghost predicate NoneReady(s: Sched) {
    forall q :: q in s.mask && q < |s.readyq| ==> s.readyq[q] == []
  }

  /** What is left of the mask when the scan stops at `p`: bits of empty queues are cleared on the way. */
  ghost function ScannedMask(s: Sched, p: nat): set<nat> {
    set q | q in s.mask && q >= p
  }

  ghost predicate RunsOn(s: Sched) {
    s.current.Some? && s.current.value in s.tasks && s.tasks[s.current.value].state == RUNNING
  }

  /** The choice when queue `p` is the best one: a running task that is not worse stays; else the oldest
      task of that queue runs and a running task is preempted. */
  ghost function Chosen(s: Sched, p: nat): Sched
    requires p < |s.readyq| && s.readyq[p] != []
    requires forall q, i :: 0 <= q < |s.readyq| && 0 <= i < |s.readyq[q]| ==> s.readyq[q][i] in s.tasks
    requires RunsOn(s) ==> s.tasks[s.current.value].prio < |s.readyq|
  {
    var s0 := s.(mask := ScannedMask(s, p));
    if RunsOn(s) && s.tasks[s.current.value].prio <= p then s0
    else
      var s1 := if RunsOn(s) then InState(Pushed(s0, s.current.value), s.current.value, READY) else s0;
      var t := s.readyq[p][0];
      InState(s1.(readyq := s1.readyq[p := s1.readyq[p][1..]], current := Some(t)), t, RUNNING)
  }

  /** prs_sched_swprio_get_next for a worker whose current task is not being removed. */
  ghost predicate Pick(s: Sched, s': Sched) {
    && QueuesKnown(s)
    && ((NoneReady(s) && s' == s.(mask := {}, current := if RunsOn(s) then s.current else None))
        || (exists p: nat :: IsBest(s, p) && s' == Chosen(s, p)))
  }

  ghost predicate QueuesKnown(s: Sched) {
    && (forall q, i :: 0 <= q < |s.readyq| && 0 <= i < |s.readyq[q]| ==> s.readyq[q][i] in s.tasks)
    && (RunsOn(s) ==> s.tasks[s.current.value].prio < |s.readyq|)
  }

  /** The worker leaves the context of a task that is being removed before the task is taken out. */
  function Left(s: Sched): Sched {
    if s.current.Some? && s.current.value in s.removeq then s.(current := None) else s
  }

  /** A call of the scheduler: removed tasks are taken out, then a task is chosen. */
  ghost predicate Schedule(s: Sched, s': Sched) {
    Pick(Drained(Left(s)), s')
  }

  /** prs_sched_yield: the running task is made ready and the scheduler called. */
  ghost predicate Round(s: Sched, s': Sched) {
    exists m :: Yield(s, m) && Schedule(m, s')
  }

  // ---------------------------------------------------------------- runs

  datatype Op =
    | CreateOp(t: nat, prio: nat) | AddOp(t: nat, ok: bool) | UnblockOp(t: nat) | BlockOp | YieldOp | DestroyOp(t: nat)
    | ScheduleOp

  ghost predicate Step(s: Sched, op: Op, s': Sched) {
    match op
    case CreateOp(t, prio) => Create(s, t, prio, s')
    case AddOp(t, ok) => AddTask(s, t, ok, s')
    case UnblockOp(t) => Unblock(s, t, s')
    case BlockOp => Block(s, s')
    case YieldOp => Yield(s, s')
    case DestroyOp(t) => Destroy(s, t, s')
    case ScheduleOp => Schedule(s, s')
  }

  ghost predicate StepAt(states: seq<Sched>, ops: seq<Op>, i: nat) {
    i < |ops| && i + 1 < |states| && Step(states[i], ops[i], states[i + 1])
  }

  ghost predicate Run(states: seq<Sched>, ops: seq<Op>) {
    && |states| == |ops| + 1 && Init(states[0])
    && forall i: nat {:trigger StepAt(states, ops, i)} :: i < |ops| ==> StepAt(states, ops, i)
  }
}
