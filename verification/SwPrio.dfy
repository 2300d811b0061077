/** The scheduler as the program keeps it: an array of queues, a mask and a remove queue changed in place. */
module SwPrio {
  import opened Common
  import opened Sched
  import opened SchedProof

  /** A mask that is not empty has a lowest bit. */
  lemma {:induction false} LowestExists(m: set<nat>) returns (p: nat)
    requires m != {}
    ensures IsLowest(m, p)
  {
    var x :| x in m;
    p := x;
    if m - {x} != {} {
      var low := LowestExists(m - {x});
      p := if low < x then low else x;
    }
    forall q | q in m ensures p <= q {
      assert q == x || q in m - {x};
    }
  }

  class Scheduler {
    var tasks: map<nat, Task>
    const readyq: array<seq<nat>>
    var mask: set<nat>
    var removeq: seq<nat>
    var current: Option<nat>

    ghost function View(): Sched
      reads this, readyq
    {
      Sched(tasks, readyq[..], mask, removeq, current)
    }

    ghost predicate Valid()
      reads this, readyq
    {
      Inv(View())
    }

    constructor ()
      ensures Init(View()) && Valid() && fresh(readyq)
    {
      tasks := map[];
      readyq := new seq<nat>[PRIOS](_ => []);
      mask := {};
      removeq := [];
      current := None;
      new;
      forall p: nat | p < PRIOS ensures QueueOk(View(), p) {
      }
    }

    method CreateTask(t: nat, prio: nat)
      requires Valid() && t !in tasks && prio < PRIOS
      modifies this`tasks
      ensures Valid() && Create(old(View()), t, prio, View())
    {
      tasks := tasks[t := Task(prio, STOPPED, true, false, false, 1, 0)];
      CreateKeeps(old(View()), t, prio, View());
    }

    /** prs_sched_swprio_ready without the interrupt. */
    method Push(t: nat)
      requires t in tasks && tasks[t].prio < readyq.Length
      modifies readyq, this`mask
      ensures View() == Pushed(old(View()), t)
    {
      var p := tasks[t].prio;
      readyq[p] := readyq[p] + [t];
      mask := mask + {p};
    }

    method Add(t: nat) returns (ok: bool)
      requires Valid() && t in tasks && (tasks[t].refcnt > 0 ==> tasks[t].state == STOPPED && !tasks[t].userdata)
      modifies this`tasks, this`mask, readyq
      ensures Valid() && AddTask(old(View()), t, ok, View())
    {
      ok := tasks[t].refcnt > 0;
      if ok {
        tasks := tasks[t := Ref(tasks[t])];
        tasks := tasks[t := Ref(tasks[t].(userdata := true))];
        tasks := tasks[t := tasks[t].(state := READY)];
        tasks := tasks[t := tasks[t].(schedId := true)];
        Push(t);
      }
      AddTaskKeeps(old(View()), t, ok, View());
    }

    method UnblockTask(t: nat)
      requires Valid() && t in tasks && tasks[t].state == BLOCKED
      modifies this`tasks, this`mask, readyq
      ensures Valid() && Unblock(old(View()), t, View())
    {
      if current == Some(t) {
        tasks := tasks[t := tasks[t].(state := RUNNING)];
      } else {
        tasks := tasks[t := tasks[t].(state := READY)];
        Push(t);
      }
      UnblockKeeps(old(View()), t, View());
    }

    method DestroyTask(t: nat)
      requires Valid() && t in tasks && tasks[t].refcnt > 0
      modifies this`tasks, this`removeq
      ensures Valid() && Destroy(old(View()), t, View())
    {
      if tasks[t].named {
        tasks := tasks[t := tasks[t].(named := false)];
        if tasks[t].schedId {
          tasks := tasks[t := Ref(tasks[t])];
          if tasks[t].state != STOPPED {
            tasks := tasks[t := tasks[t].(state := STOPPED)];
            removeq := removeq + [t];
          }
          tasks := tasks[t := Unref(tasks[t])];
          tasks := tasks[t := Unref(tasks[t])];
        }
        tasks := tasks[t := Unref(tasks[t])];
      }
      DestroyKeeps(old(View()), t, View());
    }

    /** Takes removed tasks out, oldest first; stops at the task in whose context it runs. */
    method Drain() returns (ok: bool)
      requires Valid()
      modifies this`tasks, this`mask, this`removeq, readyq
      ensures Valid() && Remaining(View()) == Remaining(old(View())) && ok == (removeq == [])
      ensures !ok ==> current == Some(removeq[0])
    {
      ghost var s := View();
      while removeq != []
        invariant Valid() && Remaining(View()) == Remaining(s) && current == s.current
        decreases |removeq|
      {
        if current == Some(removeq[0]) {
          return false;
        }
        HeadDrains(View());
        DrainOneKeeps(View(), DrainOne(View()));
        RemainingStep(View());
        TakeOut();
      }
      return true;
    }

    method TakeOut()
      requires CanDrain(View())
      modifies this`tasks, this`mask, this`removeq, readyq
      ensures View() == DrainOne(old(View()))
      ensures var t := old(removeq[0]); var p := old(tasks[t].prio);
        p in mask <==> p in old(mask) && !(t in old(readyq[p]) && readyq[p] == [])
    {
      var t := removeq[0];
      var p := tasks[t].prio;
      if t in readyq[p] {
        readyq[p] := Without(readyq[p], t);
        if readyq[p] == [] {
          mask := mask - {p};
        }
      } else {
        WithoutAbsent(readyq[p], t);
      }
      tasks := tasks[t := tasks[t].(state := ZOMBIE, userdata := false)];
      removeq := removeq[1..];
      tasks := tasks[t := Unref(tasks[t])];
    }

    /** Scans the mask from the most urgent bit; bits of empty queues are cleared on the way. */
    method Scan() returns (found: bool, p: nat)
      requires Valid()
      modifies this`mask
      ensures found ==> IsBest(old(View()), p) && mask == ScannedMask(old(View()), p)
      ensures !found ==> NoneReady(old(View())) && mask == {}
    {
      ghost var s := View();
      var left := mask;
      while left != {}
        invariant left <= mask && mask == left
        invariant left <= s.mask
        invariant forall q :: q in s.mask && q !in left ==> s.readyq[q] == [] && forall r :: r in left ==> q < r
        decreases |left|
      {
        ghost var low := LowestExists(left);
        assert IsLowest(left, low);
        var prio :| prio in left && forall q :: q in left ==> prio <= q;
        if readyq[prio] != [] {
          assert mask == ScannedMask(s, prio);
          return true, prio;
        }
        mask := mask - {prio};
        left := left - {prio};
      }
      return false, 0;
    }

    /** The rest of prs_sched_swprio_get_next, after removed tasks are taken out. */
    method Choose()
      requires Valid() && removeq == []
      modifies this`tasks, this`mask, this`current, readyq
      ensures Pick(old(View()), View())
    {
      ghost var d := View();
      QueuesAreKnown(d);
      var found, p := Scan();
      var runs := current.Some? && tasks[current.value].state == RUNNING;
      if !found {
        if !runs { current := None; }
      } else if !runs || tasks[current.value].prio > p {
        if runs {
          Push(current.value);
          tasks := tasks[current.value := tasks[current.value].(state := READY)];
        }
        var t := readyq[p][0];
        readyq[p] := readyq[p][1..];
        current := Some(t);
        tasks := tasks[t := tasks[t].(state := RUNNING)];
      }
      PickedIs(d, View(), found, p);
    }

    /** prs_sched_swprio_get_next for the context of task `current`. */
    method GetNext() returns (ok: bool)
      requires Valid()
      modifies this, readyq
      ensures ok ==> Pick(Remaining(old(View())), View())
      ensures !ok ==> Valid() && removeq != [] && current == old(current) == Some(removeq[0]) && Remaining(View()) == Remaining(old(View()))
    {
      ok := Drain();
      if ok {
        assert Remaining(View()) == View();
        Choose();
      }
    }

    /** A call of the scheduler by the worker: from the context of a task that is being removed the worker
        first changes to its own context. */
    method CallScheduler()
      requires Valid()
      modifies this, readyq
      ensures Valid() && Schedule(old(View()), View())
    {
      ghost var s := View();
      var ok := GetNext();
      if !ok {
        LeftKeeps(View());
        LeaveContext(View());
        current := None;
        ok := GetNext();
      }
      ScheduleKeeps(s, View());
    }

    method BlockCurrent()
      requires Valid() && RunsOn(View())
      modifies this`tasks
      ensures Valid() && Block(old(View()), View())
    {
      tasks := tasks[current.value := tasks[current.value].(state := BLOCKED)];
      BlockKeeps(old(View()), View());
    }

    method YieldCurrent()
      requires Valid() && RunsOn(View())
      modifies this, readyq
      ensures Valid() && Round(old(View()), View())
    {
      tasks := tasks[current.value := tasks[current.value].(state := BLOCKED)];
      tasks := tasks[current.value := tasks[current.value].(state := READY)];
      Push(current.value);
      ghost var m := View();
      YieldKeeps(old(View()), m);
      CallScheduler();
    }
  }

  /** The state in which the choice is made. */
  ghost function Remaining(s: Sched): Sched {
    Drained(Left(s))
  }

  lemma RemainingStep(s: Sched)
    requires CanDrain(s) && s.current != Some(s.removeq[0])
    ensures Remaining(DrainOne(s)) == Remaining(s)
  {
    assert s.removeq == [s.removeq[0]] + s.removeq[1..];
    assert Left(DrainOne(s)) == DrainOne(Left(s));
  }

  /** In its own context the worker goes on with the rest of the drain. */
  lemma LeaveContext(s: Sched)
    requires s.removeq != [] && s.current == Some(s.removeq[0])
    ensures Left(s) == s.(current := None) == Left(s.(current := None))
  {
  }

  lemma QueuesAreKnown(s: Sched)
    requires Inv(s)
    ensures QueuesKnown(s)
  {
    forall q: nat, i | q < |s.readyq| && 0 <= i < |s.readyq[q]| ensures s.readyq[q][i] in s.tasks {
      assert QueueOk(s, q);
    }
  }

  lemma PickedIs(d: Sched, s: Sched, found: bool, p: nat)
    requires QueuesKnown(d)
    requires !found ==> NoneReady(d) && s == d.(mask := {}, current := if RunsOn(d) then d.current else None)
    requires found ==> IsBest(d, p) && s == Chosen(d, p)
    ensures Pick(d, s)
  {
  }

  lemma {:induction false} WithoutAbsent(q: seq<nat>, t: nat)
    requires t !in q
    ensures Without(q, t) == q
  {
    if q != [] {
      WithoutAbsent(q[1..], t);
    }
  }
}
