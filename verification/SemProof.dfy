/** What the semaphore's count means in every run. */
module SemProof {
  import opened Common
  import opened Sem

  // ---------------------------------------------------------------- the queue finds somebody

  lemma Partition(s: State)
    ensures |s.waiters| == |With(s.waiters, Blocked)| + |With(s.waiters, Released)| + |With(s.waiters, TimedOut)|
  {
    assert s.waiters.Keys == With(s.waiters, Blocked) + With(s.waiters, Released) + With(s.waiters, TimedOut);
    assert |s.waiters.Keys| == |s.waiters|;
  }

  lemma {:induction false} AtMostHolders(s: State, ws: set<nat>, holders: set<nat>)
    requires forall w :: w in ws ==> exists c :: c in holders && HoldsEvent(s, c, w)
    ensures |ws| <= |holders|
    decreases |ws|
  {
    if ws != {} {
      var w :| w in ws;
      var c :| c in holders && HoldsEvent(s, c, w);
      forall v | v in ws - {w} ensures exists d :: d in holders - {c} && HoldsEvent(s, d, v) {
        var d :| d in holders && HoldsEvent(s, d, v);
        assert d in holders - {c};
      }
      AtMostHolders(s, ws - {w}, holders - {c});
    }
  }

  lemma BlockedAreHeld(s: State)
    requires BlockedOk(s) && s.waitq == []
    ensures |With(s.waiters, Blocked)| <= |Holders(s.calls)|
  {
    forall w | w in With(s.waiters, Blocked) ensures exists c :: c in Holders(s.calls) && HoldsEvent(s, c, w) {
      var c :| HoldsEvent(s, c, w);
      assert c in Holders(s.calls);
    }
    AtMostHolders(s, With(s.waiters, Blocked), Holders(s.calls));
  }

  lemma HoldersAreActive(s: State, c: nat, self: bool)
    requires AtPhase(s, c, Popping(self))
    ensures |Holders(s.calls)| < |Active(s.calls)|
  {
    assert Holders(s.calls) <= Active(s.calls) - {c};
    SubsetSize(Holders(s.calls), Active(s.calls) - {c});
  }

  /** Without timeouts a call that has to wake somebody finds somebody. */
  lemma PopFinds(s: State, c: nat, self: bool)
    requires Inv(s) && AtPhase(s, c, Popping(self)) && s.initial >= 0 && With(s.waiters, TimedOut) == {}
    ensures s.waitq != []
  {
    if s.waitq == [] {
      Partition(s);
      BlockedAreHeld(s);
      HoldersAreActive(s, c, self);
    }
  }

  // ---------------------------------------------------------------- each step keeps the invariant

  lemma BlockedKept(s: State, c: nat, s': State)
    requires BlockedOk(s)
    requires forall w :: w in s'.waiters && s'.waiters[w] == Blocked
               ==> w in s'.waitq || HoldsEvent(s', c, w) || (w in s.waiters && s.waiters[w] == Blocked && w !in s.waitq)
    requires forall d, w :: HoldsEvent(s, d, w) && w in s'.waiters && s'.waiters[w] == Blocked ==> HoldsEvent(s', d, w)
    ensures BlockedOk(s')
  {
    forall w | w in s'.waiters && s'.waiters[w] == Blocked && w !in s'.waitq ensures exists d :: HoldsEvent(s', d, w) {
      if !HoldsEvent(s', c, w) {
        var d :| HoldsEvent(s, d, w);
        assert HoldsEvent(s', d, w);
      }
    }
  }

  lemma CallRemoved(calls: map<nat, Phase>, c: nat)
    requires c in calls
    ensures |Pending(calls - {c})| == |Pending(calls)| - One(calls[c].Pushed?)
    ensures |Active(calls - {c})| == |Active(calls)| - One(!calls[c].Pushed?)
  {
    if calls[c].Pushed? {
      assert Pending(calls) == Pending(calls - {c}) + {c};
      assert Active(calls) == Active(calls - {c});
    } else {
      assert Active(calls) == Active(calls - {c}) + {c};
      assert Pending(calls) == Pending(calls - {c});
    }
  }

  lemma CallAdded(calls: map<nat, Phase>, c: nat, ph: Phase)
    requires c !in calls
    ensures |Pending(calls[c := ph])| == |Pending(calls)| + One(ph.Pushed?)
    ensures |Active(calls[c := ph])| == |Active(calls)| + One(!ph.Pushed?)
  {
    CallRemoved(calls[c := ph], c);
    assert calls[c := ph] - {c} == calls;
  }

  lemma CallMoved(calls: map<nat, Phase>, c: nat, ph: Phase)
    requires c in calls
    ensures |Pending(calls[c := ph])| == |Pending(calls)| - One(calls[c].Pushed?) + One(ph.Pushed?)
    ensures |Active(calls[c := ph])| == |Active(calls)| - One(!calls[c].Pushed?) + One(!ph.Pushed?)
  {
    CallRemoved(calls, c);
    CallAdded(calls - {c}, c, ph);
    assert (calls - {c})[c := ph] == calls[c := ph];
  }

  lemma WaitPushCounts(s: State, c: nat, s': State)
    requires CountOk(s) && WaitPush(s, c, s')
    ensures CountOk(s') && With(s'.waiters, TimedOut) == With(s.waiters, TimedOut)
  {
    CallAdded(s.calls, c, Pushed);
    assert With(s'.waiters, Released) == With(s.waiters, Released);
  }

  lemma WaitPushKeeps(s: State, c: nat, s': State)
    requires Inv(s) && WaitPush(s, c, s')
    ensures Inv(s')
  {
    WaitPushCounts(s, c, s');
    WaitPushQueue(s, c, s');
    BlockedKept(s, c, s');
  }

  lemma WaitPushQueue(s: State, c: nat, s': State)
    requires QueueOk(s) && WaitPush(s, c, s')
    ensures QueueOk(s')
  {
  }

  lemma WaitDecrementCounts(s: State, c: nat, s': State)
    requires CountOk(s) && WaitDecrement(s, c, s')
    ensures CountOk(s')
  {
    CallMoved(s.calls, c, Popping(true));
    CallRemoved(s.calls, c);
  }

  lemma WaitDecrementKeeps(s: State, c: nat, s': State)
    requires Inv(s) && WaitDecrement(s, c, s')
    ensures Inv(s')
  {
    WaitDecrementCounts(s, c, s');
    BlockedKept(s, c, s');
  }

  lemma SignalIncrementCounts(s: State, c: nat, s': State)
    requires CountOk(s) && SignalIncrement(s, c, s')
    ensures CountOk(s')
  {
    CallAdded(s.calls, c, Popping(false));
  }

  lemma SignalIncrementKeeps(s: State, c: nat, s': State)
    requires Inv(s) && SignalIncrement(s, c, s')
    ensures Inv(s')
  {
    SignalIncrementCounts(s, c, s');
    BlockedKept(s, c, s');
  }

  lemma PopCounts(s: State, c: nat, self: bool, s': State)
    requires CountOk(s) && Pop(s, c, self, s')
    ensures CountOk(s')
  {
    if s.waitq == [] {
      CallRemoved(s.calls, c);
    } else {
      CallMoved(s.calls, c, Holding(s.waitq[0], self));
    }
  }

  lemma PopKeeps(s: State, c: nat, self: bool, s': State)
    requires Inv(s) && Pop(s, c, self, s')
    ensures Inv(s')
  {
    PopCounts(s, c, self, s');
    PopQueue(s, c, self, s');
    BlockedKept(s, c, s');
    if s.initial >= 0 && With(s.waiters, TimedOut) == {} {
      PopFinds(s, c, self);
    }
  }

  lemma PopQueue(s: State, c: nat, self: bool, s': State)
    requires QueueOk(s) && Pop(s, c, self, s')
    ensures QueueOk(s')
  {
  }

  lemma SignalEventCounts(s: State, c: nat, e: nat, self: bool, s': State)
    requires CountOk(s) && SignalEvent(s, c, e, self, s')
    ensures CountOk(s') && With(s'.waiters, TimedOut) == With(s.waiters, TimedOut)
  {
    if s.waiters[e] == Blocked {
      assert With(s'.waiters, Released) == With(s.waiters, Released) + {e};
      CallRemoved(s.calls, c);
      assert s'.waiters.Keys == s.waiters.Keys;
    } else {
      CallMoved(s.calls, c, Popping(self));
    }
  }

  lemma SignalEventKeeps(s: State, c: nat, e: nat, self: bool, s': State)
    requires Inv(s) && SignalEvent(s, c, e, self, s')
    ensures Inv(s')
  {
    SignalEventCounts(s, c, e, self, s');
    SignalEventQueue(s, c, e, self, s');
    BlockedKept(s, c, s');
  }

  lemma SignalEventQueue(s: State, c: nat, e: nat, self: bool, s': State)
    requires QueueOk(s) && SignalEvent(s, c, e, self, s')
    ensures QueueOk(s')
  {
  }

  lemma TimeoutKeeps(s: State, c: nat, s': State)
    requires Inv(s) && Timeout(s, c, s')
    ensures Inv(s')
  {
    assert With(s'.waiters, Released) == With(s.waiters, Released);
    assert s'.waiters.Keys == s.waiters.Keys;
    assert c in With(s'.waiters, TimedOut);
    BlockedKept(s, c, s');
  }

  lemma StepKeepsTimeouts(s: State, a: Action, s': State)
    requires Inv(s) && Step(s, a, s') && !a.TimeoutA?
    ensures With(s'.waiters, TimedOut) == With(s.waiters, TimedOut)
  {
  }

  lemma StepKeepsInv(s: State, a: Action, s': State)
    requires Inv(s) && Step(s, a, s')
    ensures Inv(s') && s'.initial == s.initial
  {
    match a
    case PushA(c) => WaitPushKeeps(s, c, s');
    case DecrementA(c) => WaitDecrementKeeps(s, c, s');
    case IncrementA(c) => SignalIncrementKeeps(s, c, s');
    case PopA(c, self) => PopKeeps(s, c, self, s');
    case SignalA(c, e, self) => SignalEventKeeps(s, c, e, self, s');
    case TimeoutA(c) => TimeoutKeeps(s, c, s');
  }

  lemma {:induction false} RunKeepsInv(states: seq<State>, actions: seq<Action>, n: nat)
    requires Run(states, actions) && n < |states|
    ensures Inv(states[n]) && states[n].initial == states[0].initial
    ensures (forall i :: 0 <= i < n ==> !actions[i].TimeoutA?) ==> With(states[n].waiters, TimedOut) == {}
  {
    if n > 0 {
      RunKeepsInv(states, actions, n - 1);
      assert StepAt(states, actions, n - 1);
      StepKeepsInv(states[n - 1], actions[n - 1], states[n]);
      if !actions[n - 1].TimeoutA? {
        StepKeepsTimeouts(states[n - 1], actions[n - 1], states[n]);
      }
    }
  }

  // ---------------------------------------------------------------- what holds in every run

  /** Never more waiters are released than the semaphore was given, in any interleaving. */
  lemma ReleasesAreBounded(states: seq<State>, actions: seq<Action>, n: nat)
    requires Run(states, actions) && n < |states|
    ensures var s := states[n]; |With(s.waiters, Released)| <= Max(s.initial, 0) + s.signals - Max(s.count, 0)
  {
    RunKeepsInv(states, actions, n);
  }

  /** In a run without timeouts from a count that is not negative, no call pops in vain. */
  lemma NoVainPop(states: seq<State>, actions: seq<Action>, n: nat, c: nat, self: bool)
    requires Run(states, actions) && n < |states| && states[0].initial >= 0
    requires forall i :: 0 <= i < n ==> !actions[i].TimeoutA?
    ensures states[n].vain == 0
    ensures AtPhase(states[n], c, Popping(self)) ==> states[n].waitq != []
  {
    RunKeepsInv(states, actions, n);
    if AtPhase(states[n], c, Popping(self)) {
      PopFinds(states[n], c, self);
    }
  }

  // Who is released.

  /** Waiters keep the order in which they were pushed, and a new one goes behind all others. */
  lemma WaitOrderKept(s: State, a: Action, s': State, x: nat, y: nat)
    requires QueueOk(s) && Step(s, a, s') && x in s'.waitq && y in s'.waitq && x != y
    ensures Before(s.waitq, x, y) ==> Before(s'.waitq, x, y)
    ensures x in s.waitq && y !in s.waitq ==> Before(s'.waitq, x, y)
  {
    if a.PushA? {
      AppendOrder(s.waitq, a.c, x, y);
    } else if a.PopA? && s.waitq != [] {
      if Before(s.waitq, x, y) {
        PopOrder(s.waitq, x, y);
      }
    }
  }

  lemma PopOrder(q: seq<nat>, x: nat, y: nat)
    requires q != [] && NoDuplicates(q) && Before(q, x, y) && x in q[1..]
    ensures Before(q[1..], x, y)
  {
    var i, j :| 0 <= i < j < |q| && q[i] == x && q[j] == y;
    var k :| 0 <= k < |q| - 1 && q[1..][k] == x;
    assert i == k + 1;
    assert q[1..][i - 1] == x && q[1..][j - 1] == y;
  }

  /** A waiter is not queued again: what is in the queue was there before, or is pushed in this step. */
  lemma QueuedBefore(s: State, a: Action, s': State, x: nat)
    requires Step(s, a, s') && x in s'.waitq
    ensures x in s.waitq || (a == PushA(x) && x !in s.waiters)
  {
  }

  lemma WaitersStay(s: State, a: Action, s': State, x: nat)
    requires Step(s, a, s') && x in s.waiters
    ensures x in s'.waiters
  {
  }

  lemma {:induction false} KnownSince(states: seq<State>, actions: seq<Action>, i: nat, n: nat, x: nat)
    requires Run(states, actions) && i < n < |states| && actions[i] == PushA(x)
    ensures x in states[n].waiters
  {
    assert StepAt(states, actions, n - 1);
    if i + 1 < n {
      KnownSince(states, actions, i, n - 1, x);
      WaitersStay(states[n - 1], actions[n - 1], states[n], x);
    }
  }

  lemma {:induction false} FirstStaysAhead(states: seq<State>, actions: seq<Action>, i: nat, j: nat, n: nat, x: nat, y: nat)
    requires Run(states, actions) && i < j < n < |states| && actions[i] == PushA(x) && actions[j] == PushA(y) && x != y
    requires x in states[n].waitq && y in states[n].waitq
    ensures Before(states[n].waitq, x, y)
  {
    RunKeepsInv(states, actions, n - 1);
    assert StepAt(states, actions, n - 1);
    KnownSince(states, actions, i, n - 1, x);
    QueuedBefore(states[n - 1], actions[n - 1], states[n], x);
    if j + 1 < n {
      KnownSince(states, actions, j, n - 1, y);
      QueuedBefore(states[n - 1], actions[n - 1], states[n], y);
      FirstStaysAhead(states, actions, i, j, n - 1, x, y);
    } else {
      assert y !in states[n - 1].waitq;
    }
    WaitOrderKept(states[n - 1], actions[n - 1], states[n], x, y);
  }

  /** The wait queue is FIFO: when a later waiter is popped, an earlier one was popped before. */
  lemma PoppedInOrder(states: seq<State>, actions: seq<Action>, i: nat, j: nat, n: nat, x: nat, y: nat)
    requires Run(states, actions) && i < j < n < |actions| && actions[i] == PushA(x) && actions[j] == PushA(y) && x != y
    requires actions[n].PopA? && states[n].waitq != [] && states[n].waitq[0] == y
    ensures x !in states[n].waitq && AtPhase(states[n + 1], actions[n].c, Holding(y, actions[n].self))
  {
    assert StepAt(states, actions, n);
    RunKeepsInv(states, actions, n);
    if x in states[n].waitq {
      FirstStaysAhead(states, actions, i, j, n, x, y);
      NothingBeforeHead(states[n].waitq, x);
    }
  }

  /** A waiter leaves the state BLOCKED exactly when the holder of its event signals it or its timer expires,
      and what ended its wait is recorded for good. */
  lemma WaiterMoves(s: State, a: Action, s': State, w: nat)
    requires Step(s, a, s') && w in s.waiters
    ensures w in s'.waiters
    ensures s'.waiters[w] == if s.waiters[w] != Blocked then s.waiters[w]
                             else if a.SignalA? && a.e == w then Released
                             else if a == TimeoutA(w) then TimedOut
                             else Blocked
  {
  }

  /** At rest, whatever timeouts and vain pops there were, this is how many waiters are blocked. */
  lemma BlockedAtRest(states: seq<State>, actions: seq<Action>, n: nat)
    requires Run(states, actions) && n < |states| && states[n].calls == map[]
    ensures var s := states[n];
      |With(s.waiters, Blocked)| + |With(s.waiters, TimedOut)| == Max(-s.count, 0) - Max(-s.initial, 0) + s.vain
  {
    RunKeepsInv(states, actions, n);
    var s := states[n];
    assert Active(s.calls) == {} && Pending(s.calls) == {};
    Partition(s);
  }

  /** At rest, without timeouts: a negative count is the number of blocked waiters, and a count that is
      not negative means that nobody waits. */
  lemma NegativeCountIsWaiters(states: seq<State>, actions: seq<Action>, n: nat)
    requires Run(states, actions) && n < |states| && states[n].calls == map[] && states[0].initial >= 0
    requires forall i :: 0 <= i < n ==> !actions[i].TimeoutA?
    ensures |With(states[n].waiters, Blocked)| == Max(-states[n].count, 0)
  {
    RunKeepsInv(states, actions, n);
    BlockedAtRest(states, actions, n);
  }

  /** A negative initial count is not made up for: whatever it is, the first signal releases a waiter. */
  lemma NegativeInitialCount(initial: int) returns (states: seq<State>, actions: seq<Action>)
    requires initial < 0
    ensures Run(states, actions) && states[0].initial == initial
    ensures var s := states[|states| - 1];
      s.signals == 1 && s.count == initial && 0 in s.waiters && s.waiters[0] == Released
  {
    actions := [PushA(0), DecrementA(0), IncrementA(1), PopA(1, false), SignalA(1, 0, false)];
    var s0 := State(initial, initial, 0, [], map[], map[], 0, 0);
    var s1 := s0.(waitq := [0], waiters := map[0 := Blocked], calls := map[0 := Pushed]);
    var s2 := s1.(count := initial - 1, calls := map[]);
    var s3 := s2.(count := initial, signals := 1, calls := map[1 := Popping(false)], rights := 1);
    var s4 := s3.(waitq := [], calls := map[1 := Holding(0, false)]);
    var s5 := s4.(waiters := map[0 := Released], calls := map[]);
    assert s1.calls - {0} == map[];
    assert s4.calls - {1} == map[];
    assert s3.waitq[1..] == [];
    states := [s0, s1, s2, s3, s4, s5];
    assert Step(s0, actions[0], s1) && Step(s1, actions[1], s2) && Step(s2, actions[2], s3);
    assert Step(s3, actions[3], s4) && Step(s4, actions[4], s5);
  }

  /** What a caller expects of a semaphore: no more releases than it was given. */
  ghost predicate WithinBound(s: State) {
    |With(s.waiters, Released)| <= s.initial + s.signals - Max(s.count, 0)
  }

  ghost predicate RunFrom(states: seq<State>, actions: seq<Action>, initial: int) {
    Run(states, actions) && states[0].initial == initial
  }

  ghost predicate AlwaysWithinBound(initial: int) {
    forall states: seq<State>, actions: seq<Action>, n: nat ::
      RunFrom(states, actions, initial) && n < |states| ==> WithinBound(states[n])
  }

  /** The expectation holds in every run exactly when the initial count is not negative. */
  lemma BoundHoldsExactly(initial: int)
    ensures AlwaysWithinBound(initial) <==> initial >= 0
  {
    if initial >= 0 {
      forall states: seq<State>, actions: seq<Action>, n: nat | RunFrom(states, actions, initial) && n < |states|
        ensures WithinBound(states[n])
      {
        RunKeepsInv(states, actions, n);
      }
    } else {
      var states, actions := NegativeInitialCount(initial);
      var s := states[|states| - 1];
      RunKeepsInv(states, actions, |states| - 1);
      assert 0 in With(s.waiters, Released);
      assert RunFrom(states, actions, initial) && !WithinBound(states[|states| - 1]);
    }
  }

  /** A run without timeouts in which a signal finds nobody. */
  lemma VainSignal(initial: int) returns (states: seq<State>, actions: seq<Action>)
    requires initial < 0
    ensures Run(states, actions) && states[0].initial == initial && states[|states| - 1].vain == 1
    ensures NoTimeouts(actions)
  {
    actions := [IncrementA(0), PopA(0, false)];
    var s0 := State(initial, initial, 0, [], map[], map[], 0, 0);
    var s1 := s0.(count := initial + 1, signals := 1, calls := map[0 := Popping(false)], rights := 1);
    var s2 := s1.(calls := map[], vain := 1);
    assert s1.calls - {0} == map[];
    states := [s0, s1, s2];
    assert Step(s0, actions[0], s1) && Step(s1, actions[1], s2);
  }

  ghost predicate NoTimeouts(actions: seq<Action>) {
    forall i :: 0 <= i < |actions| ==> !actions[i].TimeoutA?
  }

  ghost predicate NeverVain(initial: int) {
    forall states: seq<State>, actions: seq<Action> ::
      RunFrom(states, actions, initial) && NoTimeouts(actions) ==> states[|states| - 1].vain == 0
  }

  /** Without timeouts every pop finds somebody, in every run, exactly when the initial count is not negative. */
  lemma NoVainPopExactly(initial: int)
    ensures NeverVain(initial) <==> initial >= 0
  {
    if initial >= 0 {
      forall states: seq<State>, actions: seq<Action> | RunFrom(states, actions, initial) && NoTimeouts(actions)
        ensures states[|states| - 1].vain == 0
      {
        RunKeepsInv(states, actions, |states| - 1);
      }
    } else {
      var states, actions := VainSignal(initial);
      assert RunFrom(states, actions, initial);
    }
  }
}
