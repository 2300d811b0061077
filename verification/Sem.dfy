/** The semaphore of prs/sem.c with an atomic FIFO wait queue, any number of waiters, signalers and
    timeouts. A step is one push, pop, atomic add or signal of an event. */
module Sem {
  import opened Common

  /** The event of a wait call. */
  datatype Status = Blocked | Released | TimedOut

  /** A call inside wait or signal; `self` marks prs_sem_signal_once called from wait. */
  datatype Phase =
    | Pushed                            // wait: about to take one from the count
    | Popping(self: bool)               // signal_once: about to pop
    | Holding(event: nat, self: bool)   // signal_once: about to signal the popped event

  /** `rights` counts the calls of signal_once and `vain` those that found the queue empty. */
  datatype State = State(
    initial: int,
    count: int,
    signals: nat,
    waitq: seq<nat>,
    waiters: map<nat, Status>,
    calls: map<nat, Phase>,
    rights: nat,
    vain: nat)

  ghost predicate Init(s: State) {
    && s.count == s.initial && s.signals == 0 && s.waitq == [] && s.waiters == map[] && s.calls == map[]
    && s.rights == 0 && s.vain == 0
  }

  ghost predicate AtPhase(s: State, c: nat, ph: Phase) {
    c in s.calls && s.calls[c] == ph
  }

  /** The event of wait call `c` is created and pushed. */
  ghost predicate WaitPush(s: State, c: nat, s': State) {
    && c !in s.calls && c !in s.waiters
    && s' == s.(waitq := s.waitq + [c], waiters := s.waiters[c := Blocked], calls := s.calls[c := Pushed])
  }

  /** The count was positive: this call must wake one waiter, perhaps itself. Otherwise it blocks. */
  ghost predicate WaitDecrement(s: State, c: nat, s': State) {
    && AtPhase(s, c, Pushed)
    && s' == if s.count > 0 then s.(count := s.count - 1, calls := s.calls[c := Popping(true)], rights := s.rights + 1)
             else s.(count := s.count - 1, calls := s.calls - {c})
  }

  ghost predicate SignalIncrement(s: State, c: nat, s': State) {
    && c !in s.calls
    && s' == if s.count < 0 then s.(count := s.count + 1, signals := s.signals + 1, calls := s.calls[c := Popping(false)],
                                    rights := s.rights + 1)
             else s.(count := s.count + 1, signals := s.signals + 1)
  }

  ghost predicate Pop(s: State, c: nat, self: bool, s': State) {
    && AtPhase(s, c, Popping(self))
    && s' == if s.waitq == [] then s.(calls := s.calls - {c}, vain := s.vain + 1)
             else s.(waitq := s.waitq[1..], calls := s.calls[c := Holding(s.waitq[0], self)])
  }

  /** An event that was signaled before makes the call pop again; else its waiter is released. */
  ghost predicate SignalEvent(s: State, c: nat, e: nat, self: bool, s': State) {
    && AtPhase(s, c, Holding(e, self)) && e in s.waiters
    && s' == if s.waiters[e] == Blocked then s.(waiters := s.waiters[e := Released], calls := s.calls - {c})
             else s.(calls := s.calls[c := Popping(self)])
  }

  /** The timer of wait call `c` expires; the count is not restored. */
  ghost predicate Timeout(s: State, c: nat, s': State) {
    && c in s.waiters && c !in s.calls && s.waiters[c] == Blocked
    && s' == s.(waiters := s.waiters[c := TimedOut])
  }

  datatype Action =
    | PushA(c: nat) | DecrementA(c: nat) | IncrementA(c: nat) | PopA(c: nat, self: bool)
    | SignalA(c: nat, e: nat, self: bool) | TimeoutA(c: nat)

  ghost predicate Step(s: State, a: Action, s': State) {
    match a
    case PushA(c) => WaitPush(s, c, s')
    case DecrementA(c) => WaitDecrement(s, c, s')
    case IncrementA(c) => SignalIncrement(s, c, s')
    case PopA(c, self) => Pop(s, c, self, s')
    case SignalA(c, e, self) => SignalEvent(s, c, e, self, s')
    case TimeoutA(c) => Timeout(s, c, s')
  }

  ghost predicate StepAt(states: seq<State>, actions: seq<Action>, i: nat) {
    i < |actions| && i + 1 < |states| && Step(states[i], actions[i], states[i + 1])
  }

  ghost predicate Run(states: seq<State>, actions: seq<Action>) {
    && |states| == |actions| + 1 && Init(states[0])
    && forall i: nat {:trigger StepAt(states, actions, i)} :: i < |actions| ==> StepAt(states, actions, i)
  }

  // ---------------------------------------------------------------- the accounts

  function Max(a: int, b: int): int {
    if a > b then a else b
  }

  ghost function With(waiters: map<nat, Status>, st: Status): set<nat> {
    set w | w in waiters && waiters[w] == st
  }

  /** Calls that still have to wake somebody. */
  ghost function Active(calls: map<nat, Phase>): set<nat> {
    set c | c in calls && !calls[c].Pushed?
  }

  ghost function Pending(calls: map<nat, Phase>): set<nat> {
    set c | c in calls && calls[c].Pushed?
  }

  ghost function Holders(calls: map<nat, Phase>): set<nat> {
    set c | c in calls && calls[c].Holding?
  }

  /** The count and the number of signal_once calls, in terms of the operations so far. */
  ghost predicate CountOk(s: State) {
    && s.count == s.initial + s.signals - (|s.waiters| - |Pending(s.calls)|)
    && s.rights == Max(s.initial, 0) + s.signals - Max(s.count, 0)
    && s.rights == |With(s.waiters, Released)| + |Active(s.calls)| + s.vain
  }

  /** Events in the queue or popped and not signaled yet are all different. */
  ghost predicate QueueOk(s: State) {
    && NoDuplicates(s.waitq)
    && (forall i :: 0 <= i < |s.waitq| ==> s.waitq[i] in s.waiters && s.waiters[s.waitq[i]] != Released)
    && (forall c :: c in s.calls && s.calls[c].Holding? ==> HolderOk(s, c))
    && (forall c, d :: c in s.calls && d in s.calls && c != d && s.calls[c].Holding? && s.calls[d].Holding?
          ==> s.calls[c].event != s.calls[d].event)
    && (forall c :: c in s.calls && s.calls[c].Pushed? ==> c in s.waiters && s.waiters[c] != TimedOut)
  }

  ghost predicate HolderOk(s: State, c: nat)
    requires c in s.calls && s.calls[c].Holding?
  {
    var e := s.calls[c].event;
    e in s.waiters && s.waiters[e] != Released && e !in s.waitq
  }

  /** Each event that is not released is in the queue or held, or it timed out. */
  ghost predicate BlockedOk(s: State) {
    forall w :: w in s.waiters && s.waiters[w] == Blocked ==> w in s.waitq || exists c :: HoldsEvent(s, c, w)
  }

  ghost predicate HoldsEvent(s: State, c: nat, w: nat) {
    c in s.calls && s.calls[c].Holding? && s.calls[c].event == w
  }

  ghost predicate Inv(s: State) {
    CountOk(s) && QueueOk(s) && BlockedOk(s) && (s.initial >= 0 && With(s.waiters, TimedOut) == {} ==> s.vain == 0)
  }
}
