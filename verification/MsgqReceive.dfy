/** What a receive returns, why it ends, and what becomes of the messages. */
module MsgqReceive {
  import opened Common
  import opened Msgq
  import opened MsgqProof
  import opened MsgqTheorems

  // ---------------------------------------------------------------- why the task woke up

  /** The receiver was unblocked by somebody else and has not looked at the cause yet. */
  ghost predicate Awake(s: State) {
    (MayBlock(s.pc) && s.task == Ready) || s.pc == Woken
  }

  /** The receiver is past its third search, or past a second one that found a message. */
  ghost predicate Leaving(pc: Pc) {
    pc in {FreeExchange, FreeSignal, FreeUnblock, Reset}
  }

  /** A receive that ends on a timeout has a timer. */
  ghost predicate CauseOk(s: State) {
    && ((MayBlock(s.pc) || s.pc == Woken || s.pc == FoundSched || Leaving(s.pc)) && s.gen in s.events ==>
          (s.events[s.gen].timer == Untimed <==> !s.timed))
    && (s.pc == Arming ==> s.timed)
    && (Awake(s) && s.cause == TimeoutCause ==> s.timed)
    && (!s.expected && s.pc != Outside ==> Leaving(s.pc) && s.timed && s.found == None)
  }

  lemma SenderKeepsCause(s: State, a: Action, s': State)
    requires Shape(s) && CauseOk(s) && Step(s, a, s')
    requires a.PushA? || a.LoadIdA? || a.LockA? || a.LoadEventA? || a.ExchangeA? || a.DropA? || a.SignalA?
    ensures CauseOk(s')
  {
  }

  lemma TimerKeepsCause(s: State, a: Action, s': State)
    requires Shape(s) && TaskOk(s) && CauseOk(s) && Step(s, a, s') && (a.ExpireA? || a.TimerSignalA? || a.TimerCancelA?)
    ensures CauseOk(s')
  {
  }

  ghost predicate StartStep(a: Action) {
    a.BeginA? || a.GiveUpA? || a.CreateA?
  }

  lemma StartKeepsCause(s: State, a: Action, s': State)
    requires TaskOk(s) && CauseOk(s) && Step(s, a, s') && StartStep(a)
    ensures CauseOk(s')
  {
  }

  lemma EndKeepsCause(s: State, a: Action, s': State)
    requires CauseOk(s) && Step(s, a, s') && ReceiverStep(a) && !StartStep(a)
    ensures CauseOk(s')
  {
  }

  lemma ReceiverKeepsCause(s: State, a: Action, s': State)
    requires TaskOk(s) && CauseOk(s) && Step(s, a, s') && ReceiverStep(a)
    ensures CauseOk(s')
  {
    if StartStep(a) {
      StartKeepsCause(s, a, s');
    } else {
      EndKeepsCause(s, a, s');
    }
  }

  lemma EventKeepsCause(s: State, a: Action, s': State)
    requires Shape(s) && TaskOk(s) && CauseOk(s) && Step(s, a, s') && EventStep(a)
    ensures CauseOk(s')
  {
  }

  lemma SearchKeepsCause(s: State, r: Option<Msg>, s': State)
    requires CauseOk(s) && SearchAgain(s, r, s')
    ensures CauseOk(s')
  {
  }

  lemma {:induction false} RunKeepsCause(states: seq<State>, actions: seq<Action>, n: nat)
    requires Run(states, actions) && n < |states|
    ensures CauseOk(states[n])
  {
    if n > 0 {
      RunKeepsCause(states, actions, n - 1);
      CauseAt(states, actions, n);
    }
  }

  lemma CauseAt(states: seq<State>, actions: seq<Action>, n: nat)
    requires Run(states, actions) && 0 < n < |states| && CauseOk(states[n - 1])
    ensures CauseOk(states[n])
  {
    RunKeepsInv(states, actions, n - 1);
    assert StepAt(states, actions, n - 1);
    var s, a, s' := states[n - 1], actions[n - 1], states[n];
    if a.SearchA? {
      SearchKeepsCause(s, a.r, s');
    } else if ReceiverStep(a) {
      ReceiverKeepsCause(s, a, s');
    } else if EventStep(a) {
      EventKeepsCause(s, a, s');
    } else if a.ExpireA? || a.TimerSignalA? || a.TimerCancelA? {
      TimerKeepsCause(s, a, s');
    } else {
      SenderKeepsCause(s, a, s');
    }
  }

  // ---------------------------------------------------------------- who unblocked the task

  /** Step `i` unblocked the task of generation `g` for this cause. */
  ghost predicate UnblockedBy(states: seq<State>, actions: seq<Action>, i: nat, g: nat, cause: Cause) {
    && i < |actions| && i < |states| && states[i].task == BlockedOn(g)
    && match cause
       case SendCause => actions[i].SignalA? && actions[i].g == g
       case TimeoutCause => actions[i] == TimerSignalA(g)
  }

  /** The receiver became awake in this step only by a signal of its generation, which left its type. */
  lemma AwakeStep(s: State, a: Action, s': State)
    requires Shape(s) && TaskOk(s) && Step(s, a, s') && Awake(s')
    ensures (Awake(s) && s'.gen == s.gen && s'.cause == s.cause)
         || (s.task == BlockedOn(s.gen) && s'.gen == s.gen && a.SignalA? && a.g == s.gen && s'.cause == SendCause)
         || (s.task == BlockedOn(s.gen) && s'.gen == s.gen && a == TimerSignalA(s.gen) && s'.cause == TimeoutCause)
  {
    if ReceiverStep(a) {
      AwakeReceiver(s, a, s');
    } else if EventStep(a) {
      AwakeEvent(s, a, s');
    } else {
      AwakeOther(s, a, s');
    }
  }

  lemma AwakeReceiver(s: State, a: Action, s': State)
    requires Shape(s) && TaskOk(s) && Step(s, a, s') && Awake(s') && ReceiverStep(a)
    ensures Awake(s) && s'.gen == s.gen && s'.cause == s.cause
  {
  }

  lemma AwakeEvent(s: State, a: Action, s': State)
    requires Shape(s) && TaskOk(s) && Step(s, a, s') && Awake(s') && EventStep(a)
    ensures Awake(s) && s'.gen == s.gen && s'.cause == s.cause
  {
  }

  lemma AwakeOther(s: State, a: Action, s': State)
    requires Shape(s) && TaskOk(s) && Step(s, a, s') && Awake(s') && !ReceiverStep(a) && !EventStep(a)
    ensures (Awake(s) && s'.gen == s.gen && s'.cause == s.cause)
         || (s.task == BlockedOn(s.gen) && s'.gen == s.gen && a.SignalA? && a.g == s.gen && s'.cause == SendCause)
         || (s.task == BlockedOn(s.gen) && s'.gen == s.gen && a == TimerSignalA(s.gen) && s'.cause == TimeoutCause)
  {
  }

  /** A receiver that was unblocked reads the type of the signal that unblocked it. */
  lemma {:induction false} CauseIsTrue(states: seq<State>, actions: seq<Action>, n: nat)
    requires Run(states, actions) && n < |states| && Awake(states[n])
    ensures exists i: nat :: i < n && UnblockedBy(states, actions, i, states[n].gen, states[n].cause)
  {
    if n == 0 {
      assert false;
    }
    RunKeepsInv(states, actions, n - 1);
    assert StepAt(states, actions, n - 1);
    var s := states[n - 1];
    AwakeStep(s, actions[n - 1], states[n]);
    if Awake(s) && states[n].gen == s.gen && states[n].cause == s.cause {
      CauseIsTrue(states, actions, n - 1);
      var i: nat :| i < n - 1 && UnblockedBy(states, actions, i, s.gen, s.cause);
    } else {
      assert UnblockedBy(states, actions, n - 1, states[n].gen, states[n].cause);
    }
  }

  /** After a signal of generation `g` the task is never again blocked in it. */
  lemma SignaledIsAwake(states: seq<State>, actions: seq<Action>, i: nat, n: nat, g: nat)
    requires Run(states, actions) && i < n < |states|
    requires (actions[i].SignalA? && actions[i].g == g) || actions[i] == TimerSignalA(g)
    ensures states[n].task != BlockedOn(g)
  {
    SignalAt(states, actions, i, g);
    NeverBlockedAgain(states, actions, i + 1, n, g);
  }

  lemma SignalAt(states: seq<State>, actions: seq<Action>, i: nat, g: nat)
    requires Run(states, actions) && i < |actions|
    requires (actions[i].SignalA? && actions[i].g == g) || actions[i] == TimerSignalA(g)
    ensures g in states[i + 1].events && states[i + 1].task != BlockedOn(g)
  {
    RunKeepsInv(states, actions, i);
    assert StepAt(states, actions, i);
    SignalStep(states[i], actions[i], states[i + 1], g);
  }

  lemma SignalStep(s: State, a: Action, s': State, g: nat)
    requires Shape(s) && Step(s, a, s') && ((a.SignalA? && a.g == g) || a == TimerSignalA(g))
    ensures g in s'.events && s'.task != BlockedOn(g)
  {
  }

  lemma {:induction false} NeverBlockedAgain(states: seq<State>, actions: seq<Action>, i: nat, n: nat, g: nat)
    requires Run(states, actions) && i <= n < |states| && g in states[i].events && states[i].task != BlockedOn(g)
    ensures states[n].task != BlockedOn(g)
  {
    if i < n {
      NeverBlockedAgain(states, actions, i, n - 1, g);
      EventsStay(states, actions, i, n - 1, g);
      StaysUnblocked(states, actions, n, g);
    }
  }

  /** The timer of `g` is between dropping its reference and signaling, or the task is not blocked in `g`. */
  ghost predicate TimeoutPending(s: State, g: nat) {
    g in s.events && (s.events[g].timer == Firing || s.task != BlockedOn(g))
  }

  lemma ExpireStep(s: State, a: Action, s': State, g: nat)
    requires Shape(s) && EventsOk(s) && Step(s, a, s') && (a == ExpireA(g) || TimeoutPending(s, g))
    ensures TimeoutPending(s', g)
  {
    EventsGrow(s, a, s', g);
    if s.task != BlockedOn(g) {
      NotBlockedAgain(s, a, s', g);
    } else if EventStep(a) {
      FiringEvent(s, a, s', g);
    } else {
      FiringOther(s, a, s', g);
    }
  }

  /** No step of the receiver touches a timer that is firing. */
  lemma FiringEvent(s: State, a: Action, s': State, g: nat)
    requires Shape(s) && EventsOk(s) && Step(s, a, s') && EventStep(a)
    requires g in s.events && s.events[g].timer == Firing
    ensures g in s'.events && s'.events[g].timer == Firing
  {
    if a.TakeBackA? || a.DropOwnA? || a.UnblockOwnA? {
      FiringEnd(s, a, s', g);
    } else if g == s.gen {
      assert Counted(s.events[g], true, s.timed, s.pc);
    }
  }

  lemma FiringEnd(s: State, a: Action, s': State, g: nat)
    requires Step(s, a, s') && (a.TakeBackA? || a.DropOwnA? || a.UnblockOwnA?)
    requires g in s.events && s.events[g].timer == Firing
    ensures g in s'.events && s'.events[g].timer == Firing
  {
  }

  lemma FiringOther(s: State, a: Action, s': State, g: nat)
    requires Step(s, a, s') && !EventStep(a) && g in s.events
    requires a == ExpireA(g) || s.events[g].timer == Firing
    ensures TimeoutPending(s', g)
  {
    if !ReceiverStep(a) && !a.SearchA? {
      FiringShared(s, a, s', g);
    }
  }

  lemma FiringShared(s: State, a: Action, s': State, g: nat)
    requires Step(s, a, s') && !EventStep(a) && !ReceiverStep(a) && !a.SearchA? && g in s.events
    requires a == ExpireA(g) || s.events[g].timer == Firing
    ensures TimeoutPending(s', g)
  {
  }

  /** A timer that expired reaches its task: it is about to signal it, or the task is not blocked any more. */
  lemma {:induction false} ExpiredReachesTask(states: seq<State>, actions: seq<Action>, i: nat, n: nat, g: nat)
    requires Run(states, actions) && i < n < |states| && actions[i] == ExpireA(g)
    ensures TimeoutPending(states[n], g)
  {
    if i + 1 < n {
      ExpiredReachesTask(states, actions, i, n - 1, g);
    }
    ExpireAt(states, actions, n - 1, g);
  }

  lemma ExpireAt(states: seq<State>, actions: seq<Action>, n: nat, g: nat)
    requires Run(states, actions) && n < |actions|
    requires actions[n] == ExpireA(g) || TimeoutPending(states[n], g)
    ensures TimeoutPending(states[n + 1], g)
  {
    RunKeepsInv(states, actions, n);
    assert StepAt(states, actions, n);
    ExpireStep(states[n], actions[n], states[n + 1], g);
  }

  // ---------------------------------------------------------------- how a receive ends

  lemma EndStep(s: State, a: Action, s': State)
    requires CauseOk(s) && Step(s, a, s') && s.pc != Outside && s'.pc == Outside
    ensures a.TakeA? || (s.timed && a.GiveUpA?) || (s.timed && a.ResetA? && s.found == None && !s.expected)
  {
  }

  lemma UnexpectedAt(states: seq<State>, actions: seq<Action>, n: nat)
    requires Run(states, actions) && 0 < n < |states| && states[n].pc != Outside && !states[n].expected
    ensures states[n].gen == states[n - 1].gen
    ensures if actions[n - 1].WakeA? then Awake(states[n - 1]) && states[n - 1].cause == TimeoutCause
            else states[n - 1].pc != Outside && !states[n - 1].expected
  {
    RunKeepsCause(states, actions, n - 1);
    assert StepAt(states, actions, n - 1);
    UnexpectedStep(states[n - 1], actions[n - 1], states[n]);
  }

  /** The third search was skipped because of a timeout that unblocked the task of this generation. */
  lemma {:induction false} TimedOut(states: seq<State>, actions: seq<Action>, n: nat)
    requires Run(states, actions) && n < |states| && states[n].pc != Outside && !states[n].expected
    ensures exists i: nat :: i < n && UnblockedBy(states, actions, i, states[n].gen, TimeoutCause)
  {
    if n == 0 {
      assert false;
    }
    UnexpectedAt(states, actions, n);
    if actions[n - 1].WakeA? {
      CauseIsTrue(states, actions, n - 1);
    } else {
      TimedOut(states, actions, n - 1);
    }
    var i: nat :| i < n - 1 && UnblockedBy(states, actions, i, states[n - 1].gen, TimeoutCause);
  }

  lemma UnexpectedStep(s: State, a: Action, s': State)
    requires CauseOk(s) && Step(s, a, s') && s'.pc != Outside && !s'.expected
    ensures s'.gen == s.gen
    ensures if a.WakeA? then Awake(s) && s.cause == TimeoutCause else s.pc != Outside && !s.expected
  {
  }

  /** How a receive ends: with its message, or, only if it is timed, because its time was used up before a
      round or because its timer unblocked it in this round. So an untimed receive ends with a message. */
  lemma ReceiveEnds(states: seq<State>, actions: seq<Action>, n: nat)
    requires Run(states, actions) && n < |actions| && states[n].pc != Outside && states[n + 1].pc == Outside
    ensures || actions[n].TakeA?
            || (states[n].timed && actions[n].GiveUpA?)
            || (states[n].timed && exists i: nat :: i < n && UnblockedBy(states, actions, i, states[n].gen, TimeoutCause))
  {
    RunKeepsCause(states, actions, n);
    assert StepAt(states, actions, n);
    EndStep(states[n], actions[n], states[n + 1]);
    if actions[n].ResetA? {
      TimedOut(states, actions, n);
    }
  }

  // ---------------------------------------------------------------- the message that is returned

  /** Search `k` found `m` as the oldest message that this receive wants. */
  ghost predicate FoundAt(states: seq<State>, actions: seq<Action>, k: nat, m: Msg) {
    && k < |actions| && k + 1 < |states|
    && match actions[k]
       case BeginA(_, _, r) => r == Some(m) && SearchFinds(states[k].(wanted := states[k + 1].wanted), r)
       case SearchA(r) => r == Some(m) && SearchFinds(states[k], r)
       case WakeA(r) => r == Some(m) && SearchFinds(states[k], r)
       case _ => false
  }

  lemma FoundStep(s: State, a: Action, s': State)
    requires Step(s, a, s') && s'.found.Some?
    ensures || (s.found == s'.found && s'.wanted == s.wanted && !a.BeginA?)
            || (a.BeginA? && a.r == s'.found && SearchFinds(s.(wanted := s'.wanted), a.r))
            || (a.SearchA? && a.r == s'.found && SearchFinds(s, a.r) && s'.wanted == s.wanted)
            || (a.WakeA? && a.r == s'.found && SearchFinds(s, a.r) && s'.wanted == s.wanted)
  {
  }

  /** The message a receive takes was the oldest wanted one in its last search that found anything. */
  lemma {:induction false} TakenWasOldest(states: seq<State>, actions: seq<Action>, n: nat, m: Msg)
    requires Run(states, actions) && n < |states| && states[n].found == Some(m)
    ensures exists k: nat :: k < n && FoundAt(states, actions, k, m) && states[k + 1].wanted == states[n].wanted
  {
    if n == 0 {
      assert false;
    }
    assert StepAt(states, actions, n - 1);
    FoundStep(states[n - 1], actions[n - 1], states[n]);
    if FoundAt(states, actions, n - 1, m) {
      assert states[n - 1 + 1].wanted == states[n].wanted;
    } else {
      TakenWasOldest(states, actions, n - 1, m);
      var k: nat :| k < n - 1 && FoundAt(states, actions, k, m) && states[k + 1].wanted == states[n - 1].wanted;
    }
  }

  /** A receive that has found a message is on its way to taking it. */
  ghost predicate FoundPc(s: State) {
    s.found.Some? ==> s.pc in {FoundExchange, FoundSignal, FoundUnblock, FoundSched, FreeExchange, FreeSignal, FreeUnblock, Reset, Take}
  }

  lemma FoundPcStep(s: State, a: Action, s': State)
    requires FoundPc(s) && Step(s, a, s')
    ensures FoundPc(s')
    ensures s.found.Some? && !a.TakeA? ==> s'.found == s.found
  {
    if ReceiverStep(a) {
      FoundPcReceiver(s, a, s');
    } else if EventStep(a) {
      FoundPcEvent(s, a, s');
    }
  }

  lemma FoundPcReceiver(s: State, a: Action, s': State)
    requires FoundPc(s) && Step(s, a, s') && ReceiverStep(a)
    ensures FoundPc(s')
    ensures s.found.Some? && !a.TakeA? ==> s'.found == s.found
  {
  }

  lemma FoundPcEvent(s: State, a: Action, s': State)
    requires FoundPc(s) && Step(s, a, s') && EventStep(a)
    ensures FoundPc(s') && s'.found == s.found
  {
  }

  lemma {:induction false} RunKeepsFoundPc(states: seq<State>, actions: seq<Action>, n: nat)
    requires Run(states, actions) && n < |states|
    ensures FoundPc(states[n])
  {
    if n > 0 {
      RunKeepsFoundPc(states, actions, n - 1);
      assert StepAt(states, actions, n - 1);
      FoundPcStep(states[n - 1], actions[n - 1], states[n]);
    }
  }

  lemma FoundNow(states: seq<State>, actions: seq<Action>, k: nat, m: Msg)
    requires Run(states, actions) && FoundAt(states, actions, k, m)
    ensures states[k + 1].found == Some(m)
  {
    assert StepAt(states, actions, k);
  }

  /** A message that a search found is the one that the receive takes: it is kept until then. */
  lemma {:induction false} FoundIsKept(states: seq<State>, actions: seq<Action>, k: nat, n: nat, m: Msg)
    requires Run(states, actions) && k < n < |states| && FoundAt(states, actions, k, m)
    requires forall j :: k < j < n ==> !actions[j].TakeA?
    ensures states[n].found == Some(m) && states[n].pc != Outside
  {
    if k + 1 == n {
      FoundNow(states, actions, k, m);
    } else {
      FoundIsKept(states, actions, k, n - 1, m);
      RunKeepsFoundPc(states, actions, n - 1);
      assert StepAt(states, actions, n - 1);
      FoundPcStep(states[n - 1], actions[n - 1], states[n]);
    }
    RunKeepsFoundPc(states, actions, n);
  }

  // ---------------------------------------------------------------- no message is lost or made up

  /** The messages sent by the first `n` actions. */
  ghost function Sent(actions: seq<Action>, n: nat): multiset<Msg>
    requires n <= |actions|
  {
    if n == 0 then multiset{}
    else if actions[n - 1].PushA? then Sent(actions, n - 1) + multiset{actions[n - 1].m}
    else Sent(actions, n - 1)
  }

  /** The messages that receives returned in the first `n` actions. */
  ghost function Returned(states: seq<State>, actions: seq<Action>, n: nat): multiset<Msg>
    requires n <= |actions| && n <= |states|
  {
    if n == 0 then multiset{}
    else if actions[n - 1].TakeA? && states[n - 1].found.Some? then
      Returned(states, actions, n - 1) + multiset{states[n - 1].found.value}
    else Returned(states, actions, n - 1)
  }

  lemma QueueStep(s: State, a: Action, s': State)
    requires Step(s, a, s')
    ensures a.PushA? ==> multiset(s'.queue) == multiset(s.queue) + multiset{a.m}
    ensures a.TakeA? ==> s.found.Some? && multiset(s.queue) == multiset(s'.queue) + multiset{s.found.value}
    ensures !a.PushA? && !a.TakeA? ==> s'.queue == s.queue
  {
    if a.TakeA? {
      var i := a.i;
      assert s.queue == s.queue[..i] + [s.queue[i]] + s.queue[i + 1..];
    } else if !a.PushA? {
      QueueSame(s, a, s');
    }
  }

  lemma QueueSame(s: State, a: Action, s': State)
    requires Step(s, a, s') && !a.PushA? && !a.TakeA?
    ensures s'.queue == s.queue
  {
  }

  /** Every message that was sent is in the queue or was returned by a receive, once. */
  lemma {:induction false} MessagesConserved(states: seq<State>, actions: seq<Action>, n: nat)
    requires Run(states, actions) && n < |states|
    ensures Sent(actions, n) == multiset(states[n].queue) + Returned(states, actions, n)
  {
    if n > 0 {
      MessagesConserved(states, actions, n - 1);
      assert StepAt(states, actions, n - 1);
      QueueStep(states[n - 1], actions[n - 1], states[n]);
    }
  }

  /** Messages keep the order in which they were sent. */
  lemma SendOrderKept(s: State, a: Action, s': State, x: Msg, y: Msg)
    requires Step(s, a, s') && NoDuplicates(s.queue) && x in s'.queue && y in s'.queue && x != y
    ensures Before(s.queue, x, y) ==> Before(s'.queue, x, y)
    ensures x in s.queue && y !in s.queue ==> Before(s'.queue, x, y)
  {
    if a.PushA? {
      AppendOrder(s.queue, a.m, x, y);
    } else if a.TakeA? {
      NotTaken(s.queue, a.i, x);
      NotTaken(s.queue, a.i, y);
      if Before(s.queue, x, y) {
        TakeOrder(s.queue, a.i, x, y);
      }
    } else {
      QueueSame(s, a, s');
    }
  }

  lemma NotTaken(q: seq<Msg>, r: nat, x: Msg)
    requires r < |q| && NoDuplicates(q) && x in q[..r] + q[r + 1..]
    ensures x != q[r] && x in q
  {
    var i :| 0 <= i < |q| - 1 && (q[..r] + q[r + 1..])[i] == x;
    assert x == q[if i < r then i else i + 1];
  }

  lemma TakeOrder(q: seq<Msg>, r: nat, x: Msg, y: Msg)
    requires r < |q| && NoDuplicates(q) && Before(q, x, y) && x != q[r] && y != q[r]
    ensures Before(q[..r] + q[r + 1..], x, y)
  {
    var i, j :| 0 <= i < j < |q| && q[i] == x && q[j] == y;
    var s := q[..r] + q[r + 1..];
    var i', j' := if i < r then i else i - 1, if j < r then j else j - 1;
    assert s[i'] == x && s[j'] == y && i' < j';
  }
}
