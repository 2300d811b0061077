/** What holds in every run of the receive protocol. */
module MsgqTheorems {
  import opened Common
  import opened Msgq
  import opened MsgqProof
  import opened MsgqSteps

  lemma StepKeepsInv(s: State, a: Action, s': State)
    requires Inv(s) && Step(s, a, s')
    ensures Inv(s')
  {
    match a
    case PushA(c, m) => SendPushKeeps(s, c, m, s');
    case LoadIdA(c) => LoadFilterIdKeeps(s, c, s');
    case LockA(c, g, ok) => LockFilterKeeps(s, c, g, ok, s');
    case LoadEventA(c, g, b) => LoadEventKeeps(s, c, g, b, s');
    case ExchangeA(c, g) => ExchangeEventKeeps(s, c, g, s');
    case DropA(c, g) => DropSendRefKeeps(s, c, g, s');
    case SignalA(c, g) => SignalSendKeeps(s, c, g, s');
    case ExpireA(g) => TimerExpiresKeeps(s, g, s');
    case TimerSignalA(g) => TimerSignalsKeeps(s, g, s');
    case TimerCancelA(g) => TimerCanceledKeeps(s, g, s');
    case BeginA(wanted, timed, r) => BeginReceiveKeeps(s, wanted, timed, r, s');
    case GiveUpA => GiveUpKeeps(s, s');
    case CreateA => CreateFilterKeeps(s, s');
    case BindA => CreateEventKeeps(s, s');
    case StoreA => StoreEventKeeps(s, s');
    case PublishA => PublishFilterKeeps(s, s');
    case SearchA(r) => SearchAgainKeeps(s, r, s');
    case ArmA => QueueTimerKeeps(s, s');
    case TakeBackA => TakeBackKeeps(s, s');
    case DropOwnA => DropOwnRefKeeps(s, s');
    case UnblockOwnA => UnblockOwnKeeps(s, s');
    case ScheduledA => ScheduledKeeps(s, s');
    case WakeA(r) => AfterWakeKeeps(s, r, s');
    case ResetA => ResetFilterKeeps(s, s');
    case TakeA(i) => TakeMessageKeeps(s, i, s');
  }

  lemma InitInv(s: State)
    requires Init(s)
    ensures Inv(s)
  {
  }

  lemma StepAtKeeps(states: seq<State>, actions: seq<Action>, n: nat)
    requires Run(states, actions) && 0 < n < |states| && Inv(states[n - 1])
    ensures Inv(states[n])
  {
    assert StepAt(states, actions, n - 1);
    StepKeepsInv(states[n - 1], actions[n - 1], states[n]);
  }

  lemma {:induction false} RunKeepsInv(states: seq<State>, actions: seq<Action>, n: nat)
    requires Run(states, actions) && n < |states|
    ensures Inv(states[n])
  {
    if n == 0 {
      InitInv(states[n]);
    } else {
      RunKeepsInv(states, actions, n - 1);
      StepAtKeeps(states, actions, n);
    }
  }

  /** A receiver that passed its second search and is still BLOCKED while no sender is inside send has no
      matching message in the queue, and its event is in the published filter for the next sender. */
  lemma NoMessageIsMissed(states: seq<State>, actions: seq<Action>, n: nat)
    requires Run(states, actions) && n < |states|
    ensures var s := states[n];
      (s.pc == Arming || s.pc == Waiting) && s.task.BlockedOn? && s.senders == map[]
      ==> NoMatch(s) && s.filterId == Some(s.gen) && s.gen in s.events && s.events[s.gen].source == InSlot
  {
    RunKeepsInv(states, actions, n);
    var s := states[n];
    if (s.pc == Arming || s.pc == Waiting) && s.task.BlockedOn? && s.senders == map[] {
      assert forall c :: c !in s.senders;
      assert TakenOk(s, s.gen);
      assert forall m :: m in s.queue && m in s.wanted ==> exists c :: Coming(s, c, m);
    }
  }

  /** With senders inside send: the waiting receiver is going to be signaled, or each matching message has
      its own sender still on the way to the event. */
  lemma EveryMatchIsUnderWay(states: seq<State>, actions: seq<Action>, n: nat, m: Msg)
    requires Run(states, actions) && n < |states|
    requires var s := states[n];
      (s.pc == Arming || s.pc == Waiting) && s.task.BlockedOn? && m in s.queue && m in s.wanted
    ensures var s := states[n];
      exists c :: Coming(s, c, m) || AtPhase(s, c, InHand(s.gen)) || AtPhase(s, c, Signaling(s.gen))
  {
    RunKeepsInv(states, actions, n);
    var s := states[n];
    assert TakenOk(s, s.gen);
    if Exposed(s) {
      var c :| Coming(s, c, m);
    } else if Current(s) {
      assert AtPhase(s, s.events[s.gen].source.holder, InHand(s.gen));
    } else {
      var c :| AtPhase(s, c, Signaling(s.gen));
    }
  }

  /** The counter of an event is the number of its references; it is freed at most once, at zero, and
      neither a sender, nor the filter, nor the timer, nor the receiver holds an event that was freed. */
  lemma EventsFreedOnce(states: seq<State>, actions: seq<Action>, n: nat, g: nat)
    requires Run(states, actions) && n < |states| && g in states[n].events
    ensures var s := states[n]; var e := s.events[g];
      && e.refcnt == One(e.source != Spent) + One(e.mine) + One(e.timer == NotQueued || e.timer == Armed)
      && e.freed <= 1 && (e.freed == 1 <==> e.refcnt == 0)
      && (e.freed == 1 ==> (forall c :: !AtPhase(s, c, InHand(g))) && !(g == s.gen && OwnsEvent(s.pc)))
  {
    RunKeepsInv(states, actions, n);
    var s := states[n];
    forall c | AtPhase(s, c, InHand(g)) ensures s.events[g].freed == 0 {
      assert SenderOk(s, c);
    }
  }

  // Events that are never freed.

  /** In step `i` the second search of generation `g`, in a timed receive, finds a message. */
  ghost predicate FindsBeforeTimer(states: seq<State>, actions: seq<Action>, i: nat, g: nat)
    requires i < |actions| && i < |states|
  {
    states[i].gen == g && states[i].timed && actions[i].SearchA? && actions[i].r.Some?
  }

  /** Generation `g` is past its second search, and past queueing its timer. */
  ghost predicate Searched(s: State, g: nat) {
    g < s.gen || !(s.pc in {Bound, Stored, Published, Arming})
  }

  /** The timer's reference exists and the timer will never get it. */
  ghost predicate Leaks(s: State, g: nat) {
    g in s.events && s.events[g].timer == NotQueued && Searched(s, g)
  }

  ghost predicate ReceiverStep(a: Action) {
    a.BeginA? || a.GiveUpA? || a.CreateA? || a.ScheduledA? || a.WakeA? || a.ResetA? || a.TakeA?
  }

  ghost predicate EventStep(a: Action) {
    a.BindA? || a.StoreA? || a.PublishA? || a.ArmA? || a.TakeBackA? || a.DropOwnA? || a.UnblockOwnA?
  }

  lemma LeaksReceiver(s: State, a: Action, s': State, g: nat)
    requires Shape(s) && ReceiverStep(a) && Step(s, a, s')
    ensures Leaks(s', g) <==> Leaks(s, g)
  {
  }

  lemma LeaksEvent(s: State, a: Action, s': State, g: nat)
    requires Shape(s) && EventStep(a) && Step(s, a, s')
    ensures Leaks(s', g) <==> Leaks(s, g)
  {
  }

  lemma LeaksOthers(s: State, a: Action, s': State, g: nat)
    requires !ReceiverStep(a) && !EventStep(a) && !a.SearchA? && Step(s, a, s')
    ensures Leaks(s', g) <==> Leaks(s, g)
  {
  }

  lemma LeaksStep(s: State, a: Action, s': State, g: nat)
    requires Shape(s) && EventsOk(s) && Step(s, a, s')
    ensures Leaks(s', g) <==> Leaks(s, g) || (s.gen == g && s.timed && a.SearchA? && a.r.Some?)
  {
    if a.SearchA? {
      LeaksSearch(s, a, s', g);
    } else if ReceiverStep(a) {
      LeaksReceiver(s, a, s', g);
    } else if EventStep(a) {
      LeaksEvent(s, a, s', g);
    } else {
      LeaksOthers(s, a, s', g);
    }
  }

  lemma LeaksSearch(s: State, a: Action, s': State, g: nat)
    requires Shape(s) && EventsOk(s) && a.SearchA? && SearchAgain(s, a.r, s')
    ensures Leaks(s', g) <==> Leaks(s, g) || (s.gen == g && s.timed && a.r.Some?)
  {
    assert s.gen in s.events && Counted(s.events[s.gen], true, s.timed, s.pc);
  }

  lemma LeaksAt(states: seq<State>, actions: seq<Action>, n: nat, g: nat)
    requires Run(states, actions) && 0 < n < |states|
    ensures Leaks(states[n], g) <==> Leaks(states[n - 1], g) || FindsBeforeTimer(states, actions, n - 1, g)
  {
    RunKeepsInv(states, actions, n - 1);
    assert StepAt(states, actions, n - 1);
    LeaksStep(states[n - 1], actions[n - 1], states[n], g);
  }

  lemma {:induction false} LeaksIs(states: seq<State>, actions: seq<Action>, n: nat, g: nat)
    requires Run(states, actions) && n < |states|
    ensures Leaks(states[n], g) <==> exists i: nat :: i < n && FindsBeforeTimer(states, actions, i, g)
  {
    if n > 0 {
      LeaksIs(states, actions, n - 1, g);
      LeaksAt(states, actions, n, g);
    }
  }

  /** The receive is past event `g`, and neither a sender nor the timer has it in hand. */
  ghost predicate PastEvent(s: State, g: nat) {
    && g in s.events && (g < s.gen || s.pc in {Outside, Loop, Take})
    && s.events[g].timer != Armed && forall c :: !AtPhase(s, c, InHand(g))
  }

  /** An event that everybody is past was freed, unless its receive was timed and its second search found a
      message: then its timer request was never queued and one reference is never dropped. */
  lemma LeakedExactly(states: seq<State>, actions: seq<Action>, n: nat, g: nat)
    requires Run(states, actions) && n < |states| && PastEvent(states[n], g)
    ensures states[n].events[g].freed == 0 <==> exists i: nat :: i < n && FindsBeforeTimer(states, actions, i, g)
  {
    RunKeepsInv(states, actions, n);
    assert TakenOk(states[n], g);
    LeaksIs(states, actions, n, g);
  }

  lemma Extend(states: seq<State>, actions: seq<Action>, a: Action, s': State)
    requires Run(states, actions) && Step(states[|actions|], a, s')
    ensures Run(states + [s'], actions + [a])
  {
    var more, acts := states + [s'], actions + [a];
    forall i: nat | i < |acts| ensures StepAt(more, acts, i) {
      assert i < |actions| ==> StepAt(states, actions, i);
    }
  }

  lemma Then(states: seq<State>, actions: seq<Action>, a: Action, s': State) returns (more: seq<State>, acts: seq<Action>)
    requires Run(states, actions) && Step(states[|actions|], a, s')
    ensures Run(more, acts) && more[|acts|] == s'
  {
    Extend(states, actions, a, s');
    more, acts := states + [s'], actions + [a];
  }

  /** The state of the run below when its receiver is at `pc`. */
  function LeakState(queue: seq<Msg>, filterId: Option<nat>, source: Source, mine: bool, refs: int, task: TaskState, pc: Pc,
                     found: Option<Msg>): State {
    State(queue, iset{7}, true, 1, filterId, map[1 := Event(source, mine, NotQueued, refs, 0)], map[], task, SendCause, pc,
          found, true)
  }

  lemma LeakBinds() returns (states: seq<State>, actions: seq<Action>)
    ensures Run(states, actions)
    ensures states[|actions|] == LeakState([], None, Unset, true, 3, BlockedOn(1), Bound, None)
  {
    var s0 := State([], iset{7}, true, 0, None, map[], map[], Running, SendCause, Outside, None, true);
    states, actions := Then([s0], [], BeginA(s0.wanted, true, None), s0.(pc := Loop));
    states, actions := Then(states, actions, CreateA, s0.(gen := 1, pc := Created));
    states, actions := Then(states, actions, BindA, LeakState([], None, Unset, true, 3, BlockedOn(1), Bound, None));
  }

  /** A message is pushed while the event is stored and the filter is not published yet. */
  lemma LeakSends() returns (states: seq<State>, actions: seq<Action>)
    ensures Run(states, actions)
    ensures states[|actions|] == LeakState([7], None, InSlot, true, 3, BlockedOn(1), Stored, None)
  {
    states, actions := LeakBinds();
    var s4 := LeakState([], None, InSlot, true, 3, BlockedOn(1), Stored, None);
    states, actions := Then(states, actions, StoreA, s4);
    var s5 := s4.(queue := [7], senders := map[0 := Sender(7, Pushed)]);
    states, actions := Then(states, actions, PushA(0, 7), s5);
    var s6 := LeakState([7], None, InSlot, true, 3, BlockedOn(1), Stored, None);
    assert s5.senders - {0} == map[];
    states, actions := Then(states, actions, LoadIdA(0), s6);
  }

  lemma LeakFinds() returns (states: seq<State>, actions: seq<Action>)
    ensures Run(states, actions)
    ensures states[|actions|] == LeakState([7], Some(1), InSlot, true, 3, BlockedOn(1), FoundExchange, Some(7))
  {
    states, actions := LeakSends();
    var s7 := LeakState([7], Some(1), InSlot, true, 3, BlockedOn(1), Published, None);
    states, actions := Then(states, actions, PublishA, s7);
    assert IsOldest(s7, 0) && s7.queue[0] == 7;
    var s8 := LeakState([7], Some(1), InSlot, true, 3, BlockedOn(1), FoundExchange, Some(7));
    states, actions := Then(states, actions, SearchA(Some(7)), s8);
  }

  lemma LeakDrops() returns (states: seq<State>, actions: seq<Action>)
    ensures Run(states, actions)
    ensures states[|actions|] == LeakState([7], Some(1), Spent, false, 1, BlockedOn(1), FoundUnblock, Some(7))
  {
    states, actions := LeakFinds();
    var s9 := LeakState([7], Some(1), Spent, true, 2, BlockedOn(1), FoundSignal, Some(7));
    states, actions := Then(states, actions, TakeBackA, s9);
    var s10 := LeakState([7], Some(1), Spent, false, 1, BlockedOn(1), FoundUnblock, Some(7));
    states, actions := Then(states, actions, DropOwnA, s10);
  }

  lemma LeakResets() returns (states: seq<State>, actions: seq<Action>)
    ensures Run(states, actions)
    ensures states[|actions|] == LeakState([7], None, Spent, false, 1, Running, Take, Some(7))
  {
    states, actions := LeakDrops();
    var s11 := LeakState([7], Some(1), Spent, false, 1, Running, Reset, Some(7));
    states, actions := Then(states, actions, UnblockOwnA, s11);
    var s12 := LeakState([7], None, Spent, false, 1, Running, Take, Some(7));
    states, actions := Then(states, actions, ResetA, s12);
  }

  /** A timed receive that finds a message that was sent while it published its filter: all is over, and its
      event is never freed. */
  lemma LeakingRun() returns (states: seq<State>, actions: seq<Action>)
    ensures Run(states, actions)
    ensures var s := states[|actions|];
      s.pc == Outside && PastEvent(s, 1) && s.events[1].freed == 0 && s.events[1].refcnt == 1
  {
    states, actions := LeakResets();
    states, actions := Then(states, actions, TakeA(0), LeakState([], None, Spent, false, 1, Running, Outside, None));
  }

  /** A message that was found is still queued when the receiver removes it, and it is a wanted one. */
  lemma FoundMessageIsTaken(states: seq<State>, actions: seq<Action>, n: nat)
    requires Run(states, actions) && n < |states| && states[n].pc == Take
    ensures states[n].found.Some? && states[n].found.value in states[n].wanted
    ensures exists i: nat, s' :: TakeMessage(states[n], i, s')
  {
    RunKeepsInv(states, actions, n);
    var s := states[n];
    var i: nat :| i < |s.queue| && s.queue[i] == s.found.value;
    assert TakeMessage(s, i, s.(queue := s.queue[..i] + s.queue[i + 1..], found := None, pc := Outside));
  }

  // One signal wins.

  lemma EventsGrow(s: State, a: Action, s': State, g: nat)
    requires Step(s, a, s') && g in s.events
    ensures g in s'.events
  {
    match a
    case ExchangeA(_, _) =>
    case DropA(_, _) =>
    case ExpireA(_) =>
    case TimerSignalA(_) =>
    case TimerCancelA(_) =>
    case ArmA =>
    case TakeBackA =>
    case DropOwnA =>
    case _ =>
  }

  lemma NotBlockedAgain(s: State, a: Action, s': State, g: nat)
    requires Shape(s) && Step(s, a, s') && g in s.events && s.task != BlockedOn(g)
    ensures s'.task != BlockedOn(g)
  {
    if a.BindA? {
      assert s.gen !in s.events;
    } else {
      if s'.task == BlockedOn(g) { OnlyBindBlocks(s, a, s', g); }
    }
  }

  lemma OnlyBindBlocks(s: State, a: Action, s': State, g: nat)
    requires !a.BindA? && Step(s, a, s') && s'.task == BlockedOn(g)
    ensures s.task == BlockedOn(g)
  {
  }

  lemma {:induction false} EventsStay(states: seq<State>, actions: seq<Action>, i: nat, j: nat, g: nat)
    requires Run(states, actions) && i <= j < |states| && g in states[i].events
    ensures g in states[j].events
  {
    if i < j {
      EventsStay(states, actions, i, j - 1, g);
      assert StepAt(states, actions, j - 1);
      EventsGrow(states[j - 1], actions[j - 1], states[j], g);
    }
  }

  lemma BlockedHasEvent(states: seq<State>, actions: seq<Action>, i: nat, g: nat)
    requires Run(states, actions) && i < |states| && states[i].task == BlockedOn(g)
    ensures g in states[i].events
  {
    RunKeepsInv(states, actions, i);
  }

  lemma StaysUnblocked(states: seq<State>, actions: seq<Action>, j: nat, g: nat)
    requires Run(states, actions) && 0 < j < |states|
    requires g in states[j - 1].events && states[j - 1].task != BlockedOn(g)
    ensures states[j].task != BlockedOn(g)
  {
    RunKeepsInv(states, actions, j - 1);
    assert StepAt(states, actions, j - 1);
    NotBlockedAgain(states[j - 1], actions[j - 1], states[j], g);
  }

  /** Whoever unblocks the task ends that blocking for good: its token never blocks the task again. */
  lemma {:induction false} UnblockedOnce(states: seq<State>, actions: seq<Action>, i: nat, k: nat, j: nat, g: nat)
    requires Run(states, actions) && i <= k <= j < |states|
    requires states[i].task == BlockedOn(g) && states[k].task != BlockedOn(g)
    ensures states[j].task != BlockedOn(g)
  {
    if k < j {
      UnblockedOnce(states, actions, i, k, j - 1, g);
      BlockedHasEvent(states, actions, i, g);
      EventsStay(states, actions, i, j - 1, g);
      StaysUnblocked(states, actions, j, g);
    }
  }
}
