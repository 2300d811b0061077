/** The blocking receive of prs/msgq.c against any number of senders. One step is one shared access:
    push, filter publish, event exchange, reference count, unblock. Generation `gen` names one round of
    the receive loop: its filter, its event and the block token of that event. */
module Msgq {
  import opened Common

  type Msg = nat

  /** Who holds the reference that was given to the filter. */
  datatype Source = Unset | InSlot | Taken(holder: nat) | Spent

  /** The reference that was given to the timer. */
  datatype Timer = Untimed | NotQueued | Armed | Firing | Dropped

  /** An event object: its references by owner, its counter and how often it was freed. */
  datatype Event = Event(source: Source, mine: bool, timer: Timer, refcnt: int, freed: nat)

  datatype Phase = Pushed | GotId(g: nat) | Locked(g: nat) | Matched(g: nat) | InHand(g: nat) | Signaling(g: nat)

  datatype Sender = Sender(msg: Msg, phase: Phase)

  datatype TaskState = Running | Ready | BlockedOn(g: nat)

  datatype Cause = SendCause | TimeoutCause

  /** Where the receiver is. */
  datatype Pc =
    | Outside         // not receiving
    | Loop            // no message yet, about to create a filter
    | Created         // filter created
    | Bound           // event created, the task is BLOCKED
    | Stored          // event stored in the filter
    | Published       // filter published, about to search again
    | FoundExchange   // found one: about to take the event back
    | FoundSignal     // about to drop its own reference
    | FoundUnblock    // about to unblock itself
    | FoundSched      // a sender was faster: waiting to be scheduled
    | Arming          // found none: about to queue the timer request
    | Waiting         // blocked until signaled
    | Woken           // scheduled again, about to look at the cause
    | FreeExchange    // about to take the event back
    | FreeSignal      // about to drop its own reference
    | FreeUnblock     // about to unblock itself, which has no effect
    | Reset           // about to withdraw the filter
    | Take            // about to remove the message

  datatype State = State(
    queue: seq<Msg>,
    wanted: iset<Msg>,          // the messages that match the filter of this receive
    timed: bool,
    gen: nat,
    filterId: Option<nat>,      // the published filter
    events: map<nat, Event>,
    senders: map<nat, Sender>,
    task: TaskState,
    cause: Cause,
    pc: Pc,
    found: Option<Msg>,
    expected: bool)

  ghost predicate IsOldest(s: State, i: nat) {
    i < |s.queue| && s.queue[i] in s.wanted && forall j :: 0 <= j < i ==> s.queue[j] !in s.wanted
  }

  ghost predicate NoMatch(s: State) {
    forall i :: 0 <= i < |s.queue| ==> s.queue[i] !in s.wanted
  }

  /** What a search of the queue finds: the oldest match, or nothing. */
  ghost predicate SearchFinds(s: State, r: Option<Msg>) {
    match r
    case None => NoMatch(s)
    case Some(m) => exists i: nat :: IsOldest(s, i) && s.queue[i] == m
  }

  // ---------------------------------------------------------------- events

  /** prs_event_unref_internal: the counter drops; at zero the event is freed. */
  function Unref(e: Event): Event {
    e.(refcnt := e.refcnt - 1, freed := if e.refcnt == 1 then e.freed + 1 else e.freed)
  }

  /** prs_task_unblock with the token of generation `g`. */
  function Unblocked(t: TaskState, g: nat, to: TaskState): TaskState {
    if t == BlockedOn(g) then to else t
  }

  // ---------------------------------------------------------------- senders

  ghost predicate Init(s: State) {
    && s.queue == [] && s.gen == 0 && s.filterId == None && s.events == map[] && s.senders == map[]
    && s.task == Running && s.pc == Outside && s.found == None
  }

  ghost predicate SendPush(s: State, c: nat, m: Msg, s': State) {
    && c !in s.senders
    && s' == s.(queue := s.queue + [m], senders := s.senders[c := Sender(m, Pushed)])
  }

  ghost predicate AtPhase(s: State, c: nat, ph: Phase) {
    c in s.senders && s.senders[c].phase == ph
  }

  function WithPhase(s: State, c: nat, ph: Phase): map<nat, Sender>
    requires c in s.senders
  {
    s.senders[c := s.senders[c].(phase := ph)]
  }

  ghost predicate LoadFilterId(s: State, c: nat, s': State) {
    && AtPhase(s, c, Pushed)
    && s' == s.(senders := match s.filterId case None => s.senders - {c} case Some(g) => WithPhase(s, c, GotId(g)))
  }

  /** prs_pd_lock: it cannot fail while the receiver holds the filter. */
  ghost predicate LockFilter(s: State, c: nat, g: nat, ok: bool, s': State) {
    && AtPhase(s, c, GotId(g)) && (s.filterId == Some(g) ==> ok)
    && s' == s.(senders := if ok then WithPhase(s, c, Locked(g)) else s.senders - {c})
  }

  /** Loads the event and runs the filter; what an old filter answers is left open. */
  ghost predicate LoadEvent(s: State, c: nat, g: nat, matches: bool, s': State) {
    && AtPhase(s, c, Locked(g)) && g in s.events && (g == s.gen ==> matches == (s.senders[c].msg in s.wanted))
    && s' == s.(senders := if s.events[g].source == InSlot && matches then WithPhase(s, c, Matched(g)) else s.senders - {c})
  }

  ghost predicate ExchangeEvent(s: State, c: nat, g: nat, s': State) {
    && AtPhase(s, c, Matched(g)) && g in s.events
    && s' == if s.events[g].source == InSlot
             then s.(events := s.events[g := s.events[g].(source := Taken(c))], senders := WithPhase(s, c, InHand(g)))
             else s.(senders := s.senders - {c})
  }

  ghost predicate DropSendRef(s: State, c: nat, g: nat, s': State) {
    && AtPhase(s, c, InHand(g)) && g in s.events
    && s' == s.(events := s.events[g := Unref(s.events[g]).(source := Spent)], senders := WithPhase(s, c, Signaling(g)))
  }

  ghost predicate SignalSend(s: State, c: nat, g: nat, s': State) {
    && AtPhase(s, c, Signaling(g))
    && s' == s.(task := Unblocked(s.task, g, Ready), cause := if s.task == BlockedOn(g) then SendCause else s.cause,
                senders := s.senders - {c})
  }

  // ---------------------------------------------------------------- the timer

  /** Expiry: the timer drops its reference, then unblocks the task. */
  ghost predicate TimerExpires(s: State, g: nat, s': State) {
    && g in s.events && s.events[g].timer == Armed
    && s' == s.(events := s.events[g := Unref(s.events[g]).(timer := Firing)])
  }

  ghost predicate TimerSignals(s: State, g: nat, s': State) {
    && g in s.events && s.events[g].timer == Firing
    && s' == s.(events := s.events[g := s.events[g].(timer := Dropped)], task := Unblocked(s.task, g, Ready),
                cause := if s.task == BlockedOn(g) then TimeoutCause else s.cause)
  }

  /** The request was canceled: the timer only drops its reference. */
  ghost predicate TimerCanceled(s: State, g: nat, s': State) {
    && g in s.events && s.events[g].timer == Armed && (g < s.gen || !(s.pc == Waiting))
    && s' == s.(events := s.events[g := Unref(s.events[g]).(timer := Dropped)])
  }

  // ---------------------------------------------------------------- the receiver

  ghost predicate BeginReceive(s: State, wanted: iset<Msg>, timed: bool, r: Option<Msg>, s': State) {
    && s.pc == Outside
    && SearchFinds(s.(wanted := wanted), r)
    && s' == s.(wanted := wanted, timed := timed, found := r, expected := true, pc := if r.Some? then Take else Loop)
  }

  ghost predicate GiveUp(s: State, s': State) {
    && s.pc == Loop && s.timed
    && s' == s.(pc := Outside)
  }

  ghost predicate CreateFilter(s: State, s': State) {
    && s.pc == Loop
    && s' == s.(gen := s.gen + 1, pc := Created)
  }

  /** prs_event_create: blocks the task and counts one reference more than there are sources. */
  ghost predicate CreateEvent(s: State, s': State) {
    && s.pc == Created
    && s' == s.(events := s.events[s.gen := Event(Unset, true, if s.timed then NotQueued else Untimed,
                                                  if s.timed then 3 else 2, 0)],
                task := BlockedOn(s.gen), pc := Bound)
  }

  ghost predicate StoreEvent(s: State, s': State) {
    && s.pc == Bound && s.gen in s.events
    && s' == s.(events := s.events[s.gen := s.events[s.gen].(source := InSlot)], pc := Stored)
  }

  ghost predicate PublishFilter(s: State, s': State) {
    && s.pc == Stored
    && s' == s.(filterId := Some(s.gen), pc := Published)
  }

  /** The second search. */
  ghost predicate SearchAgain(s: State, r: Option<Msg>, s': State) {
    && s.pc == Published && SearchFinds(s, r)
    && s' == if r.Some? then s.(found := r, pc := FoundExchange)
             else s.(pc := if s.timed then Arming else Waiting)
  }

  /** prs_timer_queue: from here on the timer owns its reference. */
  ghost predicate QueueTimer(s: State, s': State) {
    && s.pc == Arming && s.gen in s.events
    && s' == s.(events := s.events[s.gen := s.events[s.gen].(timer := Armed)], pc := Waiting)
  }

  /** prs_msgq_free_event, its exchange: an event that is still in the filter is unreferenced. */
  ghost predicate TakeBack(s: State, s': State) {
    && (s.pc == FoundExchange || s.pc == FreeExchange) && s.gen in s.events
    && s' == s.(events := if s.events[s.gen].source == InSlot
                          then s.events[s.gen := Unref(s.events[s.gen]).(source := Spent)] else s.events,
                pc := if s.pc == FoundExchange then FoundSignal else FreeSignal)
  }

  /** The signal of prs_msgq_free_event: the receiver drops its own reference. */
  ghost predicate DropOwnRef(s: State, s': State) {
    && (s.pc == FoundSignal || s.pc == FreeSignal) && s.gen in s.events
    && s' == s.(events := s.events[s.gen := Unref(s.events[s.gen]).(mine := false)],
                pc := if s.pc == FoundSignal then FoundUnblock else FreeUnblock)
  }

  /** The signal of prs_msgq_free_event: the task unblocks itself, or learns that it was signaled. */
  ghost predicate UnblockOwn(s: State, s': State) {
    && (s.pc == FoundUnblock || s.pc == FreeUnblock)
    && s' == s.(task := Unblocked(s.task, s.gen, Running),
                pc := if s.pc == FreeUnblock || s.task == BlockedOn(s.gen) then Reset else FoundSched)
  }

  ghost predicate Scheduled(s: State, s': State) {
    && (s.pc == Waiting || s.pc == FoundSched) && s.task == Ready
    && s' == s.(task := Running, pc := if s.pc == Waiting then Woken else Reset)
  }

  /** The third search, only when the task was woken by a send. */
  ghost predicate AfterWake(s: State, r: Option<Msg>, s': State) {
    && s.pc == Woken
    && (s.cause == SendCause ==> SearchFinds(s, r)) && (s.cause == TimeoutCause ==> r == None)
    && s' == s.(found := r, expected := s.cause == SendCause, pc := FreeExchange)
  }

  ghost predicate ResetFilter(s: State, s': State) {
    && s.pc == Reset
    && s' == s.(filterId := None,
                pc := if s.found.Some? then Take else if s.expected then Loop else Outside)
  }

  /** prs_mpsciq_remove of the message that is returned. */
  ghost predicate TakeMessage(s: State, i: nat, s': State) {
    && s.pc == Take && i < |s.queue| && s.found == Some(s.queue[i])
    && s' == s.(queue := s.queue[..i] + s.queue[i + 1..], found := None, pc := Outside)
  }

  // ---------------------------------------------------------------- runs

  datatype Action =
    | PushA(c: nat, m: Msg) | LoadIdA(c: nat) | LockA(c: nat, g: nat, ok: bool) | LoadEventA(c: nat, g: nat, b: bool)
    | ExchangeA(c: nat, g: nat) | DropA(c: nat, g: nat) | SignalA(c: nat, g: nat)
    | ExpireA(g: nat) | TimerSignalA(g: nat) | TimerCancelA(g: nat)
    | BeginA(wanted: iset<Msg>, timed: bool, r: Option<Msg>) | GiveUpA | CreateA | BindA | StoreA | PublishA
    | SearchA(r: Option<Msg>) | ArmA | TakeBackA | DropOwnA | UnblockOwnA | ScheduledA | WakeA(r: Option<Msg>) | ResetA | TakeA(i: nat)

  ghost predicate Step(s: State, a: Action, s': State) {
    match a
    case PushA(c, m) => SendPush(s, c, m, s')
    case LoadIdA(c) => LoadFilterId(s, c, s')
    case LockA(c, g, ok) => LockFilter(s, c, g, ok, s')
    case LoadEventA(c, g, b) => LoadEvent(s, c, g, b, s')
    case ExchangeA(c, g) => ExchangeEvent(s, c, g, s')
    case DropA(c, g) => DropSendRef(s, c, g, s')
    case SignalA(c, g) => SignalSend(s, c, g, s')
    case ExpireA(g) => TimerExpires(s, g, s')
    case TimerSignalA(g) => TimerSignals(s, g, s')
    case TimerCancelA(g) => TimerCanceled(s, g, s')
    case BeginA(wanted, timed, r) => BeginReceive(s, wanted, timed, r, s')
    case GiveUpA => GiveUp(s, s')
    case CreateA => CreateFilter(s, s')
    case BindA => CreateEvent(s, s')
    case StoreA => StoreEvent(s, s')
    case PublishA => PublishFilter(s, s')
    case SearchA(r) => SearchAgain(s, r, s')
    case ArmA => QueueTimer(s, s')
    case TakeBackA => TakeBack(s, s')
    case DropOwnA => DropOwnRef(s, s')
    case UnblockOwnA => UnblockOwn(s, s')
    case ScheduledA => Scheduled(s, s')
    case WakeA(r) => AfterWake(s, r, s')
    case ResetA => ResetFilter(s, s')
    case TakeA(i) => TakeMessage(s, i, s')
  }

  ghost predicate StepAt(states: seq<State>, actions: seq<Action>, i: nat) {
    i < |actions| && i + 1 < |states| && Step(states[i], actions[i], states[i + 1])
  }

  ghost predicate Run(states: seq<State>, actions: seq<Action>) {
    && |states| == |actions| + 1 && Init(states[0])
    && forall i: nat {:trigger StepAt(states, actions, i)} :: i < |actions| ==> StepAt(states, actions, i)
  }
}
