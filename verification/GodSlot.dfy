/** One entry of the object directory of prs/god.c under any interleaving of allocators, lockers and
    unlockers. A step is one load, one compare-and-swap, one store, or the entry or exit of the free
    callback. Clients release only references they hold. */
module GodSlot {
  import opened Common
  import opened Headers

  type Id = nat
  type Header = GodHeader<Id>

  /** Where a call is; `seen` is the header it loaded last. */
  datatype Call =
    | Locking(id: Id, seen: Header)
    | Unlocking(ticket: nat, id: Id, seen: Header)
    | Finalizing(ticket: nat, id: Id, seen: Header)
    | Freeing(id: Id)               // the last reference is gone, about to load the header
    | InCallback(id: Id, seen: Header)
    | Clearing(id: Id, seen: Header)
    | Reserving(id: Id, seen: Header)
    | Filling(ticket: nat, id: Id)  // slot won, about to store the used mark

  /** `tickets` are the references clients hold on the current object, `objects` counts the objects the
      slot has held and `callbacks` how often the free callback was called for each. */
  datatype State = State(header: Header, tickets: map<nat, Id>, calls: map<nat, Call>, objects: nat, callbacks: map<nat, nat>)

  ghost predicate Init(s: State) {
    s.header == GodHeader(0, false, false, false, 0) && s.tickets == map[] && s.calls == map[] && s.objects == 0
    && s.callbacks == map[]
  }

  function Called(callbacks: map<nat, nat>, o: nat): nat {
    if o in callbacks then callbacks[o] else 0
  }

  ghost predicate AtCall(s: State, c: nat, call: Call) {
    c in s.calls && s.calls[c] == call
  }

  /** The failed swap of `call`: it has now seen the current header. A weak swap may fail on equal headers. */
  function Reloaded(s: State, c: nat): State
    requires c in s.calls
    requires !s.calls[c].Freeing? && !s.calls[c].Filling?
  {
    s.(calls := s.calls[c := s.calls[c].(seen := s.header)])
  }

  function Returned(s: State, c: nat): State {
    s.(calls := s.calls - {c})
  }

  // ---------------------------------------------------------------- lock

  ghost predicate LockLoad(s: State, c: nat, id: Id, s': State) {
    c !in s.calls && id != 0 && s' == s.(calls := s.calls[c := Locking(id, s.header)])
  }

  /** The header seen is refused, or the swap fails, or it succeeds and the caller holds a new reference. */
  ghost predicate LockSwap(s: State, c: nat, t: nat, id: Id, seen: Header, s': State) {
    && AtCall(s, c, Locking(id, seen))
    && match GodLock(seen, id)
       case None => s' == Returned(s, c)
       case Some(h) =>
         s' == Reloaded(s, c) || (s.header == seen && t !in s.tickets
           && s' == Returned(s, c).(header := h, tickets := s.tickets[t := id]))
  }

  // ---------------------------------------------------------------- unlock

  /** The call owns a ticket: the client that made it cannot release it once more. */
  ghost predicate Releasing(call: Call) { call.Unlocking? || call.Finalizing? || call.Filling? }

  /** No other call is releasing ticket `t`. */
  ghost predicate Unreleased(s: State, t: nat) {
    forall c :: c in s.calls && Releasing(s.calls[c]) ==> s.calls[c].ticket != t
  }

  ghost predicate UnlockLoad(s: State, c: nat, t: nat, s': State) {
    c !in s.calls && t in s.tickets && Unreleased(s, t)
    && s' == s.(calls := s.calls[c := Unlocking(t, s.tickets[t], s.header)])
  }

  ghost predicate UnlockSwap(s: State, c: nat, t: nat, id: Id, seen: Header, s': State) {
    && AtCall(s, c, Unlocking(t, id, seen))
    && match GodUnlock(seen, id)
       case None => s' == Returned(s, c)
       case Some(h) =>
         s' == Reloaded(s, c) || (s.header == seen
           && s' == s.(header := h, tickets := s.tickets - {t},
                       calls := if h.refcnt == 0 then s.calls[c := Freeing(id)] else s.calls - {c}))
  }

  ghost predicate FinalLoad(s: State, c: nat, t: nat, s': State) {
    c !in s.calls && t in s.tickets && Unreleased(s, t)
    && s' == s.(calls := s.calls[c := Finalizing(t, s.tickets[t], s.header)])
  }

  ghost predicate FinalSwap(s: State, c: nat, t: nat, id: Id, seen: Header, s': State) {
    && AtCall(s, c, Finalizing(t, id, seen))
    && match GodUnlockFinal(seen, id).1
       case None => s' == Returned(s, c)
       case Some(h) =>
         s' == Reloaded(s, c) || (s.header == seen
           && s' == s.(header := h, tickets := s.tickets - {t}, calls := s.calls[c := Freeing(id)]))
  }

  // ---------------------------------------------------------------- free

  ghost predicate CallbackEnter(s: State, c: nat, id: Id, s': State) {
    && AtCall(s, c, Freeing(id))
    && s' == s.(calls := s.calls[c := InCallback(id, s.header)],
                callbacks := s.callbacks[s.objects := Called(s.callbacks, s.objects) + 1])
  }

  ghost predicate CallbackExit(s: State, c: nat, id: Id, seen: Header, s': State) {
    AtCall(s, c, InCallback(id, seen)) && s' == s.(calls := s.calls[c := Clearing(id, seen)])
  }

  ghost predicate ClearSwap(s: State, c: nat, id: Id, seen: Header, s': State) {
    && AtCall(s, c, Clearing(id, seen))
    && (s' == Reloaded(s, c) || (s.header == seen && s' == Returned(s, c).(header := GodCleared(seen))))
  }

  // ---------------------------------------------------------------- allocation

  ghost predicate AllocLoad(s: State, c: nat, id: Id, s': State) {
    c !in s.calls && id != 0 && s' == s.(calls := s.calls[c := Reserving(id, s.header)])
  }

  /** A strong swap; when it fails the scan goes on to the next slot. */
  ghost predicate AllocSwap(s: State, c: nat, t: nat, id: Id, seen: Header, s': State) {
    && AtCall(s, c, Reserving(id, seen))
    && match GodReserve(seen, id)
       case None => s' == Returned(s, c)
       case Some(h) =>
         if s.header != seen then s' == Returned(s, c) else
           && t !in s.tickets
           && s' == s.(header := h, tickets := s.tickets[t := id], calls := s.calls[c := Filling(t, id)],
                       objects := s.objects + 1)
  }

  /** A plain store of the new header with the used mark. */
  ghost predicate AllocStore(s: State, c: nat, t: nat, id: Id, s': State) {
    && AtCall(s, c, Filling(t, id))
    && s' == Returned(s, c).(header := GodHeader(id, true, true, false, 1))
  }

  // ---------------------------------------------------------------- runs

  datatype Action =
    | LockLoadA(c: nat, id: Id) | LockSwapA(c: nat, t: nat, id: Id, seen: Header)
    | UnlockLoadA(c: nat, t: nat) | UnlockSwapA(c: nat, t: nat, id: Id, seen: Header)
    | FinalLoadA(c: nat, t: nat) | FinalSwapA(c: nat, t: nat, id: Id, seen: Header)
    | EnterA(c: nat, id: Id) | ExitA(c: nat, id: Id, seen: Header) | ClearA(c: nat, id: Id, seen: Header)
    | AllocLoadA(c: nat, id: Id) | AllocSwapA(c: nat, t: nat, id: Id, seen: Header) | AllocStoreA(c: nat, t: nat, id: Id)

  ghost predicate Step(s: State, a: Action, s': State) {
    match a
    case LockLoadA(c, id) => LockLoad(s, c, id, s')
    case LockSwapA(c, t, id, seen) => LockSwap(s, c, t, id, seen, s')
    case UnlockLoadA(c, t) => UnlockLoad(s, c, t, s')
    case UnlockSwapA(c, t, id, seen) => UnlockSwap(s, c, t, id, seen, s')
    case FinalLoadA(c, t) => FinalLoad(s, c, t, s')
    case FinalSwapA(c, t, id, seen) => FinalSwap(s, c, t, id, seen, s')
    case EnterA(c, id) => CallbackEnter(s, c, id, s')
    case ExitA(c, id, seen) => CallbackExit(s, c, id, seen, s')
    case ClearA(c, id, seen) => ClearSwap(s, c, id, seen, s')
    case AllocLoadA(c, id) => AllocLoad(s, c, id, s')
    case AllocSwapA(c, t, id, seen) => AllocSwap(s, c, t, id, seen, s')
    case AllocStoreA(c, t, id) => AllocStore(s, c, t, id, s')
  }

  ghost predicate StepAt(states: seq<State>, actions: seq<Action>, i: nat) {
    i < |actions| && i + 1 < |states| && Step(states[i], actions[i], states[i + 1])
  }

  ghost predicate Run(states: seq<State>, actions: seq<Action>) {
    && |states| == |actions| + 1 && Init(states[0])
    && forall i: nat {:trigger StepAt(states, actions, i)} :: i < |actions| ==> StepAt(states, actions, i)
  }
}
