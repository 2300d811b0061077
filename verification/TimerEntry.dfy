/** A pool slot that holds timer entries, prs/timer.c over prs/lib/ds/pool.c. Allocators compete for the
    slot, the owner of an entry cancels it at any moment, and the tick expires it or files it again. A step
    is one load, one compare-and-swap, or one drop of the event reference. */
module TimerEntry {
  import opened Common
  import opened Headers

  type Id = nat
  type Header = PoolHeader<Id>

  datatype Owner =
    | NoOwner
    | Filling               // slot allocated, the event is being stored
    | LockedOnce            // first lock taken, about to lock for the tick
    | Waiting               // entry pushed, the owner waits
    | Canceling(seen: Header)
    | Canceled

  datatype Tick =
    | Away                  // not looking at this entry
    | Signaled              // expired and signaled, about to load the header
    | Unlocking(seen: Header)
    | Trying(seen: Header)  // about to release the entry if it is the last one to hold it
    | Destructing           // last reference gone, about to run the destructor
    | Clearing              // destructor done, about to clear the slot

  /** `filed` says that the entry is in a list of the tick. `entries` counts the entries the slot has held;
      `drops` counts, for each, how often its event reference was dropped and `destructed` how often the
      destructor ran. */
  datatype State = State(
    header: Header,
    owner: Owner,
    tick: Tick,
    filed: bool,
    allocators: map<nat, (Id, Header)>,
    entries: nat,
    drops: map<nat, nat>,
    destructed: map<nat, nat>)

  ghost predicate Init(s: State) {
    s == State(PoolHeader(0, false, 0), NoOwner, Away, false, map[], 0, map[], map[])
  }

  function At(m: map<nat, nat>, k: nat): nat {
    if k in m then m[k] else 0
  }

  function Bump(m: map<nat, nat>, k: nat): map<nat, nat> {
    m[k := At(m, k) + 1]
  }

  // ---------------------------------------------------------------- allocation, prs_timer_queue

  ghost predicate AllocLoad(s: State, c: nat, id: Id, s': State) {
    c !in s.allocators && s' == s.(allocators := s.allocators[c := (id, s.header)])
  }

  ghost predicate AllocSwap(s: State, c: nat, s': State) {
    && c in s.allocators
    && var (id, seen) := s.allocators[c];
       match PoolAlloc(seen, id, id)
       case None => s' == s.(allocators := s.allocators - {c})
       case Some(h) =>
         if s.header != seen then s' == s.(allocators := s.allocators - {c})
         else s' == s.(allocators := s.allocators - {c}, header := h, owner := Filling, entries := s.entries + 1)
  }

  ghost predicate LockFirst(s: State, s': State) {
    && s.owner == Filling
    && match PoolLockFirst(s.header, s.header.id)
       case None => s' == s
       case Some(h) => s' == s.(header := h, owner := LockedOnce)
  }

  /** The second lock, for the tick, and the push. */
  ghost predicate LockAndPush(s: State, s': State) {
    && s.owner == LockedOnce
    && match PoolLock(s.header, s.header.id)
       case None => s' == s
       case Some(h) => s' == s.(header := h, owner := Waiting, filed := true)
  }

  // ---------------------------------------------------------------- prs_timer_cancel

  ghost predicate CancelLoad(s: State, s': State) {
    s.owner == Waiting && s' == s.(owner := Canceling(s.header))
  }

  ghost predicate CancelSwap(s: State, s': State) {
    && s.owner.Canceling?
    && match PoolUnlock(s.owner.seen, s.owner.seen.id, false, false)
       case None => s' == s.(owner := Canceled)
       case Some(h) =>
         s' == s.(owner := Canceling(s.header)) || (s.header == s.owner.seen && s' == s.(header := h, owner := Canceled))
  }

  // ---------------------------------------------------------------- prs_timer_queue_internal

  /** The deadline is reached: the event is signaled, which drops its reference. */
  ghost predicate Expire(s: State, s': State) {
    && s.tick == Away && s.filed
    && s' == s.(filed := false, tick := Signaled, drops := Bump(s.drops, s.entries))
  }

  ghost predicate UnlockLoad(s: State, s': State) {
    s.tick == Signaled && s' == s.(tick := Unlocking(s.header))
  }

  ghost predicate UnlockSwap(s: State, s': State) {
    && s.tick.Unlocking?
    && match PoolUnlock(s.tick.seen, s.tick.seen.id, false, false)
       case None => s' == s.(tick := Away)
       case Some(h) =>
         s' == s.(tick := Unlocking(s.header)) || (s.header == s.tick.seen && s' == s.(header := h, tick := Away))
  }

  /** The deadline is not reached: prs_pool_try_unlock_final_dest. */
  ghost predicate TryLoad(s: State, s': State) {
    s.tick == Away && s.filed && s' == s.(tick := Trying(s.header))
  }

  ghost predicate TrySwap(s: State, s': State) {
    && s.tick.Trying?
    && match PoolUnlock(s.tick.seen, s.tick.seen.id, true, true)
       case None => s' == s.(tick := Away)
       case Some(h) =>
         s' == s.(tick := Trying(s.header))
         || (s.header == s.tick.seen && s' == s.(header := h, filed := false, tick := Destructing))
  }

  /** prs_timer_event_destructor drops the event reference. */
  ghost predicate Destruct(s: State, s': State) {
    && s.tick == Destructing
    && s' == s.(tick := Clearing, drops := Bump(s.drops, s.entries), destructed := Bump(s.destructed, s.entries))
  }

  ghost predicate Clear(s: State, s': State) {
    s.tick == Clearing && s' == s.(header := PoolCleared(s.header), tick := Away)
  }

  // ---------------------------------------------------------------- runs

  datatype Action =
    | AllocLoadA(c: nat, id: Id) | AllocSwapA(c: nat) | LockFirstA | LockAndPushA | CancelLoadA | CancelSwapA | ExpireA
    | UnlockLoadA | UnlockSwapA | TryLoadA | TrySwapA | DestructA | ClearA

  ghost predicate Step(s: State, a: Action, s': State) {
    match a
    case AllocLoadA(c, id) => AllocLoad(s, c, id, s')
    case AllocSwapA(c) => AllocSwap(s, c, s')
    case LockFirstA => LockFirst(s, s')
    case LockAndPushA => LockAndPush(s, s')
    case CancelLoadA => CancelLoad(s, s')
    case CancelSwapA => CancelSwap(s, s')
    case ExpireA => Expire(s, s')
    case UnlockLoadA => UnlockLoad(s, s')
    case UnlockSwapA => UnlockSwap(s, s')
    case TryLoadA => TryLoad(s, s')
    case TrySwapA => TrySwap(s, s')
    case DestructA => Destruct(s, s')
    case ClearA => Clear(s, s')
  }

  ghost predicate StepAt(states: seq<State>, actions: seq<Action>, i: nat) {
    i < |actions| && i + 1 < |states| && Step(states[i], actions[i], states[i + 1])
  }

  ghost predicate Run(states: seq<State>, actions: seq<Action>) {
    && |states| == |actions| + 1 && Init(states[0])
    && forall i: nat {:trigger StepAt(states, actions, i)} :: i < |actions| ==> StepAt(states, actions, i)
  }

  // ---------------------------------------------------------------- the invariant

  ghost predicate OwnerHolds(s: State) {
    s.owner == LockedOnce || s.owner == Waiting || s.owner.Canceling?
  }

  ghost predicate TickHolds(s: State) {
    s.filed || s.tick == Signaled || s.tick.Unlocking?
  }

  ghost predicate HeaderOk(s: State) {
    && s.header.refcnt == One(OwnerHolds(s)) + One(TickHolds(s))
    && (s.header.alloc <==> s.owner == Filling || OwnerHolds(s) || TickHolds(s) || s.tick == Destructing || s.tick == Clearing)
    && (s.header.alloc ==> s.entries > 0)
    && (s.owner == NoOwner <==> s.entries == 0)
    && (s.owner == Filling || s.owner == LockedOnce ==> !s.filed && s.tick == Away)
    && (s.filed ==> s.tick == Away || s.tick.Trying?)
    && (s.tick.Trying? ==> s.filed)
    && (s.tick == Destructing || s.tick == Clearing ==> s.owner == Canceled)
    && (s.owner.Canceling? ==> SeenOk(s, s.owner.seen))
    && (s.tick.Unlocking? ==> SeenOk(s, s.tick.seen))
    && (s.tick.Trying? ==> SeenOk(s, s.tick.seen))
  }

  /** A header loaded by somebody who holds a reference all along. */
  ghost predicate SeenOk(s: State, seen: Header) {
    seen.alloc && seen.refcnt >= 1 && seen.id == s.header.id
  }

  /** The reference of the current entry is dropped exactly when the tick signaled it or destructed it. */
  ghost predicate DropsOk(s: State) {
    && (forall k :: 0 < k < s.entries ==> At(s.drops, k) == 1)
    && (forall k :: s.entries < k ==> At(s.drops, k) == 0)
    && At(s.drops, s.entries) == One(s.owner != NoOwner && s.owner != Filling && s.owner != LockedOnce
                                     && !s.filed && s.tick != Destructing)
  }

  ghost predicate DestructedOk(s: State) {
    && (forall k :: At(s.destructed, k) <= 1)
    && (forall k :: s.entries < k ==> At(s.destructed, k) == 0)
    && (s.header.alloc && s.tick != Clearing ==> At(s.destructed, s.entries) == 0)
    && (s.tick == Clearing ==> At(s.destructed, s.entries) == 1)
  }

  ghost predicate Inv(s: State) {
    HeaderOk(s) && DropsOk(s) && DestructedOk(s)
  }

  lemma BumpAt(m: map<nat, nat>, k: nat)
    ensures At(Bump(m, k), k) == At(m, k) + 1
    ensures forall j :: j != k ==> At(Bump(m, k), j) == At(m, j)
  {
  }

  lemma HeaderKept(s: State, a: Action, s': State)
    requires HeaderOk(s) && Step(s, a, s')
    ensures HeaderOk(s')
  {
  }

  lemma DropsKept(s: State, a: Action, s': State)
    requires HeaderOk(s) && DropsOk(s) && Step(s, a, s')
    ensures DropsOk(s')
  {
    BumpAt(s.drops, s.entries);
  }

  lemma DestructedKept(s: State, a: Action, s': State)
    requires HeaderOk(s) && DestructedOk(s) && Step(s, a, s')
    ensures DestructedOk(s')
  {
    BumpAt(s.destructed, s.entries);
  }

  lemma StepKeepsInv(s: State, a: Action, s': State)
    requires Inv(s) && Step(s, a, s')
    ensures Inv(s')
  {
    HeaderKept(s, a, s');
    DropsKept(s, a, s');
    DestructedKept(s, a, s');
  }

  lemma {:induction false} RunKeepsInv(states: seq<State>, actions: seq<Action>, n: nat)
    requires Run(states, actions) && n < |states|
    ensures Inv(states[n])
  {
    if n > 0 {
      RunKeepsInv(states, actions, n - 1);
      assert StepAt(states, actions, n - 1);
      StepKeepsInv(states[n - 1], actions[n - 1], states[n]);
    }
  }

  // ---------------------------------------------------------------- what holds in every run

  /** Each entry drops its event reference at most once, and exactly once by the time its slot is free or
      held by a later entry. */
  lemma EventDroppedOnce(states: seq<State>, actions: seq<Action>, n: nat, k: nat)
    requires Run(states, actions) && n < |states| && k > 0
    ensures var s := states[n];
      && At(s.drops, k) <= 1
      && (k < s.entries || (k == s.entries && !s.header.alloc) ==> At(s.drops, k) == 1)
  {
    RunKeepsInv(states, actions, n);
  }

  /** The event is only touched while its reference is not dropped: a signal or a destructor that is about
      to run belongs to an entry whose reference is still held. */
  lemma EventUsedWhileHeld(states: seq<State>, actions: seq<Action>, n: nat)
    requires Run(states, actions) && n < |states|
    ensures states[n].filed || states[n].tick == Destructing ==> At(states[n].drops, states[n].entries) == 0
  {
    RunKeepsInv(states, actions, n);
  }

  /** The destructor runs at most once for each entry, after the last unlock and before the slot is cleared,
      and the slot cannot be allocated again before it is done. */
  lemma DestructorOnce(states: seq<State>, actions: seq<Action>, n: nat, k: nat)
    requires Run(states, actions) && n < |states|
    ensures At(states[n].destructed, k) <= 1
    ensures states[n].tick == Destructing || states[n].tick == Clearing
            ==> states[n].header.refcnt == 0 && states[n].header.alloc
    ensures states[n].tick == Destructing ==> At(states[n].destructed, states[n].entries) == 0
    ensures states[n].tick == Clearing ==> At(states[n].destructed, states[n].entries) == 1
    ensures n + 1 < |states| && states[n + 1].entries != states[n].entries
            ==> states[n].tick == Away && states[n].header.refcnt == 0 && !states[n].header.alloc
  {
    RunKeepsInv(states, actions, n);
    if n + 1 < |states| {
      assert StepAt(states, actions, n);
    }
  }

  /** An entry that its owner canceled and the tick has let go of leaves a free slot and no reference. */
  lemma SlotIsReturned(states: seq<State>, actions: seq<Action>, n: nat)
    requires Run(states, actions) && n < |states|
    requires states[n].owner == Canceled && !states[n].filed && states[n].tick == Away
    ensures !states[n].header.alloc && states[n].header.refcnt == 0 && At(states[n].drops, states[n].entries) == 1
  {
    RunKeepsInv(states, actions, n);
  }

  /** A canceled entry that the tick tries to release is not filed again: a swap on the header it has seen
      succeeds, and it cannot have seen anything else for good. */
  lemma CanceledIsReleased(states: seq<State>, actions: seq<Action>, n: nat)
    requires Run(states, actions) && n < |actions| && actions[n] == TrySwapA && states[n].owner == Canceled
    requires states[n].tick.Trying? && states[n].tick.seen == states[n].header
    ensures states[n + 1].tick == Trying(states[n].header) || (states[n + 1].tick == Destructing && !states[n + 1].filed)
  {
    RunKeepsInv(states, actions, n);
    assert StepAt(states, actions, n);
  }
}
