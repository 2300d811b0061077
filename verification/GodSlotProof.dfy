/** References, the free callback and reuse of one directory entry, in every run. */
module GodSlotProof {
  import opened Common
  import opened Headers
  import opened GodSlot

  // ---------------------------------------------------------------- the invariant

  ghost predicate IsFree(h: Header) { !h.reserved && !h.used && !h.deleted && h.refcnt == 0 }
  ghost predicate IsReserved(h: Header) { h.reserved && !h.used && !h.deleted && h.refcnt == 1 }
  ghost predicate IsLive(h: Header) { h.reserved && h.used && !h.deleted && h.refcnt >= 1 }
  ghost predicate IsDying(h: Header) { h.reserved && h.used && h.deleted && h.refcnt == 0 }

  /** The call is about to free the object, calls its callback, or clears the slot. */
  ghost predicate Ending(call: Call) { call.Freeing? || call.InCallback? || call.Clearing? }

  /** What a call knows of the entry; `called` counts the callbacks of the current object. */
  ghost predicate CallOk(h: Header, tickets: map<nat, Id>, called: nat, call: Call) {
    && (Releasing(call) ==> call.ticket in tickets && tickets[call.ticket] == call.id)
    && (call.Filling? ==> IsReserved(h) && tickets.Keys == {call.ticket})
    && (call.Unlocking? || call.Finalizing?
        ==> IsLive(h) && call.seen.id == call.id && call.seen.used && call.seen.refcnt >= 1)
    && (Ending(call) ==> IsDying(h))
    && (call.InCallback? || call.Clearing? ==> call.seen == h && called == 1)
    && (call.Freeing? ==> called == 0)
  }

  ghost predicate Fits(s: State, call: Call) {
    CallOk(s.header, s.tickets, Called(s.callbacks, s.objects), call)
  }

  ghost predicate HeaderOk(s: State) {
    && (IsFree(s.header) || IsReserved(s.header) || IsLive(s.header) || IsDying(s.header))
    && s.header.refcnt == |s.tickets| <= GOD_MAX_REFCNT
    && (forall t :: t in s.tickets ==> s.tickets[t] == s.header.id)
  }

  ghost predicate CallsOk(s: State) {
    && (forall c :: c in s.calls ==> Fits(s, s.calls[c]))
    && (forall c, d :: c in s.calls && d in s.calls && c != d && Releasing(s.calls[c]) && Releasing(s.calls[d])
          ==> s.calls[c].ticket != s.calls[d].ticket)
    && (forall c, d :: c in s.calls && d in s.calls && Ending(s.calls[c]) && Ending(s.calls[d]) ==> c == d)
  }

  ghost predicate CallbacksOk(s: State) {
    && (forall o :: Called(s.callbacks, o) <= 1)
    && (forall o :: 0 < o < s.objects ==> Called(s.callbacks, o) == 1)
    && (forall o :: s.objects < o ==> Called(s.callbacks, o) == 0)
    && (IsReserved(s.header) || IsLive(s.header) ==> Called(s.callbacks, s.objects) == 0)
    && (IsFree(s.header) && s.objects > 0 ==> Called(s.callbacks, s.objects) == 1)
  }

  ghost predicate Filler(s: State, c: nat) { c in s.calls && s.calls[c].Filling? }
  ghost predicate Ender(s: State, c: nat) { c in s.calls && Ending(s.calls[c]) }

  ghost predicate OwnersOk(s: State) {
    && (IsReserved(s.header) ==> exists c :: Filler(s, c))
    && (IsDying(s.header) ==> exists c :: Ender(s, c))
  }

  ghost predicate Inv(s: State) {
    HeaderOk(s) && CallsOk(s) && CallbacksOk(s) && OwnersOk(s)
  }

  lemma Two(tickets: map<nat, Id>, t: nat, u: nat)
    requires t in tickets && u in tickets && t != u
    ensures |tickets| >= 2
  {
    assert {t, u} <= tickets.Keys;
    SubsetSize({t, u}, tickets.Keys);
  }

  lemma OwnersKept(s: State, s': State, c: nat)
    requires OwnersOk(s)
    requires forall d :: d != c ==> (Filler(s, d) ==> Filler(s', d)) && (Ender(s, d) ==> Ender(s', d))
    requires IsReserved(s'.header) ==> Filler(s', c) || (IsReserved(s.header) && !Filler(s, c))
    requires IsDying(s'.header) ==> Ender(s', c) || (IsDying(s.header) && !Ender(s, c))
    ensures OwnersOk(s')
  {
    if IsReserved(s'.header) && !Filler(s', c) {
      var d :| Filler(s, d);
      assert Filler(s', d);
    }
    if IsDying(s'.header) && !Ender(s', c) {
      var d :| Ender(s, d);
      assert Ender(s', d);
    }
  }

  /** One call moved, arrived or left, and what the others know still holds. */
  lemma CallsKept(s: State, c: nat, s': State)
    requires CallsOk(s)
    requires forall d :: d != c ==> (d in s'.calls <==> d in s.calls) && (d in s.calls ==> s'.calls[d] == s.calls[d])
    requires forall d :: d in s.calls && d != c && Fits(s, s.calls[d]) ==> Fits(s', s.calls[d])
    requires c in s'.calls ==> Fits(s', s'.calls[c])
    requires c in s'.calls && Releasing(s'.calls[c]) ==>
      (c in s.calls && Releasing(s.calls[c]) && s.calls[c].ticket == s'.calls[c].ticket) || Unreleased(s, s'.calls[c].ticket)
    requires c in s'.calls && Ending(s'.calls[c]) ==>
      (c in s.calls && Ending(s.calls[c])) || forall d :: d in s.calls ==> !Ending(s.calls[d])
    ensures CallsOk(s')
  {
    forall d | d in s'.calls ensures Fits(s', s'.calls[d]) {
      assert d != c ==> Fits(s, s.calls[d]);
    }
  }

  /** While the entry is only reserved its one reference belongs to the allocator that is filling it. */
  lemma FillerOwnsTicket(s: State, t: nat)
    requires Inv(s)
    ensures IsReserved(s.header) && t in s.tickets ==> !Unreleased(s, t)
  {
    if IsReserved(s.header) && t in s.tickets {
      var d :| Filler(s, d);
      assert s.calls[d].ticket == t;
    }
  }

  // ---------------------------------------------------------------- each step keeps it

  lemma LockLoadKeeps(s: State, c: nat, id: Id, s': State)
    requires Inv(s) && LockLoad(s, c, id, s')
    ensures Inv(s')
  {
    CallsKept(s, c, s');
    OwnersKept(s, s', c);
  }

  lemma LockSwapCalls(s: State, c: nat, t: nat, id: Id, seen: Header, s': State)
    requires HeaderOk(s) && CallsOk(s) && LockSwap(s, c, t, id, seen, s')
    ensures CallsOk(s')
  {
    CallsKept(s, c, s');
  }

  lemma LockSwapHeader(s: State, c: nat, t: nat, id: Id, seen: Header, s': State)
    requires HeaderOk(s) && CallbacksOk(s) && LockSwap(s, c, t, id, seen, s')
    ensures HeaderOk(s') && CallbacksOk(s')
  {
  }

  lemma LockSwapOwners(s: State, c: nat, t: nat, id: Id, seen: Header, s': State)
    requires HeaderOk(s) && OwnersOk(s) && LockSwap(s, c, t, id, seen, s')
    ensures OwnersOk(s')
  {
    OwnersKept(s, s', c);
  }

  lemma LockSwapKeeps(s: State, c: nat, t: nat, id: Id, seen: Header, s': State)
    requires Inv(s) && LockSwap(s, c, t, id, seen, s')
    ensures Inv(s')
  {
    LockSwapCalls(s, c, t, id, seen, s');
    LockSwapHeader(s, c, t, id, seen, s');
    LockSwapOwners(s, c, t, id, seen, s');
  }

  lemma UnlockLoadKeeps(s: State, c: nat, t: nat, s': State)
    requires Inv(s) && UnlockLoad(s, c, t, s')
    ensures Inv(s')
  {
    FillerOwnsTicket(s, t);
    CallsKept(s, c, s');
    OwnersKept(s, s', c);
  }

  lemma UnlockSwapCalls(s: State, c: nat, t: nat, id: Id, seen: Header, s': State)
    requires Inv(s) && UnlockSwap(s, c, t, id, seen, s')
    ensures CallsOk(s')
  {
    forall d | d in s.calls && d != c && Releasing(s.calls[d]) && Fits(s, s.calls[d]) ensures |s.tickets| >= 2 {
      Two(s.tickets, t, s.calls[d].ticket);
    }
    CallsKept(s, c, s');
  }

  lemma UnlockSwapKeeps(s: State, c: nat, t: nat, id: Id, seen: Header, s': State)
    requires Inv(s) && UnlockSwap(s, c, t, id, seen, s')
    ensures Inv(s')
  {
    UnlockSwapCalls(s, c, t, id, seen, s');
    OwnersKept(s, s', c);
  }

  lemma FinalLoadKeeps(s: State, c: nat, t: nat, s': State)
    requires Inv(s) && FinalLoad(s, c, t, s')
    ensures Inv(s')
  {
    FillerOwnsTicket(s, t);
    CallsKept(s, c, s');
    OwnersKept(s, s', c);
  }

  lemma FinalSwapCalls(s: State, c: nat, t: nat, id: Id, seen: Header, s': State)
    requires Inv(s) && FinalSwap(s, c, t, id, seen, s')
    ensures CallsOk(s')
  {
    forall d | d in s.calls && d != c && Releasing(s.calls[d]) && Fits(s, s.calls[d]) ensures |s.tickets| >= 2 {
      Two(s.tickets, t, s.calls[d].ticket);
    }
    CallsKept(s, c, s');
  }

  lemma FinalSwapKeeps(s: State, c: nat, t: nat, id: Id, seen: Header, s': State)
    requires Inv(s) && FinalSwap(s, c, t, id, seen, s')
    ensures Inv(s')
  {
    FinalSwapCalls(s, c, t, id, seen, s');
    OwnersKept(s, s', c);
  }

  lemma CallbackEnterKeeps(s: State, c: nat, id: Id, s': State)
    requires Inv(s) && CallbackEnter(s, c, id, s')
    ensures Inv(s')
  {
    forall o
      ensures Called(s'.callbacks, o) == Called(s.callbacks, o) + if o == s.objects then 1 else 0
    {
    }
    CallsKept(s, c, s');
    OwnersKept(s, s', c);
  }

  lemma CallbackExitKeeps(s: State, c: nat, id: Id, seen: Header, s': State)
    requires Inv(s) && CallbackExit(s, c, id, seen, s')
    ensures Inv(s')
  {
    CallsKept(s, c, s');
    OwnersKept(s, s', c);
  }

  lemma ClearSwapKeeps(s: State, c: nat, id: Id, seen: Header, s': State)
    requires Inv(s) && ClearSwap(s, c, id, seen, s')
    ensures Inv(s')
  {
    CallsKept(s, c, s');
    OwnersKept(s, s', c);
  }

  lemma AllocLoadKeeps(s: State, c: nat, id: Id, s': State)
    requires Inv(s) && AllocLoad(s, c, id, s')
    ensures Inv(s')
  {
    CallsKept(s, c, s');
    OwnersKept(s, s', c);
  }

  lemma AllocSwapCalls(s: State, c: nat, t: nat, id: Id, seen: Header, s': State)
    requires HeaderOk(s) && CallsOk(s) && AllocSwap(s, c, t, id, seen, s')
    ensures CallsOk(s')
  {
    CallsKept(s, c, s');
  }

  lemma NewObject(s: State, t: nat, id: Id, s': State)
    requires HeaderOk(s) && CallbacksOk(s) && IsFree(s.header)
    requires s'.header == GodHeader(id, true, false, false, 1) && s'.tickets == s.tickets[t := id]
    requires s'.objects == s.objects + 1 && s'.callbacks == s.callbacks
    ensures HeaderOk(s') && CallbacksOk(s')
  {
    assert s.tickets == map[];
  }

  lemma AllocSwapHeader(s: State, c: nat, t: nat, id: Id, seen: Header, s': State)
    requires HeaderOk(s) && CallbacksOk(s) && AllocSwap(s, c, t, id, seen, s')
    ensures HeaderOk(s') && CallbacksOk(s')
  {
    if s'.objects != s.objects {
      NewObject(s, t, id, s');
    }
  }

  lemma AllocSwapOwners(s: State, c: nat, t: nat, id: Id, seen: Header, s': State)
    requires HeaderOk(s) && OwnersOk(s) && AllocSwap(s, c, t, id, seen, s')
    ensures OwnersOk(s')
  {
    OwnersKept(s, s', c);
  }

  lemma AllocSwapKeeps(s: State, c: nat, t: nat, id: Id, seen: Header, s': State)
    requires Inv(s) && AllocSwap(s, c, t, id, seen, s')
    ensures Inv(s')
  {
    AllocSwapCalls(s, c, t, id, seen, s');
    AllocSwapHeader(s, c, t, id, seen, s');
    AllocSwapOwners(s, c, t, id, seen, s');
  }

  lemma AllocStoreKeeps(s: State, c: nat, t: nat, id: Id, s': State)
    requires Inv(s) && AllocStore(s, c, t, id, s')
    ensures Inv(s')
  {
    CallsKept(s, c, s');
    OwnersKept(s, s', c);
  }

  lemma StepKeepsInv(s: State, a: Action, s': State)
    requires Inv(s) && Step(s, a, s')
    ensures Inv(s')
  {
    match a
    case LockLoadA(c, id) => LockLoadKeeps(s, c, id, s');
    case LockSwapA(c, t, id, seen) => LockSwapKeeps(s, c, t, id, seen, s');
    case UnlockLoadA(c, t) => UnlockLoadKeeps(s, c, t, s');
    case UnlockSwapA(c, t, id, seen) => UnlockSwapKeeps(s, c, t, id, seen, s');
    case FinalLoadA(c, t) => FinalLoadKeeps(s, c, t, s');
    case FinalSwapA(c, t, id, seen) => FinalSwapKeeps(s, c, t, id, seen, s');
    case EnterA(c, id) => CallbackEnterKeeps(s, c, id, s');
    case ExitA(c, id, seen) => CallbackExitKeeps(s, c, id, seen, s');
    case ClearA(c, id, seen) => ClearSwapKeeps(s, c, id, seen, s');
    case AllocLoadA(c, id) => AllocLoadKeeps(s, c, id, s');
    case AllocSwapA(c, t, id, seen) => AllocSwapKeeps(s, c, t, id, seen, s');
    case AllocStoreA(c, t, id) => AllocStoreKeeps(s, c, t, id, s');
  }

  lemma InitInv(s: State)
    requires Init(s)
    ensures Inv(s)
  {
  }

  lemma StepAtKeeps(states: seq<State>, actions: seq<Action>, n: nat)
    requires Run(states, actions) && 0 < n < |states| && Inv(states[n - 1])
    ensures Inv(states[n])
  {
    assert StepAt(states, actions, n - 1);
    StepKeepsInv(states[n - 1], actions[n - 1], states[n]);
  }

  lemma {:induction false} RunKeepsInv(states: seq<State>, actions: seq<Action>, n: nat)
    requires Run(states, actions) && n < |states|
    ensures Inv(states[n])
  {
    if n == 0 {
      InitInv(states[n]);
    } else {
      RunKeepsInv(states, actions, n - 1);
      StepAtKeeps(states, actions, n);
    }
  }

  // ---------------------------------------------------------------- what holds in every run

  /** The counter is the number of references clients hold, and while one is held the entry is that
      object's: it keeps its identifier and has no delete mark. */
  lemma CountIsOutstanding(states: seq<State>, actions: seq<Action>, n: nat)
    requires Run(states, actions) && n < |states|
    ensures var s := states[n];
      && s.header.refcnt == |s.tickets| <= GOD_MAX_REFCNT
      && forall t :: t in s.tickets ==> s.header.id == s.tickets[t] && s.header.reserved && !s.header.deleted
  {
    RunKeepsInv(states, actions, n);
    var s := states[n];
    forall t | t in s.tickets ensures s.header.reserved && !s.header.deleted {
      assert |s.tickets| != 0;
    }
  }

  /** The free callback was called exactly once for every object the slot held before, at most once for
      the last one, and never while a reference to that one is held. */
  lemma CallbackOnce(states: seq<State>, actions: seq<Action>, n: nat)
    requires Run(states, actions) && n < |states|
    ensures var s := states[n];
      && (forall o :: 0 < o < s.objects ==> Called(s.callbacks, o) == 1)
      && Called(s.callbacks, s.objects) <= 1
      && (s.tickets != map[] ==> Called(s.callbacks, s.objects) == 0)
  {
    RunKeepsInv(states, actions, n);
    var s := states[n];
    if s.tickets != map[] {
      assert |s.tickets| != 0;
    }
  }

  /** The slot passes to a new object only when the callback of the last one was called and has returned,
      and nobody holds a reference or is about to release one. */
  lemma NotReusedEarly(states: seq<State>, actions: seq<Action>, n: nat)
    requires Run(states, actions) && n + 1 < |states| && states[n + 1].objects != states[n].objects
    ensures var s := states[n];
      && s.tickets == map[] && (s.objects > 0 ==> Called(s.callbacks, s.objects) == 1)
      && forall c :: c in s.calls ==> !s.calls[c].InCallback? && !Releasing(s.calls[c])
  {
    RunKeepsInv(states, actions, n);
    var s := states[n];
    assert StepAt(states, actions, n);
    assert |s.tickets| == 0;
    forall c | c in s.calls ensures !s.calls[c].InCallback? && !Releasing(s.calls[c]) {
      assert Fits(s, s.calls[c]);
    }
  }

  /** A lock never succeeds on an entry with the delete mark, and the mark stays until the slot is cleared. */
  lemma NoLockAfterMark(states: seq<State>, actions: seq<Action>, n: nat)
    requires Run(states, actions) && n + 1 < |states| && states[n].header.deleted
    ensures states[n + 1].tickets == states[n].tickets == map[] && states[n + 1].objects == states[n].objects
    ensures states[n + 1].header == states[n].header || IsFree(states[n + 1].header)
  {
    RunKeepsInv(states, actions, n);
    RunKeepsInv(states, actions, n + 1);
    var s, s' := states[n], states[n + 1];
    assert StepAt(states, actions, n);
    assert |s.tickets| == 0;
    assert s.tickets == map[];
    assert s'.tickets == map[] by {
      assert s'.tickets.Keys == {};
    }
  }

  /** A client that releases a reference it holds never runs into the checks that would drop the call. */
  lemma UnlockIsNotRefused(states: seq<State>, actions: seq<Action>, n: nat, c: nat)
    requires Run(states, actions) && n < |states| && c in states[n].calls
    ensures var call := states[n].calls[c];
      && (call.Unlocking? ==> GodUnlock(call.seen, call.id).Some?)
      && (call.Finalizing? ==> GodUnlockFinal(call.seen, call.id).0 != InvalidState)
  {
    RunKeepsInv(states, actions, n);
    var s := states[n];
    assert Fits(s, s.calls[c]);
  }

  /** An object without references that no call is still freeing was freed: its callback was called and its
      slot is free, whatever lock and allocation attempts are under way. */
  lemma NothingIsLeaked(states: seq<State>, actions: seq<Action>, n: nat)
    requires Run(states, actions) && n < |states|
    requires states[n].tickets == map[] && states[n].objects > 0 && forall c :: !Ender(states[n], c)
    ensures IsFree(states[n].header) && Called(states[n].callbacks, states[n].objects) == 1
  {
    RunKeepsInv(states, actions, n);
    var s := states[n];
    assert |s.tickets| == 0;
  }

  // ---------------------------------------------------------------- how calls end

  ghost predicate StillIn(s: State, c: nat, call: Call) {
    && c in s.calls
    && (call.Locking? ==> s.calls[c].Locking?) && (call.Unlocking? ==> s.calls[c].Unlocking?)
    && (call.Finalizing? ==> s.calls[c].Finalizing?) && (call.Reserving? ==> s.calls[c].Reserving?)
    && (call.Clearing? ==> s.calls[c].Clearing?)
  }

  /** The step ended call `c`. */
  ghost predicate Ends(s: State, s': State, c: nat) {
    c in s.calls && !StillIn(s', c, s.calls[c])
  }

  /** An unlock ends with its reference dropped. */
  lemma UnlockEnds(states: seq<State>, actions: seq<Action>, n: nat, c: nat)
    requires Run(states, actions) && n < |actions| && Ends(states[n], states[n + 1], c) && states[n].calls[c].Unlocking?
    ensures states[n].calls[c].ticket !in states[n + 1].tickets
  {
    UnlockIsNotRefused(states, actions, n, c);
    assert StepAt(states, actions, n);
  }

  /** A final unlock ends with its reference dropped and the object being freed, or it saw other references
      and changed nothing. */
  lemma FinalEnds(states: seq<State>, actions: seq<Action>, n: nat, c: nat)
    requires Run(states, actions) && n < |actions| && Ends(states[n], states[n + 1], c) && states[n].calls[c].Finalizing?
    ensures var call, s, s' := states[n].calls[c], states[n], states[n + 1];
      || (call.ticket !in s'.tickets && s'.tickets == map[] && c in s'.calls && s'.calls[c].Freeing?)
      || (call.seen.refcnt > 1 && s'.tickets == s.tickets && s'.header == s.header)
  {
    UnlockIsNotRefused(states, actions, n, c);
    RunKeepsInv(states, actions, n);
    RunKeepsInv(states, actions, n + 1);
    assert StepAt(states, actions, n);
    var s' := states[n + 1];
    assert s'.header.refcnt == 0 ==> |s'.tickets| == 0;
  }

  /** A lock ends with a new reference to its object, or the header it saw last refused it. */
  lemma LockEnds(states: seq<State>, actions: seq<Action>, n: nat, c: nat)
    requires Run(states, actions) && n < |actions| && Ends(states[n], states[n + 1], c) && states[n].calls[c].Locking?
    ensures var call, s, s' := states[n].calls[c], states[n], states[n + 1];
      || (s.header.id == call.id && exists t: nat :: t !in s.tickets && s'.tickets == s.tickets[t := call.id])
      || ((call.seen.id != call.id || !call.seen.used || call.seen.deleted || call.seen.refcnt == GOD_MAX_REFCNT)
          && s'.tickets == s.tickets && s'.header == s.header)
  {
    assert StepAt(states, actions, n);
  }

  /** Clearing ends with a free slot. */
  lemma ClearEnds(states: seq<State>, actions: seq<Action>, n: nat, c: nat)
    requires Run(states, actions) && n < |actions| && Ends(states[n], states[n + 1], c) && states[n].calls[c].Clearing?
    ensures IsFree(states[n + 1].header) && states[n + 1].header.id == states[n].header.id
  {
    RunKeepsInv(states, actions, n);
    assert StepAt(states, actions, n);
  }
}
