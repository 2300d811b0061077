/** No message is lost by a blocked receiver, and no event is freed twice or used after it was freed. */
module MsgqProof {
  import opened Common
  import opened Msgq

  // ---------------------------------------------------------------- the invariant

  /** The receiver has published the filter of the current generation. */
  ghost predicate Holding(pc: Pc) {
    pc in {Published, FoundExchange, FoundSignal, FoundUnblock, FoundSched, Arming, Waiting, Woken, FreeExchange,
           FreeSignal, FreeUnblock, Reset}
  }

  /** The event of the current generation exists and the receiver has not dropped its own reference. */
  ghost predicate OwnsEvent(pc: Pc) {
    pc in {Bound, Stored, Published, FoundExchange, FoundSignal, Arming, Waiting, Woken, FreeExchange, FreeSignal}
  }

  /** The task may be BLOCKED on the current generation. */
  ghost predicate MayBlock(pc: Pc) {
    pc in {Bound, Stored, Published, FoundExchange, FoundSignal, FoundUnblock, Arming, Waiting}
  }

  ghost predicate Shape(s: State) {
    && (forall g :: g in s.events ==> g <= s.gen)
    && (OwnsEvent(s.pc) || s.pc in {FoundUnblock, FreeUnblock, FoundSched, Reset} ==> s.gen in s.events)
    && (s.pc == Created ==> s.gen !in s.events)
    && (s.filterId == if Holding(s.pc) then Some(s.gen) else None)
    && (forall c :: c in s.senders && !s.senders[c].phase.Pushed? ==> s.senders[c].phase.g in s.events)
  }

  ghost predicate TaskOk(s: State) {
    && (s.task.BlockedOn? ==> s.task.g == s.gen && MayBlock(s.pc))
    && (s.task == Ready ==> MayBlock(s.pc) || s.pc == FoundSched)
    && (s.pc == FoundSched ==> s.task == Ready)
    && (s.pc == Bound ==> s.task == BlockedOn(s.gen))
    && (MayBlock(s.pc) ==> s.task != Running)
  }

  /** The counter of an event is the number of its outstanding references; it is freed at zero, once.
      `current` says that the event belongs to the current generation. */
  ghost predicate Counted(e: Event, current: bool, timed: bool, pc: Pc) {
    && e.refcnt == One(e.source != Spent) + One(e.mine) + One(e.timer == NotQueued || e.timer == Armed)
    && e.freed == One(e.refcnt == 0)
    && (e.mine <==> current && OwnsEvent(pc))
    && (e.source == Unset <==> current && pc == Bound)
    && (e.source == InSlot ==> current && OwnsEvent(pc) && pc != FoundSignal && pc != FreeSignal)
    && !(e.timer == NotQueued && current && pc == Waiting)
    && (current && pc == Arming ==> timed)
    && (current && pc in {Bound, Stored, Published, FoundExchange, FoundSignal, FoundUnblock, Arming}
        ==> e.timer == if timed then NotQueued else Untimed)
  }

  ghost predicate EventsOk(s: State) {
    forall g :: g in s.events ==> Counted(s.events[g], g == s.gen, s.timed, s.pc)
  }

  /** What sender `c` knows of the event it has in its hand, or has just dropped. */
  ghost predicate SenderOk(s: State, c: nat)
    requires c in s.senders
  {
    var ph := s.senders[c].phase;
    && (ph.InHand? ==> ph.g in s.events && s.events[ph.g].source == Taken(c))
    && (ph.Signaling? ==> ph.g in s.events && s.events[ph.g].source == Spent)
  }

  ghost predicate TakenOk(s: State, g: nat)
    requires g in s.events
  {
    s.events[g].source.Taken? ==> AtPhase(s, s.events[g].source.holder, InHand(g))
  }

  /** An event that left the filter by a sender is in the hand of exactly that sender until it is spent. */
  ghost predicate HoldersOk(s: State) {
    && (forall c {:trigger SenderOk(s, c)} :: c in s.senders ==> SenderOk(s, c))
    && (forall g {:trigger TakenOk(s, g)} :: g in s.events ==> TakenOk(s, g))
  }

  ghost predicate FoundOk(s: State) {
    && (s.found.Some? ==> s.found.value in s.queue && s.found.value in s.wanted)
    && (s.pc == Take ==> s.found.Some?)
  }

  ghost predicate Current(s: State) {
    s.gen in s.events && (s.events[s.gen].source == InSlot || s.events[s.gen].source.Taken?)
  }

  ghost predicate NeedsNoWake(s: State) {
    !(s.pc in {Stored, Published, Arming, Waiting} && s.task == BlockedOn(s.gen)) || Current(s)
  }

  /** A receiver that is BLOCKED has its event in the filter, or with a sender that will signal it. */
  ghost predicate WakeOk(s: State) {
    NeedsNoWake(s) || exists c :: AtPhase(s, c, Signaling(s.gen))
  }

  /** Sender `c` is on its way from pushing `m` to taking the event of the current generation. */
  ghost predicate Coming(s: State, c: nat, m: Msg) {
    && c in s.senders && s.senders[c].msg == m
    && (s.senders[c].phase == Pushed || s.senders[c].phase == GotId(s.gen) || s.senders[c].phase == Locked(s.gen)
        || s.senders[c].phase == Matched(s.gen))
  }

  ghost predicate Exposed(s: State) {
    (s.pc == Arming || s.pc == Waiting) && s.task == BlockedOn(s.gen) && s.gen in s.events && s.events[s.gen].source == InSlot
  }

  /** While the event of a waiting receiver is in its filter, each matching message has its sender coming. */
  ghost predicate MessagesOk(s: State) {
    Exposed(s) ==> forall m :: m in s.queue && m in s.wanted ==> exists c :: Coming(s, c, m)
  }

  ghost predicate Inv(s: State) {
    Shape(s) && TaskOk(s) && EventsOk(s) && HoldersOk(s) && FoundOk(s) && WakeOk(s) && MessagesOk(s)
  }

  // What senders hold, from one state to the next.

  /** The step touched neither the senders nor the place of any event. */
  lemma HoldersSame(s: State, s': State)
    requires HoldersOk(s) && s'.senders == s.senders && s'.events.Keys == s.events.Keys
    requires forall h :: h in s.events ==> s'.events[h].source == s.events[h].source
    ensures HoldersOk(s')
  {
    forall d | d in s'.senders ensures SenderOk(s', d) {
      assert SenderOk(s, d);
    }
    forall h | h in s'.events ensures TakenOk(s', h) {
      assert TakenOk(s, h);
    }
  }

  /** Sender `c` arrived, moved or left, and held no event before or after. */
  lemma SenderMoved(s: State, c: nat, s': State)
    requires HoldersOk(s) && s'.events == s.events
    requires forall d :: d != c ==> (d in s'.senders <==> d in s.senders) && (d in s.senders ==> s'.senders[d] == s.senders[d])
    requires c in s.senders ==> !s.senders[c].phase.InHand?
    requires c in s'.senders ==> !s'.senders[c].phase.InHand? && !s'.senders[c].phase.Signaling?
    ensures HoldersOk(s')
  {
    forall d | d in s'.senders ensures SenderOk(s', d) {
      assert d in s.senders ==> SenderOk(s, d);
    }
    forall h | h in s'.events ensures TakenOk(s', h) {
      assert TakenOk(s, h);
    }
  }

  /** Event `g` is new, or was in the filter and went back to the receiver: no sender has to do with it. */
  lemma SourceMoved(s: State, g: nat, s': State)
    requires HoldersOk(s) && s'.senders == s.senders && s'.events.Keys == s.events.Keys + {g}
    requires forall h :: h in s.events && h != g ==> s'.events[h].source == s.events[h].source
    requires !s'.events[g].source.Taken?
    requires if g in s.events then s.events[g].source == InSlot || s.events[g].source == Unset
             else forall d :: d in s.senders && !s.senders[d].phase.Pushed? ==> s.senders[d].phase.g != g
    ensures HoldersOk(s')
  {
    forall d | d in s'.senders ensures SenderOk(s', d) {
      assert SenderOk(s, d);
    }
    forall h | h in s'.events ensures TakenOk(s', h) {
      assert h in s.events ==> TakenOk(s, h);
    }
  }

  // Carrying the existential clauses from one state to the next.

  lemma WakeKept(s: State, s': State, w: nat)
    requires WakeOk(s)
    requires NeedsNoWake(s') || AtPhase(s', w, Signaling(s'.gen)) || !NeedsNoWake(s)
    requires forall c :: AtPhase(s, c, Signaling(s.gen)) && !NeedsNoWake(s') ==> AtPhase(s', c, Signaling(s'.gen))
    ensures WakeOk(s')
  {
    if !NeedsNoWake(s') && !AtPhase(s', w, Signaling(s'.gen)) {
      var c :| AtPhase(s, c, Signaling(s.gen));
      assert AtPhase(s', c, Signaling(s'.gen));
    }
  }

  lemma MessagesKept(s: State, s': State, w: nat)
    requires MessagesOk(s) && s'.wanted == s.wanted
    requires Exposed(s') ==> Exposed(s)
    requires Exposed(s') ==> forall m :: m in s'.queue && m in s.wanted ==> m in s.queue || Coming(s', w, m)
    requires Exposed(s') ==> forall c, m :: Coming(s, c, m) && m in s.wanted ==> Coming(s', c, m)
    ensures MessagesOk(s')
  {
    if Exposed(s') {
      forall m | m in s'.queue && m in s'.wanted ensures exists c :: Coming(s', c, m) {
        if !Coming(s', w, m) {
          var c :| Coming(s, c, m);
          assert Coming(s', c, m);
        }
      }
    }
  }

  lemma SearchMeans(s: State, r: Option<Msg>)
    requires SearchFinds(s, r)
    ensures r.Some? ==> r.value in s.queue && r.value in s.wanted
    ensures r.None? ==> forall m :: m in s.queue ==> m !in s.wanted
  {
    if r.Some? {
      var i: nat :| IsOldest(s, i) && s.queue[i] == r.value;
    }
  }
}
