/** Every step of the receive protocol keeps its invariant. */
module MsgqSteps {
  import opened Common
  import opened Msgq
  import opened MsgqProof

  lemma SendPushKeeps(s: State, c: nat, m: Msg, s': State)
    requires Inv(s) && SendPush(s, c, m, s')
    ensures Inv(s')
  {
    SenderMoved(s, c, s');
    WakeKept(s, s', c);
    MessagesKept(s, s', c);
  }

  lemma LoadFilterIdKeeps(s: State, c: nat, s': State)
    requires Inv(s) && LoadFilterId(s, c, s')
    ensures Inv(s')
  {
    SenderMoved(s, c, s');
    WakeKept(s, s', c);
    MessagesKept(s, s', c);
  }

  lemma LockFilterLinks(s: State, c: nat, g: nat, ok: bool, s': State)
    requires Inv(s) && LockFilter(s, c, g, ok, s')
    ensures Shape(s') && TaskOk(s') && FoundOk(s') && WakeOk(s') && MessagesOk(s')
  {
    WakeKept(s, s', c);
    MessagesKept(s, s', c);
  }

  lemma LockFilterCounts(s: State, c: nat, g: nat, ok: bool, s': State)
    requires Shape(s) && TaskOk(s) && EventsOk(s) && HoldersOk(s) && LockFilter(s, c, g, ok, s')
    ensures EventsOk(s')
  {
  }

  lemma LockFilterHolders(s: State, c: nat, g: nat, ok: bool, s': State)
    requires Shape(s) && EventsOk(s) && HoldersOk(s) && LockFilter(s, c, g, ok, s')
    ensures HoldersOk(s')
  {
    SenderMoved(s, c, s');
  }

  lemma LockFilterKeeps(s: State, c: nat, g: nat, ok: bool, s': State)
    requires Inv(s) && LockFilter(s, c, g, ok, s')
    ensures Inv(s')
  {
    LockFilterLinks(s, c, g, ok, s');
    LockFilterCounts(s, c, g, ok, s');
    LockFilterHolders(s, c, g, ok, s');
  }

  lemma LoadEventLinks(s: State, c: nat, g: nat, b: bool, s': State)
    requires Inv(s) && LoadEvent(s, c, g, b, s')
    ensures Shape(s') && TaskOk(s') && FoundOk(s') && WakeOk(s') && MessagesOk(s')
  {
    WakeKept(s, s', c);
    MessagesKept(s, s', c);
  }

  lemma LoadEventCounts(s: State, c: nat, g: nat, b: bool, s': State)
    requires Shape(s) && TaskOk(s) && EventsOk(s) && HoldersOk(s) && LoadEvent(s, c, g, b, s')
    ensures EventsOk(s')
  {
  }

  lemma LoadEventHolders(s: State, c: nat, g: nat, b: bool, s': State)
    requires Shape(s) && EventsOk(s) && HoldersOk(s) && LoadEvent(s, c, g, b, s')
    ensures HoldersOk(s')
  {
    SenderMoved(s, c, s');
  }

  lemma LoadEventKeeps(s: State, c: nat, g: nat, b: bool, s': State)
    requires Inv(s) && LoadEvent(s, c, g, b, s')
    ensures Inv(s')
  {
    LoadEventLinks(s, c, g, b, s');
    LoadEventCounts(s, c, g, b, s');
    LoadEventHolders(s, c, g, b, s');
  }

  lemma ExchangeEventLinks(s: State, c: nat, g: nat, s': State)
    requires Inv(s) && ExchangeEvent(s, c, g, s')
    ensures Shape(s') && TaskOk(s') && FoundOk(s') && WakeOk(s') && MessagesOk(s')
  {
    assert SenderOk(s, c);
    WakeKept(s, s', c);
    MessagesKept(s, s', c);
  }

  lemma ExchangeEventCounts(s: State, c: nat, g: nat, s': State)
    requires Shape(s) && TaskOk(s) && EventsOk(s) && HoldersOk(s) && ExchangeEvent(s, c, g, s')
    ensures EventsOk(s')
  {
    assert SenderOk(s, c);
  }

  lemma ExchangeEventHolders(s: State, c: nat, g: nat, s': State)
    requires Shape(s) && EventsOk(s) && HoldersOk(s) && ExchangeEvent(s, c, g, s')
    ensures HoldersOk(s')
  {
    assert SenderOk(s, c);
    forall d | d in s'.senders ensures SenderOk(s', d) {
      assert SenderOk(s, d);
    }
    forall h | h in s'.events ensures TakenOk(s', h) {
      assert TakenOk(s, h);
    }
  }

  lemma ExchangeEventKeeps(s: State, c: nat, g: nat, s': State)
    requires Inv(s) && ExchangeEvent(s, c, g, s')
    ensures Inv(s')
  {
    ExchangeEventLinks(s, c, g, s');
    ExchangeEventCounts(s, c, g, s');
    ExchangeEventHolders(s, c, g, s');
  }

  lemma DropSendRefLinks(s: State, c: nat, g: nat, s': State)
    requires Inv(s) && DropSendRef(s, c, g, s')
    ensures Shape(s') && TaskOk(s') && FoundOk(s') && WakeOk(s') && MessagesOk(s')
  {
    assert SenderOk(s, c);
    WakeKept(s, s', c);
    MessagesKept(s, s', c);
  }

  lemma DropSendRefCounts(s: State, c: nat, g: nat, s': State)
    requires Shape(s) && TaskOk(s) && EventsOk(s) && HoldersOk(s) && DropSendRef(s, c, g, s')
    ensures EventsOk(s')
  {
    assert SenderOk(s, c);
  }

  lemma DropSendRefHolders(s: State, c: nat, g: nat, s': State)
    requires Shape(s) && EventsOk(s) && HoldersOk(s) && DropSendRef(s, c, g, s')
    ensures HoldersOk(s')
  {
    assert SenderOk(s, c);
    forall d | d in s'.senders ensures SenderOk(s', d) {
      assert SenderOk(s, d);
    }
    forall h | h in s'.events ensures TakenOk(s', h) {
      assert TakenOk(s, h);
    }
  }

  lemma DropSendRefKeeps(s: State, c: nat, g: nat, s': State)
    requires Inv(s) && DropSendRef(s, c, g, s')
    ensures Inv(s')
  {
    DropSendRefLinks(s, c, g, s');
    DropSendRefCounts(s, c, g, s');
    DropSendRefHolders(s, c, g, s');
  }

  lemma SignalSendLinks(s: State, c: nat, g: nat, s': State)
    requires Inv(s) && SignalSend(s, c, g, s')
    ensures Shape(s') && TaskOk(s') && FoundOk(s') && WakeOk(s') && MessagesOk(s')
  {
    assert SenderOk(s, c);
    WakeKept(s, s', c);
    MessagesKept(s, s', c);
  }

  lemma SignalSendCounts(s: State, c: nat, g: nat, s': State)
    requires Shape(s) && TaskOk(s) && EventsOk(s) && HoldersOk(s) && SignalSend(s, c, g, s')
    ensures EventsOk(s')
  {
    assert SenderOk(s, c);
  }

  lemma SignalSendHolders(s: State, c: nat, g: nat, s': State)
    requires Shape(s) && EventsOk(s) && HoldersOk(s) && SignalSend(s, c, g, s')
    ensures HoldersOk(s')
  {
    SenderMoved(s, c, s');
  }

  lemma SignalSendKeeps(s: State, c: nat, g: nat, s': State)
    requires Inv(s) && SignalSend(s, c, g, s')
    ensures Inv(s')
  {
    SignalSendLinks(s, c, g, s');
    SignalSendCounts(s, c, g, s');
    SignalSendHolders(s, c, g, s');
  }

  lemma TimerExpiresLinks(s: State, g: nat, s': State)
    requires Inv(s) && TimerExpires(s, g, s')
    ensures Shape(s') && TaskOk(s') && FoundOk(s') && WakeOk(s') && MessagesOk(s')
  {
    WakeKept(s, s', 0);
    MessagesKept(s, s', 0);
  }

  lemma TimerExpiresCounts(s: State, g: nat, s': State)
    requires Shape(s) && TaskOk(s) && EventsOk(s) && HoldersOk(s) && TimerExpires(s, g, s')
    ensures EventsOk(s')
  {
  }

  lemma TimerExpiresHolders(s: State, g: nat, s': State)
    requires Shape(s) && EventsOk(s) && HoldersOk(s) && TimerExpires(s, g, s')
    ensures HoldersOk(s')
  {
    HoldersSame(s, s');
  }

  lemma TimerExpiresKeeps(s: State, g: nat, s': State)
    requires Inv(s) && TimerExpires(s, g, s')
    ensures Inv(s')
  {
    TimerExpiresLinks(s, g, s');
    TimerExpiresCounts(s, g, s');
    TimerExpiresHolders(s, g, s');
  }

  lemma TimerSignalsLinks(s: State, g: nat, s': State)
    requires Inv(s) && TimerSignals(s, g, s')
    ensures Shape(s') && TaskOk(s') && FoundOk(s') && WakeOk(s') && MessagesOk(s')
  {
    WakeKept(s, s', 0);
    MessagesKept(s, s', 0);
  }

  lemma TimerSignalsCounts(s: State, g: nat, s': State)
    requires Shape(s) && TaskOk(s) && EventsOk(s) && HoldersOk(s) && TimerSignals(s, g, s')
    ensures EventsOk(s')
  {
  }

  lemma TimerSignalsHolders(s: State, g: nat, s': State)
    requires Shape(s) && EventsOk(s) && HoldersOk(s) && TimerSignals(s, g, s')
    ensures HoldersOk(s')
  {
    HoldersSame(s, s');
  }

  lemma TimerSignalsKeeps(s: State, g: nat, s': State)
    requires Inv(s) && TimerSignals(s, g, s')
    ensures Inv(s')
  {
    TimerSignalsLinks(s, g, s');
    TimerSignalsCounts(s, g, s');
    TimerSignalsHolders(s, g, s');
  }

  lemma TimerCanceledLinks(s: State, g: nat, s': State)
    requires Inv(s) && TimerCanceled(s, g, s')
    ensures Shape(s') && TaskOk(s') && FoundOk(s') && WakeOk(s') && MessagesOk(s')
  {
    WakeKept(s, s', 0);
    MessagesKept(s, s', 0);
  }

  lemma TimerCanceledCounts(s: State, g: nat, s': State)
    requires Shape(s) && TaskOk(s) && EventsOk(s) && HoldersOk(s) && TimerCanceled(s, g, s')
    ensures EventsOk(s')
  {
  }

  lemma TimerCanceledHolders(s: State, g: nat, s': State)
    requires Shape(s) && EventsOk(s) && HoldersOk(s) && TimerCanceled(s, g, s')
    ensures HoldersOk(s')
  {
    HoldersSame(s, s');
  }

  lemma TimerCanceledKeeps(s: State, g: nat, s': State)
    requires Inv(s) && TimerCanceled(s, g, s')
    ensures Inv(s')
  {
    TimerCanceledLinks(s, g, s');
    TimerCanceledCounts(s, g, s');
    TimerCanceledHolders(s, g, s');
  }

  lemma BeginReceiveLinks(s: State, w: iset<Msg>, timed: bool, r: Option<Msg>, s': State)
    requires Shape(s) && TaskOk(s) && BeginReceive(s, w, timed, r, s')
    ensures Shape(s') && TaskOk(s') && FoundOk(s') && WakeOk(s') && MessagesOk(s')
  {
    SearchMeans(s.(wanted := w), r);
    assert NeedsNoWake(s') && !Exposed(s');
  }

  lemma BeginReceiveCounts(s: State, w: iset<Msg>, timed: bool, r: Option<Msg>, s': State)
    requires Shape(s) && TaskOk(s) && EventsOk(s) && HoldersOk(s) && BeginReceive(s, w, timed, r, s')
    ensures EventsOk(s')
  {
  }

  lemma BeginReceiveHolders(s: State, w: iset<Msg>, timed: bool, r: Option<Msg>, s': State)
    requires Shape(s) && EventsOk(s) && HoldersOk(s) && BeginReceive(s, w, timed, r, s')
    ensures HoldersOk(s')
  {
    HoldersSame(s, s');
  }

  lemma BeginReceiveKeeps(s: State, w: iset<Msg>, timed: bool, r: Option<Msg>, s': State)
    requires Inv(s) && BeginReceive(s, w, timed, r, s')
    ensures Inv(s')
  {
    BeginReceiveLinks(s, w, timed, r, s');
    BeginReceiveCounts(s, w, timed, r, s');
    BeginReceiveHolders(s, w, timed, r, s');
  }

  lemma GiveUpKeeps(s: State, s': State)
    requires Inv(s) && GiveUp(s, s')
    ensures Inv(s')
  {
    HoldersSame(s, s');
    WakeKept(s, s', 0);
    MessagesKept(s, s', 0);
  }

  lemma CreateFilterKeeps(s: State, s': State)
    requires Inv(s) && CreateFilter(s, s')
    ensures Inv(s')
  {
    HoldersSame(s, s');
    WakeKept(s, s', 0);
    MessagesKept(s, s', 0);
  }

  lemma CreateEventLinks(s: State, s': State)
    requires Inv(s) && CreateEvent(s, s')
    ensures Shape(s') && TaskOk(s') && FoundOk(s') && WakeOk(s') && MessagesOk(s')
  {
    WakeKept(s, s', 0);
    MessagesKept(s, s', 0);
  }

  lemma CreateEventCounts(s: State, s': State)
    requires Shape(s) && TaskOk(s) && EventsOk(s) && HoldersOk(s) && CreateEvent(s, s')
    ensures EventsOk(s')
  {
  }

  lemma CreateEventHolders(s: State, s': State)
    requires Shape(s) && EventsOk(s) && HoldersOk(s) && CreateEvent(s, s')
    ensures HoldersOk(s')
  {
    SourceMoved(s, s.gen, s');
  }

  lemma CreateEventKeeps(s: State, s': State)
    requires Inv(s) && CreateEvent(s, s')
    ensures Inv(s')
  {
    CreateEventLinks(s, s');
    CreateEventCounts(s, s');
    CreateEventHolders(s, s');
  }

  lemma StoreEventLinks(s: State, s': State)
    requires Inv(s) && StoreEvent(s, s')
    ensures Shape(s') && TaskOk(s') && FoundOk(s') && WakeOk(s') && MessagesOk(s')
  {
    WakeKept(s, s', 0);
    MessagesKept(s, s', 0);
  }

  lemma StoreEventCounts(s: State, s': State)
    requires Shape(s) && TaskOk(s) && EventsOk(s) && HoldersOk(s) && StoreEvent(s, s')
    ensures EventsOk(s')
  {
  }

  lemma StoreEventHolders(s: State, s': State)
    requires Shape(s) && EventsOk(s) && HoldersOk(s) && StoreEvent(s, s')
    ensures HoldersOk(s')
  {
    SourceMoved(s, s.gen, s');
  }

  lemma StoreEventKeeps(s: State, s': State)
    requires Inv(s) && StoreEvent(s, s')
    ensures Inv(s')
  {
    StoreEventLinks(s, s');
    StoreEventCounts(s, s');
    StoreEventHolders(s, s');
  }

  lemma PublishFilterKeeps(s: State, s': State)
    requires Inv(s) && PublishFilter(s, s')
    ensures Inv(s')
  {
    HoldersSame(s, s');
    WakeKept(s, s', 0);
    MessagesKept(s, s', 0);
  }

  lemma SearchAgainLinks(s: State, r: Option<Msg>, s': State)
    requires Inv(s) && SearchAgain(s, r, s')
    ensures Shape(s') && TaskOk(s') && FoundOk(s') && WakeOk(s') && MessagesOk(s')
  {
    SearchMeans(s, r);
    WakeKept(s, s', 0);
  }

  lemma SearchAgainCounts(s: State, r: Option<Msg>, s': State)
    requires Shape(s) && TaskOk(s) && EventsOk(s) && HoldersOk(s) && SearchAgain(s, r, s')
    ensures EventsOk(s')
  {
  }

  lemma SearchAgainHolders(s: State, r: Option<Msg>, s': State)
    requires Shape(s) && EventsOk(s) && HoldersOk(s) && SearchAgain(s, r, s')
    ensures HoldersOk(s')
  {
    HoldersSame(s, s');
  }

  lemma SearchAgainKeeps(s: State, r: Option<Msg>, s': State)
    requires Inv(s) && SearchAgain(s, r, s')
    ensures Inv(s')
  {
    SearchAgainLinks(s, r, s');
    SearchAgainCounts(s, r, s');
    SearchAgainHolders(s, r, s');
  }

  lemma QueueTimerLinks(s: State, s': State)
    requires Inv(s) && QueueTimer(s, s')
    ensures Shape(s') && TaskOk(s') && FoundOk(s') && WakeOk(s') && MessagesOk(s')
  {
    WakeKept(s, s', 0);
    MessagesKept(s, s', 0);
  }

  lemma QueueTimerCounts(s: State, s': State)
    requires Shape(s) && TaskOk(s) && EventsOk(s) && HoldersOk(s) && QueueTimer(s, s')
    ensures EventsOk(s')
  {
  }

  lemma QueueTimerHolders(s: State, s': State)
    requires Shape(s) && EventsOk(s) && HoldersOk(s) && QueueTimer(s, s')
    ensures HoldersOk(s')
  {
    HoldersSame(s, s');
  }

  lemma QueueTimerKeeps(s: State, s': State)
    requires Inv(s) && QueueTimer(s, s')
    ensures Inv(s')
  {
    QueueTimerLinks(s, s');
    QueueTimerCounts(s, s');
    QueueTimerHolders(s, s');
  }

  lemma TakeBackLinks(s: State, s': State)
    requires Inv(s) && TakeBack(s, s')
    ensures Shape(s') && TaskOk(s') && FoundOk(s') && WakeOk(s') && MessagesOk(s')
  {
    WakeKept(s, s', 0);
    MessagesKept(s, s', 0);
  }

  lemma TakeBackCounts(s: State, s': State)
    requires Shape(s) && TaskOk(s) && EventsOk(s) && HoldersOk(s) && TakeBack(s, s')
    ensures EventsOk(s')
  {
  }

  lemma TakeBackHolders(s: State, s': State)
    requires Shape(s) && EventsOk(s) && HoldersOk(s) && TakeBack(s, s')
    ensures HoldersOk(s')
  {
    if s.events[s.gen].source == InSlot {
      SourceMoved(s, s.gen, s');
    } else {
      HoldersSame(s, s');
    }
  }

  lemma TakeBackKeeps(s: State, s': State)
    requires Inv(s) && TakeBack(s, s')
    ensures Inv(s')
  {
    TakeBackLinks(s, s');
    TakeBackCounts(s, s');
    TakeBackHolders(s, s');
  }

  lemma DropOwnRefLinks(s: State, s': State)
    requires Inv(s) && DropOwnRef(s, s')
    ensures Shape(s') && TaskOk(s') && FoundOk(s') && WakeOk(s') && MessagesOk(s')
  {
    WakeKept(s, s', 0);
    MessagesKept(s, s', 0);
  }

  lemma DropOwnRefCounts(s: State, s': State)
    requires Shape(s) && TaskOk(s) && EventsOk(s) && HoldersOk(s) && DropOwnRef(s, s')
    ensures EventsOk(s')
  {
  }

  lemma DropOwnRefHolders(s: State, s': State)
    requires Shape(s) && EventsOk(s) && HoldersOk(s) && DropOwnRef(s, s')
    ensures HoldersOk(s')
  {
    HoldersSame(s, s');
  }

  lemma DropOwnRefKeeps(s: State, s': State)
    requires Inv(s) && DropOwnRef(s, s')
    ensures Inv(s')
  {
    DropOwnRefLinks(s, s');
    DropOwnRefCounts(s, s');
    DropOwnRefHolders(s, s');
  }

  lemma UnblockOwnLinks(s: State, s': State)
    requires Inv(s) && UnblockOwn(s, s')
    ensures Shape(s') && TaskOk(s') && FoundOk(s') && WakeOk(s') && MessagesOk(s')
  {
    WakeKept(s, s', 0);
    MessagesKept(s, s', 0);
  }

  lemma UnblockOwnCounts(s: State, s': State)
    requires Shape(s) && TaskOk(s) && EventsOk(s) && HoldersOk(s) && UnblockOwn(s, s')
    ensures EventsOk(s')
  {
  }

  lemma UnblockOwnHolders(s: State, s': State)
    requires Shape(s) && EventsOk(s) && HoldersOk(s) && UnblockOwn(s, s')
    ensures HoldersOk(s')
  {
    HoldersSame(s, s');
  }

  lemma UnblockOwnKeeps(s: State, s': State)
    requires Inv(s) && UnblockOwn(s, s')
    ensures Inv(s')
  {
    UnblockOwnLinks(s, s');
    UnblockOwnCounts(s, s');
    UnblockOwnHolders(s, s');
  }

  lemma ScheduledKeeps(s: State, s': State)
    requires Inv(s) && Scheduled(s, s')
    ensures Inv(s')
  {
    HoldersSame(s, s');
    WakeKept(s, s', 0);
    MessagesKept(s, s', 0);
  }

  lemma AfterWakeKeeps(s: State, r: Option<Msg>, s': State)
    requires Inv(s) && AfterWake(s, r, s')
    ensures Inv(s')
  {
    if s.cause == SendCause { SearchMeans(s, r); }
    HoldersSame(s, s');
    WakeKept(s, s', 0);
    MessagesKept(s, s', 0);
  }

  lemma ResetFilterKeeps(s: State, s': State)
    requires Inv(s) && ResetFilter(s, s')
    ensures Inv(s')
  {
    HoldersSame(s, s');
    WakeKept(s, s', 0);
    MessagesKept(s, s', 0);
  }

  lemma TakeMessageKeeps(s: State, i: nat, s': State)
    requires Inv(s) && TakeMessage(s, i, s')
    ensures Inv(s')
  {
    HoldersSame(s, s');
    WakeKept(s, s', 0);
    MessagesKept(s, s', 0);
  }

}
