/** The timer wheel against a flat list of deadlines. */
module TimerProof {
  import opened Common
  import opened TimerWheel
  import opened Timer

  // ---------------------------------------------------------------- where an entry is

  ghost predicate At(l: Lists, e: Entry, w: nat, s: nat) {
    && w < WHEELS && s < SLOTS && e in l[w][s]
    && forall v, r :: 0 <= v < WHEELS && 0 <= r < SLOTS && e in l[v][r] ==> v == w && r == s
  }

  ghost predicate Nowhere(l: Lists, e: Entry) {
    forall v, r :: 0 <= v < WHEELS && 0 <= r < SLOTS ==> e !in l[v][r]
  }

  lemma {:induction false} FileAllMember(p: Progress, es: seq<Entry>, now: nat, canceled: set<nat>, e: Entry, w: nat, s: nat)
    requires w < WHEELS && s < SLOTS
    ensures var q := FileAll(p, es, now, canceled);
            && (e in q.lists[w][s] <==> e in p.lists[w][s] || (e in es && FateOf(e, now, canceled) == File(w, s)))
            && (e in q.fired <==> e in p.fired || (e in es && FateOf(e, now, canceled) == Fire))
            && (e in q.dropped <==> e in p.dropped || (e in es && FateOf(e, now, canceled) == Drop))
    decreases |es|
  {
    if es != [] {
      var one := FileOne(p, es[0], now, canceled);
      FileAllMember(one, es[1..], now, canceled, e, w, s);
      assert e in es <==> e == es[0] || e in es[1..];
    }
  }

  lemma {:induction false} DrainMember(l: Lists, tmp: seq<Entry>, now: nat, from: nat, stop: nat, e: Entry, w: nat, s: nat)
    requires from <= stop <= WHEELS && w < WHEELS && s < SLOTS
    ensures var (l', tmp') := DrainFrom(l, tmp, now, from, stop);
            && (e in l'[w][s] <==> e in l[w][s] && !(from <= w < stop && s == Digit(now, w)))
            && (e in tmp' <==> e in tmp || exists v :: from <= v < stop && e in l[v][Digit(now, v)])
    decreases stop - from
  {
    if from < stop {
      var l1, tmp1 := l[from := l[from][Digit(now, from) := []]], tmp + l[from][Digit(now, from)];
      DrainMember(l1, tmp1, now, from + 1, stop, e, w, s);
      assert forall v :: from < v < stop ==> l1[v] == l[v];
    }
  }

  ghost predicate Drains(now: nat, w: nat, s: nat)
    requires w < WHEELS
  {
    now % Span(w) == Span(w) - 1 && Digit(now, w) == s
  }

  /** The tick takes `e` out of some slot. */
  ghost predicate Leaves(l: Lists, now: nat, e: Entry) {
    exists v :: 0 <= v < WHEELS && Drains(now, v, Digit(now, v)) && e in l[v][Digit(now, v)]
  }

  /** What one tick does to an entry, list by list. */
  lemma TickMember(l: Lists, now: nat, queued: seq<Entry>, canceled: set<nat>, e: Entry, w: nat, s: nat)
    requires now < TICKS && w < WHEELS && s < SLOTS
    ensures var p := AfterTick(l, now, queued, canceled);
            && (e in p.lists[w][s] <==>
                  || (e in l[w][s] && !Drains(now, w, s))
                  || (Leaves(l, now, e) && FateOf(e, now, canceled) == File(w, s))
                  || (e in queued && FateOf(e, Next(now), canceled) == File(w, s)))
            && (e in p.fired <==>
                  || (Leaves(l, now, e) && FateOf(e, now, canceled) == Fire)
                  || (e in queued && FateOf(e, Next(now), canceled) == Fire))
            && (e in p.dropped <==>
                  || (Leaves(l, now, e) && FateOf(e, now, canceled) == Drop)
                  || (e in queued && FateOf(e, Next(now), canceled) == Drop))
  {
    forall v | 0 <= v < WHEELS
      ensures Xor(Next(now), now) > 0 && ChangedWheels(now) <= WHEELS
      ensures v < ChangedWheels(now) <==> Drains(now, v, Digit(now, v))
    {
      ChangedWheelsMeaning(now, v);
    }
    ChangedWheelsMeaning(now, 0);
    var (drained, tmp) := DrainFrom(l, [], now, 0, ChangedWheels(now));
    DrainMember(l, [], now, 0, ChangedWheels(now), e, w, s);
    var p := FileAll(Progress(drained, [], []), tmp, now, canceled);
    FileAllMember(Progress(drained, [], []), tmp, now, canceled, e, w, s);
    FileAllMember(p, queued, Next(now), canceled, e, w, s);
  }

  /** An entry that sits in one slot. */
  lemma FiledEntryTick(l: Lists, now: nat, queued: seq<Entry>, canceled: set<nat>, e: Entry, w: nat, s: nat)
    requires now < TICKS && At(l, e, w, s) && e !in queued && e.id !in canceled
    ensures var p := AfterTick(l, now, queued, canceled);
            if !Drains(now, w, s) then At(p.lists, e, w, s) && e !in p.fired
            else match FateOf(e, now, canceled)
                 case File(v, r) => At(p.lists, e, v, r) && e !in p.fired
                 case _ => Nowhere(p.lists, e) && e in p.fired
  {
    var p := AfterTick(l, now, queued, canceled);
    assert Leaves(l, now, e) <==> Drains(now, w, s);
    forall v, r | 0 <= v < WHEELS && 0 <= r < SLOTS
      ensures e in p.lists[v][r] <==>
                if Drains(now, w, s) then FateOf(e, now, canceled) == File(v, r) else v == w && r == s
    {
      TickMember(l, now, queued, canceled, e, v, r);
    }
    TickMember(l, now, queued, canceled, e, w, s);
  }

  /** An entry that is not filed: it stays away, or is filed from the queue. */
  lemma AbsentEntryTick(l: Lists, now: nat, queued: seq<Entry>, canceled: set<nat>, e: Entry)
    requires now < TICKS && Nowhere(l, e) && e.id !in canceled
    ensures var p := AfterTick(l, now, queued, canceled);
            if e !in queued then Nowhere(p.lists, e) && e !in p.fired
            else match FateOf(e, Next(now), canceled)
                 case File(v, r) => At(p.lists, e, v, r) && e !in p.fired
                 case _ => Nowhere(p.lists, e) && e in p.fired
  {
    var p := AfterTick(l, now, queued, canceled);
    assert !Leaves(l, now, e);
    forall v, r | 0 <= v < WHEELS && 0 <= r < SLOTS
      ensures e in p.lists[v][r] <==> e in queued && FateOf(e, Next(now), canceled) == File(v, r)
    {
      TickMember(l, now, queued, canceled, e, v, r);
    }
    TickMember(l, now, queued, canceled, e, 0, 0);
  }

  // ---------------------------------------------------------------- signaled, dropped or neither

  /** No entry is signaled before its deadline: whatever is canceled, a tick signals only entries whose
      deadline is its old time, and requests from its queue whose deadline is its new time. */
  lemma NeverEarly(l: Lists, now: nat, queued: seq<Entry>, canceled: set<nat>, e: Entry)
    requires now < TICKS
    ensures e in AfterTick(l, now, queued, canceled).fired ==>
              e.end % TICKS == now || (e in queued && e.end % TICKS == Next(now))
  {
    TickMember(l, now, queued, canceled, e, 0, 0);
    MinusZero(e.end, now);
    MinusZero(e.end, Next(now));
  }

  /** Only canceled entries are dropped. */
  lemma OnlyCanceledDropped(l: Lists, now: nat, queued: seq<Entry>, canceled: set<nat>, e: Entry)
    requires now < TICKS
    ensures e in AfterTick(l, now, queued, canceled).dropped ==> e.id in canceled
  {
    TickMember(l, now, queued, canceled, e, 0, 0);
  }

  /** A canceled entry that is filed: it stays until its slot is drained. Then it is signaled if it is due,
      else dropped, and in both cases it is gone. */
  lemma CanceledTick(l: Lists, now: nat, queued: seq<Entry>, canceled: set<nat>, e: Entry, w: nat, s: nat)
    requires now < TICKS && At(l, e, w, s) && e !in queued && e.id in canceled
    ensures var p := AfterTick(l, now, queued, canceled);
      if !Drains(now, w, s) then At(p.lists, e, w, s) && e !in p.fired && e !in p.dropped
      else Nowhere(p.lists, e) && (e in p.fired <==> e.end % TICKS == now) && (e in p.dropped <==> e.end % TICKS != now)
  {
    var p := AfterTick(l, now, queued, canceled);
    assert Leaves(l, now, e) <==> Drains(now, w, s);
    MinusZero(e.end, now);
    forall v, r | 0 <= v < WHEELS && 0 <= r < SLOTS
      ensures e in p.lists[v][r] <==> !Drains(now, w, s) && v == w && r == s
    {
      TickMember(l, now, queued, canceled, e, v, r);
    }
    TickMember(l, now, queued, canceled, e, w, s);
  }

  /** A request that is canceled before the tick finds it in the queue: signaled if it is due, else dropped. */
  lemma CanceledRequest(l: Lists, now: nat, queued: seq<Entry>, canceled: set<nat>, e: Entry)
    requires now < TICKS && Nowhere(l, e) && e.id in canceled
    ensures var p := AfterTick(l, now, queued, canceled);
      && Nowhere(p.lists, e)
      && (e in p.fired <==> e in queued && e.end % TICKS == Next(now))
      && (e in p.dropped <==> e in queued && e.end % TICKS != Next(now))
  {
    var p := AfterTick(l, now, queued, canceled);
    assert !Leaves(l, now, e);
    MinusZero(e.end, Next(now));
    forall v, r | 0 <= v < WHEELS && 0 <= r < SLOTS ensures e !in p.lists[v][r] {
      TickMember(l, now, queued, canceled, e, v, r);
    }
    TickMember(l, now, queued, canceled, e, 0, 0);
  }

  // ---------------------------------------------------------------- absolute time

  /** The tick in which wheel `w` gives up the slot of an entry with deadline `d`. */
  function Turn(w: nat, d: nat): int
    requires w < WHEELS
  {
    if w == 0 then d else d / Span(w) * Span(w) - 1
  }

  lemma MinusAbsolute(d: nat, a: nat)
    requires a <= d < a + TICKS
    ensures Minus(d % TICKS, a % TICKS) == d - a
  {
  }

  /** Digits do not notice the wrap of the counter. */
  lemma DigitOfWrapped(t: nat, w: nat)
    requires w < WHEELS
    ensures t % TICKS % Span(w) == t % Span(w)
    ensures (t % TICKS / Span(w)) % SLOTS == t / Span(w) % SLOTS
  {
    var k, r := t / TICKS, t % TICKS;
    assert t == TICKS * k + r;
    if w == 1 {
      WrappedDigit(t, k, r, 0x100, 0x1_0000);
    } else if w == 2 {
      WrappedDigit(t, k, r, 0x1_0000, 0x100);
    } else if w == 3 {
      WrappedDigit(t, k, r, 0x100_0000, 1);
    }
  }

  lemma WrappedDigit(t: nat, k: nat, r: nat, p: nat, q: nat)
    requires p > 0 && t == p * (256 * q) * k + r
    ensures r % p == t % p && (r / p) % 256 == t / p % 256
  {
    var c := 256 * q * k;
    assert p * (256 * q) * k == p * c;
    assert t == p * (c + r / p) + r % p;
    ModUnique(t, p, c + r / p, r % p);
    assert c + r / p == 256 * (q * k + r / p / 256) + r / p % 256;
    ModUnique(c + r / p, 256, q * k + r / p / 256, r / p % 256);
  }

  lemma TurnShape(w: nat, d: nat)
    requires 0 < w < WHEELS && Turn(w, d) >= 0
    ensures Turn(w, d) % Span(w) == Span(w) - 1 && Turn(w, d) / Span(w) == d / Span(w) - 1
  {
    var q := d / Span(w) - 1;
    assert Turn(w, d) == Span(w) * q + (Span(w) - 1);
    ModUnique(Turn(w, d), Span(w), q, Span(w) - 1);
  }

  lemma PredecessorMod(x: int, y: int)
    requires x % 256 == y % 256
    ensures (x - 1) % 256 == (y - 1) % 256
  {
    var r := x % 256;
    if r == 0 {
      ModUnique(x - 1, 256, x / 256 - 1, 255);
      ModUnique(y - 1, 256, y / 256 - 1, 255);
    } else {
      ModUnique(x - 1, 256, x / 256, r - 1);
      ModUnique(y - 1, 256, y / 256, r - 1);
    }
  }

  lemma SlotOfTurn(w: nat, d: nat)
    requires w < WHEELS && Turn(w, d) >= 0
    ensures SlotOf(d % TICKS, w) == Digit(Turn(w, d), w)
    ensures Turn(w, d) % Span(w) == Span(w) - 1
  {
    var p := Span(w);
    DigitOfWrapped(d, w);
    if w > 0 {
      TurnShape(w, d);
      PredecessorMod(d % TICKS / p, d / p);
    }
  }

  /** Between two turns of a slot the wheel passes through all other slots. */
  lemma DrainsAtTurn(a: nat, x: nat, w: nat)
    requires w < WHEELS && x % Span(w) == Span(w) - 1 && a <= x < a + Span(w + 1)
    ensures Drains(a % TICKS, w, Digit(x, w)) <==> a == x
  {
    DigitOfWrapped(a, w);
    if Drains(a % TICKS, w, Digit(x, w)) {
      SameSlot(a, x, Span(w));
    }
  }

  lemma SameSlot(a: nat, x: nat, p: nat)
    requires p > 0 && a % p == x % p && a / p % 256 == x / p % 256 && a <= x < a + 256 * p
    ensures a == x
  {
    var d: int := x / p - a / p;
    assert x - a == p * d;
    assert d >= 256 ==> p * d >= p * 256;
    assert d <= -1 ==> p * d <= -1 * p;
  }

  /** A newly filed entry has its turn ahead of it. */
  lemma FiledAhead(a: nat, d: nat)
    requires 0 < d - a < TICKS
    ensures WheelOf(d - a) < WHEELS
    ensures a <= Turn(WheelOf(d - a), d) < a + Span(WheelOf(d - a) + 1)
  {
    WheelBounds(d - a);
  }

  /** An entry that leaves an upper wheel goes to a lower one, whose turn is still to come, unless its
      deadline ends in 255. */
  lemma RefiledAhead(d: nat, w: nat)
    requires 0 < w < WHEELS && Turn(w, d) >= 0 && d % SLOTS != 255
    ensures var a := Turn(w, d);
            && 0 < d - a < TICKS && WheelOf(d - a) < WHEELS
            && a < Turn(WheelOf(d - a), d) < a + 1 + Span(WheelOf(d - a) + 1)
  {
    WheelBounds(d - Turn(w, d));
  }

  // ---------------------------------------------------------------- runs

  /** What a tick finds: the requests in its queue and the canceled entries. */
  datatype Round = Round(queued: seq<Entry>, canceled: set<nat>)

  function ListsAfter(l: Lists, now: nat, rounds: seq<Round>, i: nat): Lists
    requires i <= |rounds|
  {
    if i == 0 then l
    else AfterTick(ListsAfter(l, now, rounds, i - 1), (now + (i - 1)) % TICKS,
                   rounds[i - 1].queued, rounds[i - 1].canceled).lists
  }

  function FiredIn(l: Lists, now: nat, rounds: seq<Round>, i: nat): seq<Entry>
    requires i < |rounds|
  {
    AfterTick(ListsAfter(l, now, rounds, i), (now + i) % TICKS, rounds[i].queued, rounds[i].canceled).fired
  }

  function DroppedIn(l: Lists, now: nat, rounds: seq<Round>, i: nat): seq<Entry>
    requires i < |rounds|
  {
    AfterTick(ListsAfter(l, now, rounds, i), (now + i) % TICKS, rounds[i].queued, rounds[i].canceled).dropped
  }

  /** From round `i` on the request `e` is canceled and not made again. */
  ghost predicate CanceledFrom(rounds: seq<Round>, e: Entry, i: nat) {
    forall k :: i <= k < |rounds| ==> e.id in rounds[k].canceled && e !in rounds[k].queued
  }

  ghost predicate DrainedIn(now: nat, w: nat, s: nat, k: nat)
    requires w < WHEELS
  {
    Drains((now + k) % TICKS, w, s)
  }

  /** The slot of the entry is drained in no round from `i` up to `j`. */
  ghost predicate Undrained(now: nat, w: nat, s: nat, i: nat, j: nat)
    requires w < WHEELS
  {
    forall k: nat :: i <= k < j ==> !DrainedIn(now, w, s, k)
  }

  /** One round of a canceled entry that is filed. */
  lemma CanceledRound(l: Lists, now: nat, rounds: seq<Round>, e: Entry, w: nat, s: nat, k: nat)
    requires k < |rounds| && At(ListsAfter(l, now, rounds, k), e, w, s)
    requires e.id in rounds[k].canceled && e !in rounds[k].queued
    ensures if !DrainedIn(now, w, s, k)
      then At(ListsAfter(l, now, rounds, k + 1), e, w, s) && e !in FiredIn(l, now, rounds, k) && e !in DroppedIn(l, now, rounds, k)
      else Nowhere(ListsAfter(l, now, rounds, k + 1), e)
           && (e in FiredIn(l, now, rounds, k) <==> e.end % TICKS == (now + k) % TICKS)
           && (e in DroppedIn(l, now, rounds, k) <==> e.end % TICKS != (now + k) % TICKS)
  {
    var r := rounds[k];
    CanceledTick(ListsAfter(l, now, rounds, k), (now + k) % TICKS, r.queued, r.canceled, e, w, s);
  }

  /** One round of a canceled entry that is gone. */
  lemma GoneRound(l: Lists, now: nat, rounds: seq<Round>, e: Entry, k: nat)
    requires k < |rounds| && Nowhere(ListsAfter(l, now, rounds, k), e)
    requires e.id in rounds[k].canceled && e !in rounds[k].queued
    ensures Nowhere(ListsAfter(l, now, rounds, k + 1), e) && e !in FiredIn(l, now, rounds, k) && e !in DroppedIn(l, now, rounds, k)
  {
    var r := rounds[k];
    CanceledRequest(ListsAfter(l, now, rounds, k), (now + k) % TICKS, r.queued, r.canceled, e);
  }

  lemma {:induction false} CanceledWaits(l: Lists, now: nat, rounds: seq<Round>, e: Entry, w: nat, s: nat, i: nat, j: nat)
    requires i <= j <= |rounds| && At(ListsAfter(l, now, rounds, i), e, w, s) && CanceledFrom(rounds, e, i)
    requires Undrained(now, w, s, i, j)
    ensures At(ListsAfter(l, now, rounds, j), e, w, s)
  {
    if i < j {
      CanceledWaits(l, now, rounds, e, w, s, i, j - 1);
      assert !DrainedIn(now, w, s, j - 1);
      CanceledRound(l, now, rounds, e, w, s, j - 1);
    }
  }

  lemma {:induction false} GoneForGood(l: Lists, now: nat, rounds: seq<Round>, e: Entry, i: nat, j: nat)
    requires i <= j <= |rounds| && Nowhere(ListsAfter(l, now, rounds, i), e) && CanceledFrom(rounds, e, i)
    ensures Nowhere(ListsAfter(l, now, rounds, j), e)
  {
    if i < j {
      GoneForGood(l, now, rounds, e, i, j - 1);
      GoneRound(l, now, rounds, e, j - 1);
    }
  }

  /** In every tick of every run, whatever is canceled, only entries that are due are signaled. */
  lemma OnlyDueFire(l: Lists, now: nat, rounds: seq<Round>, e: Entry, i: nat)
    requires i < |rounds| && e in FiredIn(l, now, rounds, i)
    ensures || e.end % TICKS == (now + i) % TICKS
            || (e in rounds[i].queued && e.end % TICKS == Next((now + i) % TICKS))
  {
    NeverEarly(ListsAfter(l, now, rounds, i), (now + i) % TICKS, rounds[i].queued, rounds[i].canceled, e);
  }

  /** An entry that is canceled while it is filed is signaled in no tick before its slot is drained. In the
      round `j` that drains it, it is dropped unless that is its deadline. After that it is gone for good. */
  lemma CanceledIsDropped(l: Lists, now: nat, rounds: seq<Round>, e: Entry, w: nat, s: nat, i: nat, j: nat, k: nat)
    requires i <= j < |rounds| && i <= k < |rounds| && At(ListsAfter(l, now, rounds, i), e, w, s) && CanceledFrom(rounds, e, i)
    requires Undrained(now, w, s, i, j) && DrainedIn(now, w, s, j)
    ensures e in DroppedIn(l, now, rounds, k) <==> k == j && e.end % TICKS != (now + j) % TICKS
    ensures e in FiredIn(l, now, rounds, k) <==> k == j && e.end % TICKS == (now + j) % TICKS
  {
    if k <= j {
      CanceledWaits(l, now, rounds, e, w, s, i, k);
      CanceledRound(l, now, rounds, e, w, s, k);
    } else {
      CanceledWaits(l, now, rounds, e, w, s, i, j);
      CanceledRound(l, now, rounds, e, w, s, j);
      GoneForGood(l, now, rounds, e, j + 1, k);
      GoneRound(l, now, rounds, e, k);
    }
  }

  lemma FirstRound(l: Lists, now: nat, rounds: seq<Round>)
    requires now < TICKS && |rounds| > 0
    ensures ListsAfter(l, now, rounds, 1) == AfterTick(l, now, rounds[0].queued, rounds[0].canceled).lists
  {
    assert ListsAfter(l, now, rounds, 0) == l && (now + 0) % TICKS == now;
  }

  /** `e` was filed with deadline `d`, the timer stands at `a` and the turn of its slot is to come. */
  ghost predicate OnTrack(l: Lists, e: Entry, a: nat, d: nat, w: nat) {
    w < WHEELS && a <= Turn(w, d) < a + Span(w + 1) && At(l, e, w, Digit(Turn(w, d), w))
  }

  lemma FileOnTrack(l: Lists, e: Entry, a: nat, d: nat)
    requires 0 < d - a < TICKS && e.end == d % TICKS
    requires FateOf(e, a % TICKS, {}).File? ==>
               At(l, e, FateOf(e, a % TICKS, {}).wheel, FateOf(e, a % TICKS, {}).slot)
    ensures OnTrack(l, e, a, d, WheelOf(d - a))
  {
    MinusAbsolute(d, a);
    FiledAhead(a, d);
    SlotOfTurn(WheelOf(d - a), d);
  }

  /** One tick of an entry that is on track: it fires at its deadline and stays on track before. */
  lemma TrackTick(l: Lists, e: Entry, a: nat, d: nat, w: nat, queued: seq<Entry>, canceled: set<nat>) returns (v: nat)
    requires OnTrack(l, e, a, d, w) && e.end == d % TICKS && a <= d < a + TICKS
    requires w > 0 ==> d % SLOTS != 255
    requires e !in queued && e.id !in canceled
    ensures var p := AfterTick(l, a % TICKS, queued, canceled);
            if a == d then Nowhere(p.lists, e) && e in p.fired
            else OnTrack(p.lists, e, a + 1, d, v) && e !in p.fired && (v > 0 ==> d % SLOTS != 255)
  {
    var s := Digit(Turn(w, d), w);
    SlotOfTurn(w, d);
    DrainsAtTurn(a, Turn(w, d), w);
    FiledEntryTick(l, a % TICKS, queued, canceled, e, w, s);
    MinusAbsolute(d, a);
    if a != Turn(w, d) {
      v := w;
    } else if w == 0 {
      v := 0;
    } else {
      RefiledAhead(d, w);
      v := WheelOf(d - a);
      SlotOfTurn(v, d);
    }
  }

  // Deadlines that end in 255.

  lemma LowDigitsAllOnes(t: nat, w: nat)
    requires 0 < w < WHEELS && t % Span(w) == Span(w) - 1
    ensures t % SLOTS == 255
  {
  }

  lemma DelayBetweenOnes(end: nat, now: nat)
    requires end < TICKS && now < TICKS && end % SLOTS == 255 && now % SLOTS == 255 && end != now
    ensures Minus(end, now) >= SLOTS
  {
  }

  /** An entry of an upper wheel whose deadline ends in 255 is never signaled by a tick: when its slot
      is drained it goes back to an upper wheel. */
  lemma StuckTick(l: Lists, e: Entry, now: nat, w: nat, queued: seq<Entry>, canceled: set<nat>) returns (v: nat)
    requires now < TICKS && e.end < TICKS && e.end % SLOTS == 255
    requires 0 < w < WHEELS && At(l, e, w, SlotOf(e.end, w))
    requires e !in queued && e.id !in canceled
    ensures var p := AfterTick(l, now, queued, canceled);
            e !in p.fired && 0 < v < WHEELS && At(p.lists, e, v, SlotOf(e.end, v))
  {
    v := w;
    FiledEntryTick(l, now, queued, canceled, e, w, SlotOf(e.end, w));
    if Drains(now, w, SlotOf(e.end, w)) {
      LowDigitsAllOnes(now, w);
      DelayBetweenOnes(e.end, now);
      WheelBounds(Minus(e.end, now));
      v := WheelOf(Minus(e.end, now));
    }
  }

  /** The request is made once, in the queue of round 0, and never canceled. */
  ghost predicate RequestedOnce(rounds: seq<Round>, e: Entry) {
    && |rounds| > 0 && e in rounds[0].queued
    && (forall i :: 0 < i < |rounds| ==> e !in rounds[i].queued)
    && (forall i :: 0 <= i < |rounds| ==> e.id !in rounds[i].canceled)
  }

  /** The deadlines that the wheel honours, given the delay with which the entry is filed. */
  predicate Honoured(delay: nat, end: nat) {
    delay < SLOTS || end % SLOTS != 255
  }

  lemma FateIgnoresOthers(e: Entry, now: nat, canceled: set<nat>)
    requires e.id !in canceled
    ensures FateOf(e, now, canceled) == FateOf(e, now, {})
  {
  }

  /** `d` is the absolute deadline of `e`, which is filed when the timer stands at `a`. */
  ghost predicate HonouredDeadline(e: Entry, a: nat, d: nat) {
    a < d < a + TICKS && d % TICKS == e.end && (d - a < SLOTS || d % SLOTS != 255)
  }

  lemma HonouredStart(l: Lists, now: nat, rounds: seq<Round>, e: Entry, d: nat) returns (w: nat)
    requires now < TICKS && Nowhere(l, e) && RequestedOnce(rounds, e) && HonouredDeadline(e, now + 1, d)
    ensures OnTrack(ListsAfter(l, now, rounds, 1), e, now + 1, d, w) && (w > 0 ==> d % SLOTS != 255)
  {
    FirstRound(l, now, rounds);
    AbsentEntryTick(l, now, rounds[0].queued, rounds[0].canceled, e);
    FateIgnoresOthers(e, Next(now), rounds[0].canceled);
    MinusAbsolute(d, now + 1);
    FileOnTrack(ListsAfter(l, now, rounds, 1), e, now + 1, d);
    w := WheelOf(d - (now + 1));
    WheelBounds(d - (now + 1));
  }

  /** Before round `i`, `i` > 0: on track until the deadline, gone after it. */
  lemma {:induction false} HonouredRun(l: Lists, now: nat, rounds: seq<Round>, e: Entry, d: nat, i: nat)
      returns (w: nat)
    requires now < TICKS && Nowhere(l, e) && RequestedOnce(rounds, e) && HonouredDeadline(e, now + 1, d)
    requires 0 < i <= |rounds|
    ensures if now + i <= d
            then OnTrack(ListsAfter(l, now, rounds, i), e, now + i, d, w) && (w > 0 ==> d % SLOTS != 255)
            else Nowhere(ListsAfter(l, now, rounds, i), e)
    decreases i
  {
    if i == 1 {
      w := HonouredStart(l, now, rounds, e, d);
    } else {
      var r := rounds[i - 1];
      var v := HonouredRun(l, now, rounds, e, d, i - 1);
      w := HonouredStep(ListsAfter(l, now, rounds, i - 1), e, now + (i - 1), d, v, r.queued, r.canceled);
    }
  }

  /** One round of that. */
  lemma HonouredStep(l: Lists, e: Entry, a: nat, d: nat, v: nat, queued: seq<Entry>, canceled: set<nat>) returns (w: nat)
    requires e.end == d % TICKS && d < a + TICKS && e !in queued && e.id !in canceled
    requires if a <= d then OnTrack(l, e, a, d, v) && (v > 0 ==> d % SLOTS != 255) else Nowhere(l, e)
    ensures var after := AfterTick(l, a % TICKS, queued, canceled).lists;
      if a + 1 <= d then OnTrack(after, e, a + 1, d, w) && (w > 0 ==> d % SLOTS != 255) else Nowhere(after, e)
  {
    w := 0;
    if a <= d {
      w := TrackTick(l, e, a, d, v, queued, canceled);
    } else {
      AbsentEntryTick(l, a % TICKS, queued, canceled, e);
    }
  }

  /** An honoured deadline is met, and the entry is signaled in no other tick. */
  lemma HonouredFires(l: Lists, now: nat, rounds: seq<Round>, e: Entry, d: nat, i: nat)
    requires now < TICKS && Nowhere(l, e) && RequestedOnce(rounds, e) && HonouredDeadline(e, now + 1, d)
    requires 0 < i < |rounds|
    ensures e in FiredIn(l, now, rounds, i) <==> now + i == d
  {
    var r := rounds[i];
    var w := HonouredRun(l, now, rounds, e, d, i);
    if now + i <= d {
      var v := TrackTick(ListsAfter(l, now, rounds, i), e, now + i, d, w, r.queued, r.canceled);
    } else {
      AbsentEntryTick(ListsAfter(l, now, rounds, i), (now + i) % TICKS, r.queued, r.canceled, e);
    }
  }

  lemma DeadlineOfDelay(end: nat, a: nat)
    requires end < TICKS
    ensures (a + Minus(end, a % TICKS)) % TICKS == end
    ensures (a + Minus(end, a % TICKS)) % SLOTS == end % SLOTS
  {
    var q := a / TICKS;
    var k := if a % TICKS <= end then q else q + 1;
    var x := a + Minus(end, a % TICKS);
    MinusIs(end, a % TICKS);
    assert x == TICKS * k + end;
    ModUnique(x, TICKS, k, end);
    ModUnique(x, SLOTS, (TICKS / SLOTS) * k + end / SLOTS, end % SLOTS);
  }

  lemma MinusIs(x: nat, y: nat)
    requires x < TICKS && y < TICKS
    ensures Minus(x, y) == if y <= x then x - y else x - y + TICKS
  {
  }

  lemma {:induction false} StuckRun(l: Lists, now: nat, rounds: seq<Round>, e: Entry, i: nat) returns (w: nat)
    requires now < TICKS && e.end < TICKS && Nowhere(l, e) && RequestedOnce(rounds, e) && 0 < i <= |rounds|
    requires !Honoured(Minus(e.end, (now + 1) % TICKS), e.end)
    ensures 0 < w < WHEELS && At(ListsAfter(l, now, rounds, i), e, w, SlotOf(e.end, w))
    decreases i
  {
    var r := rounds[i - 1];
    if i == 1 {
      var delay := Minus(e.end, (now + 1) % TICKS);
      FirstRound(l, now, rounds);
      AbsentEntryTick(l, now, r.queued, r.canceled, e);
      WheelBounds(delay);
      w := WheelOf(delay);
    } else {
      var v := StuckRun(l, now, rounds, e, i - 1);
      w := StuckTick(ListsAfter(l, now, rounds, i - 1), e, (now + (i - 1)) % TICKS, v, r.queued, r.canceled);
    }
  }

  lemma StuckNeverFires(l: Lists, now: nat, rounds: seq<Round>, e: Entry, i: nat)
    requires now < TICKS && e.end < TICKS && Nowhere(l, e) && RequestedOnce(rounds, e) && 0 < i < |rounds|
    requires !Honoured(Minus(e.end, (now + 1) % TICKS), e.end)
    ensures e !in FiredIn(l, now, rounds, i)
  {
    var w := StuckRun(l, now, rounds, e, i);
    var v := StuckTick(ListsAfter(l, now, rounds, i), e, (now + i) % TICKS, w, rounds[i].queued, rounds[i].canceled);
  }

  lemma FiredInFirstRound(l: Lists, now: nat, rounds: seq<Round>, e: Entry)
    requires now < TICKS && Nowhere(l, e) && RequestedOnce(rounds, e)
    ensures e in FiredIn(l, now, rounds, 0) <==> Minus(e.end, (now + 1) % TICKS) == 0
  {
    assert ListsAfter(l, now, rounds, 0) == l && (now + 0) % TICKS == now;
    AbsentEntryTick(l, now, rounds[0].queued, rounds[0].canceled, e);
  }

  lemma {:induction false} FiredAtOnce(l: Lists, now: nat, rounds: seq<Round>, e: Entry, i: nat)
    requires now < TICKS && e.end < TICKS && Nowhere(l, e) && RequestedOnce(rounds, e) && 0 < i <= |rounds|
    requires Minus(e.end, (now + 1) % TICKS) == 0
    ensures Nowhere(ListsAfter(l, now, rounds, i), e)
    decreases i
  {
    var r := rounds[i - 1];
    if i == 1 {
      FirstRound(l, now, rounds);
      AbsentEntryTick(l, now, r.queued, r.canceled, e);
    } else {
      FiredAtOnce(l, now, rounds, e, i - 1);
      AbsentEntryTick(ListsAfter(l, now, rounds, i - 1), (now + (i - 1)) % TICKS, r.queued, r.canceled, e);
    }
  }

  lemma GoneAfterFirstRound(l: Lists, now: nat, rounds: seq<Round>, e: Entry, i: nat)
    requires now < TICKS && e.end < TICKS && Nowhere(l, e) && RequestedOnce(rounds, e) && 0 < i < |rounds|
    requires Minus(e.end, (now + 1) % TICKS) == 0
    ensures e !in FiredIn(l, now, rounds, i)
  {
    FiredAtOnce(l, now, rounds, e, i);
    AbsentEntryTick(ListsAfter(l, now, rounds, i), (now + i) % TICKS, rounds[i].queued, rounds[i].canceled, e);
  }

  /** The wheel against the flat list. An uncanceled request that is filed with delay d is signaled at once
      if d is 0. Otherwise it is signaled in the tick whose old time is its deadline, in no other tick, if its
      delay is below 256 or its deadline does not end in 255; and in no tick at all if not. */
  lemma SignaledExactlyAtDeadline(l: Lists, now: nat, rounds: seq<Round>, e: Entry, i: nat)
    requires now < TICKS && e.end < TICKS && Nowhere(l, e) && RequestedOnce(rounds, e) && i < |rounds|
    ensures var delay := Minus(e.end, (now + 1) % TICKS);
            e in FiredIn(l, now, rounds, i) <==>
              if delay == 0 then i == 0 else i == delay + 1 && Honoured(delay, e.end)
  {
    var delay := Minus(e.end, (now + 1) % TICKS);
    if i == 0 {
      FiredInFirstRound(l, now, rounds, e);
    } else if delay == 0 {
      GoneAfterFirstRound(l, now, rounds, e, i);
    } else if Honoured(delay, e.end) {
      DeadlineOfDelay(e.end, now + 1);
      HonouredFires(l, now, rounds, e, now + 1 + delay, i);
    } else {
      StuckNeverFires(l, now, rounds, e, i);
    }
  }

  lemma LateDelay(start: nat, timeout: nat, lag: nat)
    requires timeout < TICKS && lag < TICKS
    ensures var delay := Minus((start + timeout) % TICKS, (start + lag) % TICKS);
            delay == if lag <= timeout then timeout - lag else TICKS - (lag - timeout)
  {
  }

  /** The round, counted from the tick that files it, in which a request made `lag` ticks before is signaled. */
  function LateRound(timeout: nat, lag: nat): nat
    requires timeout < TICKS && lag < TICKS
  {
    if lag == timeout then 0 else if lag < timeout then timeout - lag + 1 else TICKS - (lag - timeout) + 1
  }

  /** A request made at tick `start` and filed by the tick that reads `start + lag` is signaled in that tick
      exactly if `lag` is the timeout. Before its deadline the wheel still aims at it. After its deadline the
      32-bit difference wraps, and the request waits almost 2^32 ticks more. */
  lemma LateFiling(start: nat, timeout: nat, lag: nat, l: Lists, now: nat, rounds: seq<Round>, e: Entry, i: nat)
    requires timeout < TICKS && lag < TICKS && now < TICKS
    requires e.end == (start + timeout) % TICKS && (now + 1) % TICKS == (start + lag) % TICKS
    requires Nowhere(l, e) && RequestedOnce(rounds, e) && i < |rounds|
    ensures e in FiredIn(l, now, rounds, i) <==>
              i == LateRound(timeout, lag) && (i == 0 || Honoured(i - 1, e.end))
  {
    LateDelay(start, timeout, lag);
    SignaledExactlyAtDeadline(l, now, rounds, e, i);
  }

  /** A request made at tick 0 for one tick later, filed by the tick that reads 2: the tick that signals it
      is the one 2^32 rounds on. */
  lemma LateByOneTick(l: Lists, rounds: seq<Round>, i: nat)
    requires var e := Entry(0, 1); Nowhere(l, e) && RequestedOnce(rounds, e) && i < |rounds|
    ensures Entry(0, 1) in FiredIn(l, 1, rounds, i) <==> i == TICKS
  {
    LateFiling(0, 1, 2, l, 1, rounds, Entry(0, 1), i);
  }

  /** A sleep of 256 ticks that starts when the clock is about to read 255: no tick ever signals it. */
  lemma SleepThatNeverEnds(l: Lists, rounds: seq<Round>, i: nat)
    requires var e := Entry(0, 511); Nowhere(l, e) && RequestedOnce(rounds, e) && i < |rounds|
    ensures Entry(0, 511) !in FiredIn(l, 254, rounds, i)
  {
    MinusIs(511, 255);
    assert (254 + 1) % TICKS == 255 && !Honoured(256, 511);
    SignaledExactlyAtDeadline(l, 254, rounds, Entry(0, 511), i);
  }
}
