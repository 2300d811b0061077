/** The timer: requests are queued by tasks and filed, drained, re-filed and signaled by the tick. */
module Timer {
  import opened TimerWheel

  // ---------------------------------------------------------------- what a tick computes

  /** The slot lists together with the entries signaled and dropped so far. */
  datatype Progress = Progress(lists: Lists, fired: seq<Entry>, dropped: seq<Entry>)

  function PutLast(l: Lists, w: nat, s: nat, e: Entry): Lists
    requires w < WHEELS && s < SLOTS
  {
    l[w := l[w][s := l[w][s] + [e]]]
  }

  /** prs_timer_queue_internal for one entry. */
  function FileOne(p: Progress, e: Entry, now: nat, canceled: set<nat>): Progress {
    match FateOf(e, now, canceled)
    case Fire => p.(fired := p.fired + [e])
    case Drop => p.(dropped := p.dropped + [e])
    case File(w, s) => p.(lists := PutLast(p.lists, w, s, e))
  }

  function FileAll(p: Progress, es: seq<Entry>, now: nat, canceled: set<nat>): Progress
    decreases |es|
  {
    if es == [] then p else FileAll(FileOne(p, es[0], now, canceled), es[1..], now, canceled)
  }

  /** Lists and drained entries after wheels `w` to `stop` gave up their slot of `now`. */
  function DrainFrom(l: Lists, tmp: seq<Entry>, now: nat, w: nat, stop: nat): (Lists, seq<Entry>)
    requires w <= stop <= WHEELS
    decreases stop - w
  {
    if w == stop then (l, tmp)
    else DrainFrom(l[w := l[w][Digit(now, w) := []]], tmp + l[w][Digit(now, w)], now, w + 1, stop)
  }

  /** A whole tick, with the requests found in the queue and the entries canceled by their owners. */
  function AfterTick(l: Lists, now: nat, queued: seq<Entry>, canceled: set<nat>): Progress
    requires now < TICKS
  {
    ChangedWheelsMeaning(now, 0);
    var (drained, tmp) := DrainFrom(l, [], now, 0, ChangedWheels(now));
    FileAll(FileAll(Progress(drained, [], []), tmp, now, canceled), queued, Next(now), canceled)
  }

  // ---------------------------------------------------------------- the timer itself

  class Wheel {
    var lists: Lists
    var tmpList: seq<Entry>
    var queued: seq<Entry>
    var now: nat
    var canceled: set<nat>
    var fired: seq<Entry>
    var dropped: seq<Entry>

    ghost predicate Valid()
      reads this
    {
      now < TICKS && tmpList == []
    }

    ghost function Current(): Progress
      reads this
    {
      Progress(lists, fired, dropped)
    }

    constructor (start: nat)
      requires start < TICKS
      ensures Valid() && now == start && queued == [] && canceled == {} && fired == [] && dropped == []
      ensures forall w, s :: 0 <= w < WHEELS && 0 <= s < SLOTS ==> lists[w][s] == []
    {
      lists := seq(WHEELS, w => seq(SLOTS, s => []));
      tmpList, queued, now, canceled, fired, dropped := [], [], start, {}, [], [];
    }

    /** prs_timer_queue: the request waits for the next tick. `clock` is the tick counter that was read. */
    method Queue(id: nat, clock: nat, timeout: nat) returns (e: Entry)
      requires Valid() && clock < TICKS
      modifies this`queued
      ensures Valid() && e == Entry(id, (clock + timeout) % TICKS) && queued == old(queued) + [e]
    {
      e := Entry(id, (clock + timeout) % TICKS);
      queued := queued + [e];
    }

    /** prs_timer_cancel: the owner gives up its reference. */
    method Cancel(e: Entry)
      requires Valid()
      modifies this`canceled
      ensures Valid() && canceled == old(canceled) + {e.id}
    {
      canceled := canceled + {e.id};
    }

    method QueueInternal(e: Entry)
      requires now < TICKS
      modifies this`lists, this`fired, this`dropped
      ensures Current() == FileOne(old(Current()), e, now, canceled)
      ensures fired == if e.end % TICKS == now then old(fired) + [e] else old(fired)
      ensures dropped == if e.end % TICKS != now && e.id in canceled then old(dropped) + [e] else old(dropped)
      ensures e.end % TICKS == now || e.id in canceled ==> lists == old(lists)
      ensures e.end % TICKS != now && e.id !in canceled ==> exists w, s :: 0 <= w < WHEELS && 0 <= s < SLOTS && e in lists[w][s]
    {
      var delay := Minus(e.end, now);
      MinusZero(e.end, now);
      if delay == 0 {
        fired := fired + [e];
        return;
      }
      if e.id in canceled {
        dropped := dropped + [e];
        return;
      }
      WheelBounds(delay);
      var wheel := Hsb(delay) / 8;
      var slot := (e.end / Span(wheel) - (if wheel == 0 then 0 else 1)) % SLOTS;
      lists := lists[wheel := lists[wheel][slot := lists[wheel][slot] + [e]]];
      assert e in lists[wheel][slot];
    }

    /** prs_timer_tick, called after the clock advanced by one. */
    method Tick()
      requires Valid()
      modifies this`lists, this`tmpList, this`queued, this`now, this`fired, this`dropped
      ensures Valid() && now == Next(old(now)) && queued == []
      ensures var p := AfterTick(old(lists), old(now), old(queued), canceled);
              lists == p.lists && fired == old(fired) + p.fired && dropped == old(dropped) + p.dropped
    {
      var next := Next(now);
      DrainWheels(next);
      FileTemporary();
      now := next;
      FileQueued();
      AfterTickShift(old(lists), old(now), old(queued), canceled, old(fired), old(dropped));
    }

    /** Empties the slot of `now` in every wheel whose digit changes. */
    method DrainWheels(next: nat)
      requires Valid() && next == Next(now)
      modifies this`lists, this`tmpList
      ensures Xor(next, now) > 0 && ChangedWheels(now) <= WHEELS
      ensures (lists, tmpList) == DrainFrom(old(lists), [], now, 0, ChangedWheels(now))
    {
      ChangedWheelsMeaning(now, 0);
      var stop := Hsb(Xor(next, now)) / 8 + 1;
      var w := 0;
      while w < stop
        invariant w <= stop <= WHEELS
        invariant DrainFrom(lists, tmpList, now, w, stop) == DrainFrom(old(lists), [], now, 0, stop)
      {
        MoveSlot(w, Digit(now, w));
        w := w + 1;
      }
    }

    /** Moves the entries of one slot, one by one, to the end of the temporary list. */
    method MoveSlot(w: nat, slot: nat)
      requires w < WHEELS && slot < SLOTS
      modifies this`lists, this`tmpList
      ensures lists == old(lists)[w := old(lists)[w][slot := []]]
      ensures tmpList == old(tmpList) + old(lists)[w][slot]
    {
      assert lists[w] == lists[w][slot := lists[w][slot]];
      assert lists == lists[w := lists[w][slot := lists[w][slot]]];
      while lists[w][slot] != []
        invariant lists == old(lists)[w := old(lists)[w][slot := lists[w][slot]]]
        invariant tmpList + lists[w][slot] == old(tmpList) + old(lists)[w][slot]
        decreases |lists[w][slot]|
      {
        var e, rest := lists[w][slot][0], lists[w][slot][1..];
        assert lists[w][slot := rest] == old(lists)[w][slot := rest];
        assert lists[w := lists[w][slot := rest]] == old(lists)[w := old(lists)[w][slot := rest]];
        lists := lists[w := lists[w][slot := rest]];
        tmpList := tmpList + [e];
      }
    }

    method FileTemporary()
      requires now < TICKS
      modifies this`lists, this`tmpList, this`fired, this`dropped
      ensures tmpList == [] && Current() == FileAll(old(Current()), old(tmpList), now, canceled)
    {
      while tmpList != []
        invariant FileAll(Current(), tmpList, now, canceled) == FileAll(old(Current()), old(tmpList), now, canceled)
        decreases |tmpList|
      {
        var e := tmpList[0];
        tmpList := tmpList[1..];
        QueueInternal(e);
      }
    }

    method FileQueued()
      requires now < TICKS
      modifies this`lists, this`queued, this`fired, this`dropped
      ensures queued == [] && Current() == FileAll(old(Current()), old(queued), now, canceled)
    {
      while queued != []
        invariant FileAll(Current(), queued, now, canceled) == FileAll(old(Current()), old(queued), now, canceled)
        decreases |queued|
      {
        var e := queued[0];
        queued := queued[1..];
        QueueInternal(e);
      }
    }
  }

  /** Filing does not look at what was signaled or dropped before. */
  lemma {:induction false} FileAllShift(p: Progress, es: seq<Entry>, now: nat, canceled: set<nat>,
                                        f: seq<Entry>, d: seq<Entry>)
    ensures var q := FileAll(p, es, now, canceled);
            FileAll(Progress(p.lists, f + p.fired, d + p.dropped), es, now, canceled)
            == Progress(q.lists, f + q.fired, d + q.dropped)
    decreases |es|
  {
    if es != [] {
      var one := FileOne(p, es[0], now, canceled);
      FileAllShift(one, es[1..], now, canceled, f, d);
      assert FileOne(Progress(p.lists, f + p.fired, d + p.dropped), es[0], now, canceled)
          == Progress(one.lists, f + one.fired, d + one.dropped) by {
        assert f + (p.fired + [es[0]]) == f + p.fired + [es[0]];
        assert d + (p.dropped + [es[0]]) == d + p.dropped + [es[0]];
      }
    }
  }

  lemma AfterTickShift(l: Lists, now: nat, queued: seq<Entry>, canceled: set<nat>, f: seq<Entry>, d: seq<Entry>)
    requires now < TICKS
    ensures Xor(Next(now), now) > 0 && ChangedWheels(now) <= WHEELS
    ensures var p := AfterTick(l, now, queued, canceled);
            var (drained, tmp) := DrainFrom(l, [], now, 0, ChangedWheels(now));
            FileAll(FileAll(Progress(drained, f, d), tmp, now, canceled), queued, Next(now), canceled)
            == Progress(p.lists, f + p.fired, d + p.dropped)
  {
    ChangedWheelsMeaning(now, 0);
    var (drained, tmp) := DrainFrom(l, [], now, 0, ChangedWheels(now));
    assert f + [] == f && d + [] == d;
    FileAllShift(Progress(drained, [], []), tmp, now, canceled, f, d);
    FileAllShift(FileAll(Progress(drained, [], []), tmp, now, canceled), queued, Next(now), canceled, f, d);
  }
}
