/** The timer wheel of prs/timer.c: four wheels of 256 slots over a 32-bit tick counter. */
module TimerWheel {
  import opened Common

  const TICKS: nat := 0x1_0000_0000
  const WHEELS := 4
  const SLOTS := 256

  /** A timeout request: the tick at which it should expire, as a 32-bit value. */
  datatype Entry = Entry(id: nat, end: nat)

  type Lists = l: seq<seq<seq<Entry>>> | |l| == WHEELS && forall w :: 0 <= w < WHEELS ==> |l[w]| == SLOTS
    witness seq(WHEELS, w => seq(SLOTS, s => []))

  /** 256 to the power of `w`. */
  function Span(w: nat): (p: nat)
    requires w <= WHEELS
  {
    if w == 0 then 1 else if w == 1 then 0x100 else if w == 2 then 0x1_0000 else if w == 3 then 0x100_0000
    else 0x1_0000_0000
  }

  /** Index of the highest set bit. */
  function Hsb(x: nat): nat
    requires x > 0
  {
    if x == 1 then 0 else 1 + Hsb(x / 2)
  }

  function Xor(a: nat, b: nat): nat
    decreases a + b
  {
    if a == 0 && b == 0 then 0 else (if a % 2 == b % 2 then 0 else 1) + 2 * Xor(a / 2, b / 2)
  }

  /** 32-bit subtraction and increment of ticks. */
  function Minus(a: nat, b: nat): nat {
    (a - b) % TICKS
  }

  function Next(now: nat): nat {
    (now + 1) % TICKS
  }

  function Digit(t: nat, w: nat): nat
    requires w < WHEELS
  {
    t / Span(w) % SLOTS
  }

  /** What happens to an entry that is filed while the timer stands at `now`. */
  datatype Fate = Fire | Drop | File(wheel: nat, slot: nat)

  function WheelOf(delay: nat): nat
    requires 0 < delay
  {
    Hsb(delay) / 8
  }

  function SlotOf(end: nat, w: nat): nat
    requires w < WHEELS
  {
    (end / Span(w) - (if w == 0 then 0 else 1)) % SLOTS
  }

  function FateOf(e: Entry, now: nat, canceled: set<nat>): (f: Fate)
    ensures f.File? ==> f.wheel < WHEELS && f.slot < SLOTS
  {
    var delay := Minus(e.end, now);
    if delay == 0 then Fire
    else if e.id in canceled then Drop
    else
      WheelBounds(delay);
      File(WheelOf(delay), SlotOf(e.end, WheelOf(delay)))
  }

  /** Which wheels a tick drains: those whose digit changes. */
  function ChangedWheels(now: nat): nat
    requires Xor(Next(now), now) > 0
  {
    Hsb(Xor(Next(now), now)) / 8 + 1
  }

  // ---------------------------------------------------------------- bit arithmetic

  function Pow2(n: nat): (p: nat)
    ensures p >= 1
  {
    if n == 0 then 1 else 2 * Pow2(n - 1)
  }

  lemma {:induction false} HsbAtLeast(x: nat, n: nat)
    requires x > 0
    ensures Hsb(x) >= n <==> x >= Pow2(n)
    decreases n
  {
    if n > 0 && x > 1 {
      HsbAtLeast(x / 2, n - 1);
    }
  }

  lemma Pow2Values()
    ensures Pow2(8) == 0x100 && Pow2(16) == 0x1_0000 && Pow2(24) == 0x100_0000 && Pow2(32) == 0x1_0000_0000
  {
    assert Pow2(4) == 16;
    Pow2Add(4, 4);
    Pow2Add(8, 8);
    Pow2Add(8, 16);
    Pow2Add(16, 16);
  }

  lemma {:induction false} Pow2Add(m: nat, n: nat)
    ensures Pow2(m + n) == Pow2(m) * Pow2(n)
  {
    if m > 0 {
      Pow2Add(m - 1, n);
      assert Pow2(m + n) == 2 * Pow2(m - 1 + n);
    }
  }

  /** A delay goes to the wheel whose span holds it. */
  lemma WheelBounds(delay: nat)
    requires 0 < delay < TICKS
    ensures WheelOf(delay) < WHEELS
    ensures Span(WheelOf(delay)) <= delay < Span(WheelOf(delay) + 1)
  {
    Pow2Values();
    HsbAtLeast(delay, 8);
    HsbAtLeast(delay, 16);
    HsbAtLeast(delay, 24);
    HsbAtLeast(delay, 32);
  }

  lemma {:induction false} XorZero(x: nat)
    ensures Xor(0, x) == x
  {
    if x > 0 {
      XorZero(x / 2);
    }
  }

  /** The `n` low bits of `x` are all set. */
  ghost predicate AllOnes(x: nat, n: nat) {
    x % Pow2(n) == Pow2(n) - 1
  }

  lemma EvenOnes(x: nat, n: nat)
    requires x % 2 == 0
    ensures AllOnes(x, n) <==> n == 0
  {
    if n > 0 {
      EvenMod(x, Pow2(n - 1));
    }
  }

  lemma OddOnes(x: nat, n: nat)
    requires x % 2 == 1 && n > 0
    ensures AllOnes(x, n) <==> AllOnes(x / 2, n - 1)
  {
    OddMod(x, Pow2(n - 1));
  }

  lemma XorEven(x: nat)
    requires x % 2 == 0
    ensures Xor(x + 1, x) == 1
  {
    XorSame(x / 2);
    assert (x + 1) / 2 == x / 2;
  }

  lemma XorOdd(x: nat)
    requires x % 2 == 1
    ensures Xor(x + 1, x) == 2 * Xor(x / 2 + 1, x / 2) + 1
  {
    assert (x + 1) / 2 == x / 2 + 1;
  }

  lemma HsbDouble(y: nat)
    requires y > 0
    ensures Hsb(2 * y + 1) == Hsb(y) + 1
  {
    assert (2 * y + 1) / 2 == y;
  }

  lemma {:induction false} XorSelfNext(x: nat, n: nat)
    ensures Xor(x + 1, x) > 0
    ensures Hsb(Xor(x + 1, x)) >= n <==> AllOnes(x, n)
    decreases n
  {
    if x % 2 == 0 {
      XorEven(x);
      EvenOnes(x, n);
      assert Hsb(1) == 0;
    } else {
      XorOdd(x);
      XorPositive(x / 2);
      HsbDouble(Xor(x / 2 + 1, x / 2));
      if n > 0 {
        XorSelfNext(x / 2, n - 1);
        OddOnes(x, n);
      }
    }
  }

  lemma {:induction false} XorPositive(x: nat)
    ensures Xor(x + 1, x) > 0
  {
    if x % 2 == 1 {
      XorPositive(x / 2);
      assert (x + 1) / 2 == x / 2 + 1;
    }
  }

  lemma {:induction false} XorSame(x: nat)
    ensures Xor(x, x) == 0
  {
    if x > 0 {
      XorSame(x / 2);
    }
  }

  lemma EvenMod(x: nat, p: nat)
    requires p > 0 && x % 2 == 0
    ensures x % (2 * p) != 2 * p - 1
  {
    var q := x / (2 * p);
    assert x == 2 * (p * q) + x % (2 * p);
  }

  lemma OddMod(x: nat, p: nat)
    requires p > 0 && x % 2 == 1
    ensures x % (2 * p) == 2 * p - 1 <==> x / 2 % p == p - 1
  {
    var h := x / 2;
    var q := h / p;
    assert h == p * q + h % p;
    assert x == (2 * p) * q + (2 * (h % p) + 1);
    ModUnique(x, 2 * p, q, 2 * (h % p) + 1);
  }

  lemma SpanIsPow2(w: nat)
    requires w <= WHEELS
    ensures Pow2(8 * w) == Span(w)
  {
    Pow2Values();
  }

  /** All digits of `now` below wheel `w` are 255. */
  ghost predicate LowDigitsFull(now: nat, w: nat)
    requires w <= WHEELS
  {
    now % Span(w) == Span(w) - 1
  }

  /** The bits that change from one tick to the next. */
  lemma ChangedBits(now: nat, w: nat)
    requires w <= WHEELS
    ensures Xor(now + 1, now) > 0
    ensures Hsb(Xor(now + 1, now)) >= 8 * w <==> LowDigitsFull(now, w)
  {
    XorSelfNext(now, 8 * w);
    SpanIsPow2(w);
  }

  lemma NotAllFull(now: nat)
    requires now < TICKS - 1
    ensures !LowDigitsFull(now, 4)
  {
  }

  lemma AllFull(w: nat)
    requires w <= WHEELS
    ensures LowDigitsFull(TICKS - 1, w)
  {
  }

  /** The same for the tick that wraps the counter to zero. */
  lemma ChangedBitsAtWrap(w: nat)
    requires w < WHEELS
    ensures Xor(0, TICKS - 1) > 0
    ensures 8 * w <= Hsb(Xor(0, TICKS - 1)) < 32
  {
    XorZero(TICKS - 1);
    HsbAtLeast(TICKS - 1, 8 * w);
    SpanIsPow2(w);
    HsbAtLeast(TICKS - 1, 32);
    SpanIsPow2(4);
  }

  /** The highest bit that changes in the tick after `now`. */
  function TopChange(now: nat): nat
    requires Xor(Next(now), now) > 0
  {
    Hsb(Xor(Next(now), now))
  }

  lemma NextIs(now: nat)
    requires now < TICKS
    ensures Next(now) == if now == TICKS - 1 then 0 else now + 1
  {
  }

  lemma TopChangeBelow(now: nat)
    requires now < TICKS - 1
    ensures Xor(now + 1, now) > 0 && Hsb(Xor(now + 1, now)) < 32
  {
    ChangedBits(now, 4);
    NotAllFull(now);
  }

  lemma TopChangeIs(now: nat, w: nat)
    requires now < TICKS && w < WHEELS
    ensures Xor(Next(now), now) > 0 && TopChange(now) < 32
    ensures TopChange(now) >= 8 * w <==> LowDigitsFull(now, w)
  {
    NextIs(now);
    if now == TICKS - 1 {
      ChangedBitsAtWrap(w);
      AllFull(w);
    } else {
      TopChangeBelow(now);
      ChangedBits(now, w);
    }
  }

  lemma WheelCount(h: nat, w: nat)
    requires h < 32
    ensures h / 8 + 1 <= WHEELS
    ensures w < h / 8 + 1 <==> 8 * w <= h
  {
  }

  /** A tick drains wheel `w` exactly when all lower digits are 255. */
  lemma ChangedWheelsMeaning(now: nat, w: nat)
    requires now < TICKS && w < WHEELS
    ensures Xor(Next(now), now) > 0
    ensures ChangedWheels(now) <= WHEELS
    ensures w < ChangedWheels(now) <==> now % Span(w) == Span(w) - 1
  {
    TopChangeIs(now, w);
    WheelCount(TopChange(now), w);
  }

  lemma MinusZero(x: nat, y: nat)
    requires y < TICKS
    ensures Minus(x, y) == 0 <==> x % TICKS == y
  {
  }
}
