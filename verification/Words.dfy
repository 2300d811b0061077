/** The header words that the directories really store, and the proof that every update of a word is the
    update of the record it stands for: no carry or borrow reaches another field. */
module Words {
  import opened Common
  import opened Headers

  type Word = bv64

  // ---------------------------------------------------------------- counters as numbers

  lemma CountUp(x: bv12)
    requires x != 0xFFF
    ensures (x + 1) as nat == x as nat + 1
  {
  }

  lemma CountDown(x: bv12)
    requires x != 0
    ensures (x - 1) as nat == x as nat - 1
  {
  }

  lemma CountIs(n: nat, x: bv12)
    requires n == x as nat
    ensures n == 0 <==> x == 0
    ensures n == 1 <==> x == 1
    ensures n == 0xFFF <==> x == 0xFFF
  {
  }

  lemma PoolCountUp(x: bv11)
    requires x != 0x7FF
    ensures (x + 1) as nat == x as nat + 1
  {
  }

  lemma PoolCountDown(x: bv11)
    requires x != 0
    ensures (x - 1) as nat == x as nat - 1
  {
  }

  lemma PoolCountIs(n: nat, x: bv11)
    requires n == x as nat
    ensures n == 0 <==> x == 0
    ensures n == 1 <==> x == 1
    ensures n == 0x7FF <==> x == 0x7FF
  {
  }

  // ---------------------------------------------------------------- object directory, prs/god.c

  const GOD_RESERVED: Word := 0x4000
  const GOD_USED: Word := 0x2000
  const GOD_DELETE_MARK: Word := 0x1000
  const GOD_REFCNT: Word := 0xFFF
  const GOD_ID: Word := 0xFFFF_FFFF_0000_0000

  function TopHalf(w: Word): bv32 { var t := w >> 32; t as bv32 }
  function GodId(w: Word): bv32 { TopHalf(w & GOD_ID) }
  function GodCount(w: Word): bv12 { (w & GOD_REFCNT) as bv12 }

  /** The record that a word stands for. */
  function GodView(w: Word): GodHeader<bv32> {
    GodHeader(GodId(w), w & GOD_RESERVED != 0, w & GOD_USED != 0, w & GOD_DELETE_MARK != 0, GodCount(w) as nat)
  }

  function GodLockWord(w: Word, id: bv32): Option<Word> {
    if GodId(w) != id then None
    else if w & GOD_USED == 0 then None
    else if w & GOD_DELETE_MARK != 0 then None
    else if w & GOD_REFCNT == GOD_REFCNT then None
    else Some(w + 1)
  }

  function GodUnlockWord(w: Word, id: bv32): Option<Word> {
    if GodId(w) != id then None
    else if w & GOD_USED == 0 then None
    else if w & GOD_REFCNT == 1 then Some((w | GOD_DELETE_MARK) & !GOD_REFCNT)
    else if w & GOD_REFCNT == 0 then None
    else Some(w - 1)
  }

  /** prs_god_try_unlock_final: a result, and the word to write if there is one. */
  function GodUnlockFinalWord(w: Word, id: bv32): (GodResult, Option<Word>) {
    if GodId(w) != id then (InvalidState, None)
    else if w & GOD_USED == 0 then (InvalidState, None)
    else if w & GOD_REFCNT == 1 then (Ok, Some((w | GOD_DELETE_MARK) & !GOD_REFCNT))
    else if w & GOD_REFCNT == 0 then (InvalidState, None)
    else (Locked, None)
  }

  function GodReserveWord(w: Word, id: bv32): Option<Word> {
    if w & GOD_RESERVED != 0 || GodId(w) == id then None
    else Some(((id as Word) << 32) | GOD_RESERVED | 1)
  }

  lemma GodCountBits(w: Word)
    ensures w & GOD_REFCNT == 0 <==> GodCount(w) == 0
    ensures w & GOD_REFCNT == 1 <==> GodCount(w) == 1
    ensures w & GOD_REFCNT == GOD_REFCNT <==> GodCount(w) == 0xFFF
  {
  }

  ghost predicate SameGodFlags(v: Word, w: Word) {
    v & GOD_ID == w & GOD_ID && v & GOD_RESERVED == w & GOD_RESERVED && v & GOD_USED == w & GOD_USED
  }

  lemma GodUpBits(w: Word)
    requires w & GOD_REFCNT != GOD_REFCNT
    ensures SameGodFlags(w + 1, w) && (w + 1) & GOD_DELETE_MARK == w & GOD_DELETE_MARK
    ensures GodCount(w + 1) == GodCount(w) + 1
  {
  }

  lemma GodDownBits(w: Word)
    requires w & GOD_REFCNT != 0
    ensures SameGodFlags(w - 1, w) && (w - 1) & GOD_DELETE_MARK == w & GOD_DELETE_MARK
    ensures GodCount(w - 1) == GodCount(w) - 1
  {
  }

  lemma GodMarkBits(w: Word)
    ensures var v := (w | GOD_DELETE_MARK) & !GOD_REFCNT;
      SameGodFlags(v, w) && v & GOD_DELETE_MARK != 0 && GodCount(v) == 0
  {
  }

  lemma GodCountView(w: Word)
    ensures var n := GodView(w).refcnt;
      && (n == 0 <==> w & GOD_REFCNT == 0)
      && (n == 1 <==> w & GOD_REFCNT == 1)
      && (n == 0xFFF <==> w & GOD_REFCNT == GOD_REFCNT)
  {
    GodCountBits(w);
    CountIs(GodView(w).refcnt, GodCount(w));
  }

  lemma GodUp(w: Word)
    requires w & GOD_REFCNT != GOD_REFCNT
    ensures GodView(w + 1) == GodView(w).(refcnt := GodView(w).refcnt + 1)
  {
    GodUpBits(w);
    GodCountBits(w);
    CountUp(GodCount(w));
  }

  lemma GodDown(w: Word)
    requires w & GOD_REFCNT != 0
    ensures GodView(w).refcnt > 0 && GodView(w - 1) == GodView(w).(refcnt := GodView(w).refcnt - 1)
  {
    GodDownBits(w);
    GodCountBits(w);
    CountDown(GodCount(w));
  }

  lemma GodMark(w: Word)
    ensures GodView((w | GOD_DELETE_MARK) & !GOD_REFCNT) == GodView(w).(deleted := true, refcnt := 0)
  {
    GodMarkBits(w);
    CountIs(0, 0);
  }

  /** One pass of the lock loop on the word is one pass on the record: the count is one more, nothing else. */
  lemma GodLockRefines(w: Word, id: bv32)
    ensures match GodLockWord(w, id)
      case None => GodLock(GodView(w), id) == None
      case Some(v) => GodLock(GodView(w), id) == Some(GodView(v))
  {
    GodCountView(w);
    if w & GOD_REFCNT != GOD_REFCNT {
      GodUp(w);
    }
  }

  lemma GodUnlockRefines(w: Word, id: bv32)
    ensures match GodUnlockWord(w, id)
      case None => GodUnlock(GodView(w), id) == None
      case Some(v) => GodUnlock(GodView(w), id) == Some(GodView(v))
  {
    GodCountView(w);
    GodMark(w);
    if w & GOD_REFCNT != 0 {
      GodDown(w);
    }
  }

  lemma GodUnlockFinalRefines(w: Word, id: bv32)
    ensures var (r, v) := GodUnlockFinalWord(w, id);
      GodUnlockFinal(GodView(w), id) == (r, if v.None? then None else Some(GodView(v.value)))
  {
    GodCountView(w);
    GodMark(w);
  }

  lemma GodReserveBits(id: bv32)
    ensures var v := ((id as Word) << 32) | GOD_RESERVED | 1;
      && GodId(v) == id && v & GOD_RESERVED != 0 && v & GOD_USED == 0 && v & GOD_DELETE_MARK == 0
      && GodCount(v) == 1
  {
  }

  lemma GodReserveRefines(w: Word, id: bv32)
    ensures match GodReserveWord(w, id)
      case None => GodReserve(GodView(w), id) == None
      case Some(v) => GodReserve(GodView(w), id) == Some(GodView(v))
  {
    GodReserveBits(id);
    CountIs(1, 1);
  }

  lemma GodUsedBits(w: Word)
    ensures var v := w | GOD_USED;
      v & GOD_ID == w & GOD_ID && v & GOD_RESERVED == w & GOD_RESERVED && v & GOD_USED != 0
      && v & GOD_DELETE_MARK == w & GOD_DELETE_MARK && v & GOD_REFCNT == w & GOD_REFCNT
  {
  }

  lemma GodClearBits(w: Word)
    ensures var v := w & GOD_ID;
      v & GOD_ID == w & GOD_ID && v & GOD_RESERVED == 0 && v & GOD_USED == 0 && v & GOD_DELETE_MARK == 0
      && GodCount(v) == 0
  {
  }

  /** Marking an entry as used, and clearing it, change just those fields. */
  lemma GodStoresRefine(w: Word)
    ensures GodView(w | GOD_USED) == GodView(w).(used := true)
    ensures GodView(w & GOD_ID) == GodCleared(GodView(w))
  {
    GodUsedBits(w);
    GodClearBits(w);
    CountIs(0, 0);
  }

  // ---------------------------------------------------------------- pointer directory, prs/lib/ds/pd.c

  const PD_INC: Word := 0x0010_0000_0000_0000
  const PD_REFCNT: Word := 0xFFF0_0000_0000_0000
  const PD_ID: Word := 0x000F_FFFF_FFFF_FFFF

  function Top12(w: Word): bv12 { var t := w >> 52; t as bv12 }
  function PdCount(w: Word): bv12 { Top12(w & PD_REFCNT) }

  function PdView(w: Word): PdHeader<Word> {
    PdHeader(w & PD_ID, PdCount(w) as nat)
  }

  function PdLockWord(w: Word, id: Word): Option<Word> {
    if w & PD_ID != id then None
    else if w & PD_REFCNT == 0 then None
    else if w & PD_REFCNT == PD_REFCNT then None
    else Some(w + PD_INC)
  }

  function PdUnlockWord(w: Word, id: Word): Option<Word> {
    if w & PD_ID != id then None
    else if w & PD_REFCNT == 0 then None
    else Some(w - PD_INC)
  }

  function PdAllocWord(w: Word, id: Word): Option<Word> {
    if w & PD_REFCNT != 0 || w & PD_ID == id then None else Some(PD_INC | (id & PD_ID))
  }

  lemma PdCountBits(w: Word)
    ensures w & PD_REFCNT == 0 <==> PdCount(w) == 0
    ensures w & PD_REFCNT == PD_REFCNT <==> PdCount(w) == 0xFFF
  {
  }

  lemma PdUpBits(w: Word)
    ensures (w + PD_INC) & PD_ID == w & PD_ID && PdCount(w + PD_INC) == PdCount(w) + 1
  {
  }

  lemma PdDownBits(w: Word)
    ensures (w - PD_INC) & PD_ID == w & PD_ID && PdCount(w - PD_INC) == PdCount(w) - 1
  {
  }

  lemma PdAllocBits(id: Word)
    ensures (PD_INC | (id & PD_ID)) & PD_ID == id & PD_ID && PdCount(PD_INC | (id & PD_ID)) == 1
  {
  }

  lemma PdUp(w: Word)
    requires PdCount(w) != 0xFFF
    ensures PdView(w + PD_INC) == PdView(w).(refcnt := PdView(w).refcnt + 1)
  {
    PdUpBits(w);
    CountUp(PdCount(w));
  }

  lemma PdDown(w: Word)
    requires PdCount(w) != 0
    ensures PdView(w).refcnt > 0 && PdView(w - PD_INC) == PdView(w).(refcnt := PdView(w).refcnt - 1)
  {
    PdDownBits(w);
    CountDown(PdCount(w));
  }

  lemma PdLockRefines(w: Word, id: Word)
    ensures match PdLockWord(w, id)
      case None => PdLock(PdView(w), id) == None
      case Some(v) => PdLock(PdView(w), id) == Some(PdView(v))
  {
    PdCountBits(w);
    CountIs(PdView(w).refcnt, PdCount(w));
    if PdCount(w) != 0xFFF {
      PdUp(w);
    }
  }

  lemma PdUnlockRefines(w: Word, id: Word)
    ensures match PdUnlockWord(w, id)
      case None => PdUnlock(PdView(w), id) == None
      case Some(v) => PdUnlock(PdView(w), id) == Some(PdView(v))
  {
    PdCountBits(w);
    CountIs(PdView(w).refcnt, PdCount(w));
    if PdCount(w) != 0 {
      PdDown(w);
    }
  }

  lemma PdAllocRefines(w: Word, id: Word)
    ensures match PdAllocWord(w, id)
      case None => PdAlloc(PdView(w), id, id & PD_ID) == None
      case Some(v) => PdAlloc(PdView(w), id, id & PD_ID) == Some(PdView(v))
  {
    PdCountBits(w);
    CountIs(PdView(w).refcnt, PdCount(w));
    PdAllocBits(id);
    CountIs(1, 1);
  }

  // ---------------------------------------------------------------- pool, prs/lib/ds/pool.c

  const POOL_INC: Word := 0x0010_0000_0000_0000
  const POOL_REFCNT: Word := 0x7FF0_0000_0000_0000
  const POOL_ALLOC: Word := 0x8000_0000_0000_0000
  const POOL_ID: Word := 0x000F_FFFF_FFFF_FFFF

  function Mid11(w: Word): bv11 { var t := w >> 52; (t & 0x7FF) as bv11 }
  function PoolCount(w: Word): bv11 { Mid11(w & POOL_REFCNT) }

  function PoolView(w: Word): PoolHeader<Word> {
    PoolHeader(w & POOL_ID, w & POOL_ALLOC != 0, PoolCount(w) as nat)
  }

  function PoolAllocWord(w: Word, id: Word): Option<Word> {
    if w & POOL_ALLOC != 0 || w & POOL_ID == id then None else Some(POOL_ALLOC | (id & POOL_ID))
  }

  function PoolLockFirstWord(w: Word, id: Word): Option<Word> {
    if w & POOL_ID != id || w & POOL_ALLOC == 0 || w & POOL_REFCNT != 0 then None else Some(POOL_INC | w)
  }

  function PoolLockWord(w: Word, id: Word): Option<Word> {
    if w & POOL_ID != id || w & POOL_ALLOC == 0 || w & POOL_REFCNT == 0 || w & POOL_REFCNT == POOL_REFCNT then None
    else Some(w + POOL_INC)
  }

  function PoolUnlockWord(w: Word, id: Word, tryFinal: bool, destructor: bool): Option<Word> {
    if w & POOL_ID != id || w & POOL_ALLOC == 0 || w & POOL_REFCNT == 0 then None
    else
      var last := w & POOL_REFCNT == POOL_INC;
      if tryFinal && !last then None
      else if last && !destructor then Some((w - POOL_INC) & !POOL_ALLOC)
      else Some(w - POOL_INC)
  }

  lemma PoolCountBits(w: Word)
    ensures w & POOL_REFCNT == 0 <==> PoolCount(w) == 0
    ensures w & POOL_REFCNT == POOL_INC <==> PoolCount(w) == 1
    ensures w & POOL_REFCNT == POOL_REFCNT <==> PoolCount(w) == 0x7FF
  {
  }

  lemma PoolAllocBits(id: Word)
    ensures var v := POOL_ALLOC | (id & POOL_ID);
      v & POOL_ID == id & POOL_ID && v & POOL_ALLOC != 0 && PoolCount(v) == 0
  {
  }

  lemma PoolFirstBits(w: Word)
    requires w & POOL_REFCNT == 0
    ensures var v := POOL_INC | w;
      v & POOL_ID == w & POOL_ID && v & POOL_ALLOC == w & POOL_ALLOC && PoolCount(v) == 1
  {
  }

  lemma PoolUpBits(w: Word)
    requires w & POOL_REFCNT != POOL_REFCNT
    ensures var v := w + POOL_INC;
      v & POOL_ID == w & POOL_ID && v & POOL_ALLOC == w & POOL_ALLOC && PoolCount(v) == PoolCount(w) + 1
  {
  }

  lemma PoolDownBits(w: Word)
    requires w & POOL_REFCNT != 0
    ensures var v := w - POOL_INC;
      v & POOL_ID == w & POOL_ID && v & POOL_ALLOC == w & POOL_ALLOC && PoolCount(v) == PoolCount(w) - 1
  {
  }

  lemma PoolDropBits(w: Word)
    ensures var v := w & !POOL_ALLOC;
      v & POOL_ID == w & POOL_ID && v & POOL_ALLOC == 0 && v & POOL_REFCNT == w & POOL_REFCNT
  {
  }

  lemma PoolUp(w: Word)
    requires w & POOL_REFCNT != POOL_REFCNT
    ensures PoolView(w + POOL_INC) == PoolView(w).(refcnt := PoolView(w).refcnt + 1)
  {
    PoolCountBits(w);
    PoolUpBits(w);
    PoolCountUp(PoolCount(w));
  }

  lemma PoolDown(w: Word)
    requires w & POOL_REFCNT != 0
    ensures PoolView(w).refcnt > 0 && PoolView(w - POOL_INC) == PoolView(w).(refcnt := PoolView(w).refcnt - 1)
  {
    PoolCountBits(w);
    PoolDownBits(w);
    PoolCountDown(PoolCount(w));
  }

  lemma PoolDrop(w: Word)
    ensures PoolView(w & !POOL_ALLOC) == PoolView(w).(alloc := false)
  {
    PoolDropBits(w);
  }

  lemma PoolAllocRefines(w: Word, id: Word)
    ensures match PoolAllocWord(w, id)
      case None => PoolAlloc(PoolView(w), id, id & POOL_ID) == None
      case Some(v) => PoolAlloc(PoolView(w), id, id & POOL_ID) == Some(PoolView(v))
  {
    PoolAllocBits(id);
    PoolCountIs(0, 0);
  }

  lemma PoolLockFirstRefines(w: Word, id: Word)
    ensures match PoolLockFirstWord(w, id)
      case None => PoolLockFirst(PoolView(w), id) == None
      case Some(v) => PoolLockFirst(PoolView(w), id) == Some(PoolView(v))
  {
    PoolCountBits(w);
    PoolCountIs(PoolView(w).refcnt, PoolCount(w));
    if w & POOL_REFCNT == 0 {
      PoolFirstBits(w);
      PoolCountIs(1, 1);
    }
  }

  lemma PoolLockRefines(w: Word, id: Word)
    ensures match PoolLockWord(w, id)
      case None => PoolLock(PoolView(w), id) == None
      case Some(v) => PoolLock(PoolView(w), id) == Some(PoolView(v))
  {
    PoolCountBits(w);
    PoolCountIs(PoolView(w).refcnt, PoolCount(w));
    if w & POOL_REFCNT != POOL_REFCNT {
      PoolUp(w);
    }
  }

  lemma PoolCountView(w: Word)
    ensures var n := PoolView(w).refcnt;
      && (n == 0 <==> w & POOL_REFCNT == 0)
      && (n == 1 <==> w & POOL_REFCNT == POOL_INC)
      && (n == 0x7FF <==> w & POOL_REFCNT == POOL_REFCNT)
  {
    PoolCountBits(w);
    PoolCountIs(PoolView(w).refcnt, PoolCount(w));
  }

  lemma PoolRelease(w: Word)
    requires w & POOL_REFCNT == POOL_INC
    ensures PoolView((w - POOL_INC) & !POOL_ALLOC) == PoolView(w).(refcnt := 0, alloc := false)
  {
    PoolCountView(w);
    PoolDown(w);
    PoolDrop(w - POOL_INC);
  }

  lemma PoolClearBits(w: Word)
    ensures var v := w & POOL_ID;
      v & POOL_ID == w & POOL_ID && v & POOL_ALLOC == 0 && PoolCount(v) == 0
  {
  }

  /** The mask after the destructor leaves the identifier alone. */
  lemma PoolClearRefines(w: Word)
    ensures PoolView(w & POOL_ID) == PoolCleared(PoolView(w))
  {
    PoolClearBits(w);
    PoolCountIs(0, 0);
  }

  ghost predicate PoolUnlockAgrees(w: Word, id: Word, tryFinal: bool, destructor: bool) {
    match PoolUnlockWord(w, id, tryFinal, destructor)
    case None => PoolUnlock(PoolView(w), id, tryFinal, destructor) == None
    case Some(v) => PoolUnlock(PoolView(w), id, tryFinal, destructor) == Some(PoolView(v))
  }

  lemma PoolUnlockLast(w: Word, id: Word, tryFinal: bool)
    requires w & POOL_REFCNT == POOL_INC
    ensures PoolUnlockAgrees(w, id, tryFinal, false)
  {
    PoolCountView(w);
    PoolRelease(w);
  }

  lemma PoolUnlockOther(w: Word, id: Word, tryFinal: bool, destructor: bool)
    requires w & POOL_REFCNT != POOL_INC || destructor
    ensures PoolUnlockAgrees(w, id, tryFinal, destructor)
  {
    PoolCountView(w);
    if w & POOL_REFCNT != 0 {
      PoolDown(w);
    }
  }

  lemma PoolUnlockRefines(w: Word, id: Word, tryFinal: bool, destructor: bool)
    ensures PoolUnlockAgrees(w, id, tryFinal, destructor)
  {
    if w & POOL_REFCNT == POOL_INC && !destructor {
      PoolUnlockLast(w, id, tryFinal);
    } else {
      PoolUnlockOther(w, id, tryFinal, destructor);
    }
  }
}
