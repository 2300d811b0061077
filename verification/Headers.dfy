/** Entry headers as records, and what one pass of each compare-and-swap loop computes from the header it
    has loaded. The identifier type is open: packed words use bit vectors, directories use numbers. */
module Headers {
  import opened Common

  // ---------------------------------------------------------------- object directory, prs/god.c

  datatype GodHeader<+I> = GodHeader(id: I, reserved: bool, used: bool, deleted: bool, refcnt: nat)

  const GOD_MAX_REFCNT: nat := 0xFFF

  /** prs_god_lock_entry: the header to write, or none when the entry cannot be locked. */
  function GodLock<I(==)>(h: GodHeader<I>, id: I): Option<GodHeader<I>> {
    if h.id != id || !h.used || h.deleted || h.refcnt == GOD_MAX_REFCNT then None
    else Some(h.(refcnt := h.refcnt + 1))
  }

  /** prs_god_unlock: the last reference leaves the delete mark. */
  function GodUnlock<I(==)>(h: GodHeader<I>, id: I): Option<GodHeader<I>> {
    if h.id != id || !h.used then None
    else if h.refcnt == 1 then Some(h.(deleted := true, refcnt := 0))
    else if h.refcnt == 0 then None
    else Some(h.(refcnt := h.refcnt - 1))
  }

  datatype GodResult = Ok | Locked | InvalidState | NotFound

  /** prs_god_try_unlock_final: only the last reference is dropped. */
  function GodUnlockFinal<I(==)>(h: GodHeader<I>, id: I): (GodResult, Option<GodHeader<I>>) {
    if h.id != id || !h.used || h.refcnt == 0 then (InvalidState, None)
    else if h.refcnt == 1 then (Ok, Some(h.(deleted := true, refcnt := 0)))
    else (Locked, None)
  }

  /** prs_god_free: only the identifier stays. */
  function GodCleared<I>(h: GodHeader<I>): GodHeader<I> {
    GodHeader(h.id, false, false, false, 0)
  }

  /** prs_god_alloc_and_lock: the header of a new object, before it is marked as used. */
  function GodReserve<I(==)>(h: GodHeader<I>, id: I): Option<GodHeader<I>> {
    if h.reserved || h.id == id then None else Some(GodHeader(id, true, false, false, 1))
  }

  // ---------------------------------------------------------------- pointer directory, prs/lib/ds/pd.c

  datatype PdHeader<+I> = PdHeader(id: I, refcnt: nat)

  const PD_MAX_REFCNT: nat := 0xFFF

  function PdLock<I(==)>(h: PdHeader<I>, id: I): Option<PdHeader<I>> {
    if h.id != id || h.refcnt == 0 || h.refcnt == PD_MAX_REFCNT then None else Some(h.(refcnt := h.refcnt + 1))
  }

  function PdUnlock<I(==)>(h: PdHeader<I>, id: I): Option<PdHeader<I>> {
    if h.id != id || h.refcnt == 0 then None else Some(h.(refcnt := h.refcnt - 1))
  }

  /** `kept` is the part of the identifier that the header can hold. */
  function PdAlloc<I(==)>(h: PdHeader<I>, id: I, kept: I): Option<PdHeader<I>> {
    if h.refcnt != 0 || h.id == id then None else Some(PdHeader(kept, 1))
  }

  // ---------------------------------------------------------------- pool, prs/lib/ds/pool.c

  datatype PoolHeader<+I> = PoolHeader(id: I, alloc: bool, refcnt: nat)

  const POOL_MAX_REFCNT: nat := 0x7FF

  /** `kept` is the part of the identifier that the header can hold. */
  function PoolAlloc<I(==)>(h: PoolHeader<I>, id: I, kept: I): Option<PoolHeader<I>> {
    if h.alloc || h.id == id then None else Some(PoolHeader(kept, true, 0))
  }

  function PoolLockFirst<I(==)>(h: PoolHeader<I>, id: I): Option<PoolHeader<I>> {
    if h.id != id || !h.alloc || h.refcnt != 0 then None else Some(h.(refcnt := 1))
  }

  function PoolLock<I(==)>(h: PoolHeader<I>, id: I): Option<PoolHeader<I>> {
    if h.id != id || !h.alloc || h.refcnt == 0 || h.refcnt == POOL_MAX_REFCNT then None
    else Some(h.(refcnt := h.refcnt + 1))
  }

  /** prs_pool_unlock_internal: with a destructor the slot stays allocated while the destructor runs. */
  function PoolUnlock<I(==)>(h: PoolHeader<I>, id: I, tryFinal: bool, destructor: bool): Option<PoolHeader<I>> {
    if h.id != id || !h.alloc || h.refcnt == 0 || (tryFinal && h.refcnt != 1) then None
    else Some(h.(refcnt := h.refcnt - 1, alloc := h.refcnt != 1 || destructor))
  }

  function PoolCleared<I>(h: PoolHeader<I>): PoolHeader<I> {
    PoolHeader(h.id, false, 0)
  }
}
