/** The object directory of prs/god.c with calls run one at a time: the scan for a free entry, locking and
    unlocking. Numbers of type `nat` stand for 32-bit ones; the one addition that can wrap is written out. */
module God {
  import opened Common
  import opened Headers

  type Id = nat
  type Header = GodHeader<Id>

  const WORD: nat := 0x1_0000_0000

  /** Where the scan of an allocation stops; 32-bit addition. */
  function ScanEnd(writeIndex: nat, max: nat): nat {
    (writeIndex + max) % WORD
  }

  /** An abstract directory: what the class below holds. */
  datatype Dir = Dir(headers: seq<Header>, writeIndex: nat)

  /** Entry `k` as calls leave it: free, or owned by an object whose identifier falls on it. */
  ghost predicate EntryOk(d: Dir, k: nat)
    requires k < |d.headers|
  {
    var h := d.headers[k];
    && h.id < d.writeIndex
    && (h.reserved ==> h.used && !h.deleted && 1 <= h.refcnt <= GOD_MAX_REFCNT && h.id != 0 && Index(h.id, |d.headers|) == k)
    && (!h.reserved ==> !h.used && !h.deleted && h.refcnt == 0)
  }

  ghost predicate WellFormed(d: Dir) {
    && 2 <= |d.headers| < WORD
    && 1 <= d.writeIndex < WORD
    && d.headers[0] == GodHeader(0, true, true, false, 0)
    && forall k: nat :: 0 < k < |d.headers| ==> EntryOk(d, k)
  }

  ghost predicate Created(d: Dir, max: nat) {
    && |d.headers| == max && d.writeIndex == 1
    && (forall k :: 0 <= k < max ==> d.headers[k] == if k == 0 then GodHeader(0, true, true, false, 0)
                                                     else GodHeader(0, false, false, false, 0))
  }

  /** The entry that candidate identifier `i` falls on is free for it. */
  ghost predicate Takes(d: Dir, i: Id)
    requires |d.headers| > 0
  {
    GodReserve(d.headers[Index(i, |d.headers|)], i).Some?
  }

  /** Allocation: identifier `r` of the first free entry of the scan, 0 when there is none. */
  ghost predicate Alloc(d: Dir, r: Id, d': Dir)
    requires |d.headers| > 0
  {
    var end := ScanEnd(d.writeIndex, |d.headers|);
    if r == 0 then
      d' == d && forall i :: d.writeIndex <= i < end ==> !Takes(d, i)
    else
      && d.writeIndex <= r < end && Takes(d, r) && (forall i :: d.writeIndex <= i < r ==> !Takes(d, i))
      && d' == Dir(d.headers[Index(r, |d.headers|) := GodHeader(r, true, true, false, 1)], r + 1)
  }

  ghost predicate Lock(d: Dir, id: Id, ok: bool, d': Dir)
    requires |d.headers| > 0
  {
    var k := Index(id, |d.headers|);
    match (if id == 0 then None else GodLock(d.headers[k], id))
    case None => !ok && d' == d
    case Some(h) => ok && d' == d.(headers := d.headers[k := h])
  }

  /** Unlock; a last reference calls the free callback and clears the entry. `freed` says that it did. */
  ghost predicate Unlock(d: Dir, id: Id, freed: bool, d': Dir)
    requires |d.headers| > 0
  {
    var k := Index(id, |d.headers|);
    match (if id == 0 then None else GodUnlock(d.headers[k], id))
    case None => !freed && d' == d
    case Some(h) => freed == (h.refcnt == 0) && d' == d.(headers := d.headers[k := if freed then GodCleared(h) else h])
  }

  ghost predicate UnlockFinal(d: Dir, id: Id, r: GodResult, d': Dir)
    requires |d.headers| > 0
  {
    var k := Index(id, |d.headers|);
    if id == 0 then r == NotFound && d' == d
    else
      var (res, next) := GodUnlockFinal(d.headers[k], id);
      r == res && d' == if next.None? then d else d.(headers := d.headers[k := GodCleared(next.value)])
  }

  // ---------------------------------------------------------------- the class

  class Directory {
    const headers: array<Header>
    var writeIndex: nat

    ghost function View(): Dir
      reads this, headers
    {
      Dir(headers[..], writeIndex)
    }

    constructor (max: nat)
      requires 2 <= max < WORD
      ensures fresh(headers) && Created(View(), max)
    {
      headers := new Header[max](i => GodHeader(0, i == 0, i == 0, false, 0));
      writeIndex := 1;
    }

    method AllocAndLock() returns (r: Id)
      requires headers.Length > 0 && writeIndex >= 1
      modifies this`writeIndex, headers
      ensures Alloc(old(View()), r, View())
    {
      var end := ScanEnd(writeIndex, headers.Length);
      var i := writeIndex;
      while i < end
        invariant writeIndex <= i
        invariant View() == old(View())
        invariant forall j :: writeIndex <= j < i && j < end ==> !Takes(View(), j)
      {
        var k := Index(i, headers.Length);
        var header := headers[k];
        assert header == View().headers[k];
        if !header.reserved && header.id != i {
          headers[k] := GodHeader(i, true, false, false, 1);
          writeIndex := i + 1;
          headers[k] := headers[k].(used := true);
          return i;
        }
        i := i + 1;
      }
      return 0;
    }

    method LockEntry(id: Id) returns (ok: bool)
      requires headers.Length > 0
      modifies headers
      ensures Lock(old(View()), id, ok, View())
    {
      if id == 0 {
        return false;
      }
      var k := Index(id, headers.Length);
      var next := GodLock(headers[k], id);
      if next.None? {
        return false;
      }
      headers[k] := next.value;
      return true;
    }

    method UnlockEntry(id: Id) returns (freed: bool)
      requires headers.Length > 0
      modifies headers
      ensures Unlock(old(View()), id, freed, View())
    {
      if id == 0 {
        return false;
      }
      var k := Index(id, headers.Length);
      var next := GodUnlock(headers[k], id);
      if next.None? {
        return false;
      }
      headers[k] := next.value;
      if next.value.refcnt == 0 {
        headers[k] := GodCleared(headers[k]);
        return true;
      }
      return false;
    }

    method TryUnlockFinal(id: Id) returns (r: GodResult)
      requires headers.Length > 0
      modifies headers
      ensures UnlockFinal(old(View()), id, r, View())
    {
      if id == 0 {
        return NotFound;
      }
      var k := Index(id, headers.Length);
      var (res, next) := GodUnlockFinal(headers[k], id);
      if next.Some? {
        headers[k] := next.value;
        headers[k] := GodCleared(headers[k]);
      }
      return res;
    }
  }

  // ---------------------------------------------------------------- runs

  datatype Op = AllocOp(r: Id) | LockOp(id: Id, ok: bool) | UnlockOp(id: Id, freed: bool) | FinalOp(id: Id, res: GodResult)

  ghost predicate Does(d: Dir, op: Op, d': Dir)
    requires |d.headers| > 0
  {
    match op
    case AllocOp(r) => Alloc(d, r, d')
    case LockOp(id, ok) => Lock(d, id, ok, d')
    case UnlockOp(id, freed) => Unlock(d, id, freed, d')
    case FinalOp(id, res) => UnlockFinal(d, id, res, d')
  }

  ghost predicate Run(max: nat, dirs: seq<Dir>, ops: seq<Op>) {
    && 2 <= max < WORD && |dirs| == |ops| + 1 && Created(dirs[0], max)
    && (forall i :: 0 <= i < |dirs| ==> |dirs[i].headers| == max)
    && (forall i :: 0 <= i < |ops| ==> Does(dirs[i], ops[i], dirs[i + 1]))
  }

  ghost predicate Full(d: Dir) {
    forall k :: 0 < k < |d.headers| ==> d.headers[k].reserved
  }
}
