/** The pointer directory of prs/lib/ds/pd.c with calls run one at a time. Identifiers are 64-bit numbers,
    and an entry keeps their low 52 bits. */
module Pd {
  import opened Common
  import opened Headers

  type Id = nat
  type Header = PdHeader<Id>

  const WORD: nat := 0x1_0000_0000_0000_0000   // 2^64
  const ID_RANGE: nat := 0x10_0000_0000_0000   // 2^52
  const INVALID: Id := WORD - 1

  datatype Dir = Dir(headers: seq<Header>, writeIndex: nat)

  ghost predicate Created(d: Dir, max: nat) {
    |d.headers| == max && d.writeIndex == 1 && forall k :: 0 <= k < max ==> d.headers[k] == PdHeader(0, 0)
  }

  function ScanEnd(writeIndex: nat, max: nat): nat {
    (writeIndex + max) % WORD
  }

  /** The entry that candidate identifier `i` falls on is free for it. */
  ghost predicate Takes(d: Dir, i: Id)
    requires |d.headers| > 0
  {
    PdAlloc(d.headers[Index(i, |d.headers|)], i, i % ID_RANGE).Some?
  }

  /** Allocation: the first identifier of the scan whose entry is free, or none. */
  ghost predicate Alloc(d: Dir, r: Option<Id>, d': Dir)
    requires |d.headers| > 0
  {
    var end := ScanEnd(d.writeIndex, |d.headers|);
    match r
    case None => d' == d && forall i :: d.writeIndex <= i < end ==> !Takes(d, i)
    case Some(id) =>
      && d.writeIndex <= id < end && Takes(d, id) && (forall i :: d.writeIndex <= i < id ==> !Takes(d, i))
      && d' == Dir(d.headers[Index(id, |d.headers|) := PdHeader(id % ID_RANGE, 1)], id + 1)
  }

  ghost predicate Lock(d: Dir, id: Id, ok: bool, d': Dir)
    requires |d.headers| > 0
  {
    var k := Index(id, |d.headers|);
    match (if id == INVALID then None else PdLock(d.headers[k], id))
    case None => !ok && d' == d
    case Some(h) => ok && d' == d.(headers := d.headers[k := h])
  }

  /** `last` says that the entry is free now. */
  ghost predicate Unlock(d: Dir, id: Id, last: bool, d': Dir)
    requires |d.headers| > 0
  {
    var k := Index(id, |d.headers|);
    match (if id == INVALID then None else PdUnlock(d.headers[k], id))
    case None => !last && d' == d
    case Some(h) => last == (h.refcnt == 0) && d' == d.(headers := d.headers[k := h])
  }

  class Directory {
    const headers: array<Header>
    var writeIndex: nat

    ghost function View(): Dir
      reads this, headers
    {
      Dir(headers[..], writeIndex)
    }

    constructor (max: nat)
      ensures fresh(headers) && Created(View(), max)
    {
      headers := new Header[max](_ => PdHeader(0, 0));
      writeIndex := 1;
    }

    method AllocAndLock() returns (r: Option<Id>)
      requires headers.Length > 0
      modifies this`writeIndex, headers
      ensures Alloc(old(View()), r, View())
    {
      var end := ScanEnd(writeIndex, headers.Length);
      var i := writeIndex;
      while i < end
        invariant writeIndex <= i && View() == old(View())
        invariant forall j :: writeIndex <= j < i && j < end ==> !Takes(View(), j)
      {
        var k := Index(i, headers.Length);
        var header := headers[k];
        assert header == View().headers[k];
        if header.refcnt == 0 && header.id != i {
          headers[k] := PdHeader(i % ID_RANGE, 1);
          writeIndex := i + 1;
          return Some(i);
        }
        i := i + 1;
      }
      return None;
    }

    method LockEntry(id: Id) returns (ok: bool)
      requires headers.Length > 0
      modifies headers
      ensures Lock(old(View()), id, ok, View())
    {
      if id == INVALID {
        return false;
      }
      var k := Index(id, headers.Length);
      var next := PdLock(headers[k], id);
      if next.None? {
        return false;
      }
      headers[k] := next.value;
      return true;
    }

    method UnlockEntry(id: Id) returns (last: bool)
      requires headers.Length > 0
      modifies headers
      ensures Unlock(old(View()), id, last, View())
    {
      if id == INVALID {
        return false;
      }
      var k := Index(id, headers.Length);
      var next := PdUnlock(headers[k], id);
      if next.None? {
        return false;
      }
      headers[k] := next.value;
      return next.value.refcnt == 0;
    }
  }

  // ---------------------------------------------------------------- a map of live entries

  ghost predicate EntryOk(d: Dir, k: nat)
    requires k < |d.headers|
  {
    var h := d.headers[k];
    && h.id < d.writeIndex && h.id < ID_RANGE && h.refcnt <= PD_MAX_REFCNT
    && (h.refcnt > 0 ==> Index(h.id, |d.headers|) == k)
  }

  /** The number of entries is a power of two, so that the kept part of an identifier falls on the same entry. */
  ghost predicate WellFormed(d: Dir) {
    && 2 <= |d.headers| <= ID_RANGE && ID_RANGE % |d.headers| == 0
    && 1 <= d.writeIndex < WORD
    && forall k: nat :: k < |d.headers| ==> EntryOk(d, k)
  }

  ghost predicate Holds(d: Dir, id: Id)
    requires |d.headers| > 0
  {
    var h := d.headers[Index(id, |d.headers|)];
    h.id == id && h.refcnt > 0
  }

  /** The live identifiers with their counts. */
  ghost function Live(d: Dir): map<Id, nat>
    requires |d.headers| > 0
  {
    map id: nat | id < d.writeIndex && Holds(d, id) :: d.headers[Index(id, |d.headers|)].refcnt
  }

  lemma LiveIs(d: Dir, id: Id)
    requires WellFormed(d)
    ensures id in Live(d) <==> Holds(d, id)
    ensures id in Live(d) ==>
              Live(d)[id] == d.headers[Index(id, |d.headers|)].refcnt && id < d.writeIndex && id < ID_RANGE
  {
    assert EntryOk(d, Index(id, |d.headers|));
  }

  lemma CreatedIsEmpty(d: Dir, max: nat)
    requires 2 <= max <= ID_RANGE && ID_RANGE % max == 0 && Created(d, max)
    ensures WellFormed(d) && Live(d) == map[]
  {
    forall k: nat | k < max ensures EntryOk(d, k) {
    }
  }

  /** Entry `k` changed; identifiers that were not there and are not there now do not matter. */
  lemma LiveFrame(d: Dir, d': Dir, k: nat, x: Id)
    requires WellFormed(d) && WellFormed(d') && k < |d.headers| == |d'.headers|
    requires d'.headers == d.headers[k := d'.headers[k]]
    requires Index(x, |d.headers|) != k || (!Holds(d, x) && !Holds(d', x))
    ensures x in Live(d') <==> x in Live(d)
    ensures x in Live(d) ==> Live(d')[x] == Live(d)[x]
  {
    LiveIs(d, x);
    LiveIs(d', x);
  }

  lemma HeaderKeeps(d: Dir, d': Dir, k: nat)
    requires WellFormed(d) && k < |d.headers| == |d'.headers| && d'.headers == d.headers[k := d'.headers[k]]
    requires d.writeIndex <= d'.writeIndex < WORD && EntryOk(d', k)
    ensures WellFormed(d')
  {
    forall j: nat | j < |d.headers| ensures EntryOk(d', j) {
      assert EntryOk(d, j);
    }
  }

  /** Lock succeeds exactly on a live entry below the limit, and counts one reference more. */
  lemma LockRefines(d: Dir, id: Id, ok: bool, d': Dir)
    requires WellFormed(d) && Lock(d, id, ok, d')
    ensures WellFormed(d') && d'.writeIndex == d.writeIndex && |d'.headers| == |d.headers|
    ensures ok <==> id in Live(d) && Live(d)[id] != PD_MAX_REFCNT
    ensures Live(d') == if ok then Live(d)[id := Live(d)[id] + 1] else Live(d)
  {
    var k := Index(id, |d.headers|);
    assert EntryOk(d, k);
    LiveIs(d, id);
    if ok {
      HeaderKeeps(d, d', k);
      LiveIs(d', id);
      forall x | x != id ensures x in Live(d') <==> x in Live(d)
        ensures x in Live(d) ==> Live(d')[x] == Live(d)[x]
      {
        LiveFrame(d, d', k, x);
      }
    }
  }

  /** Unlock drops one reference of a live entry; the last one frees it. */
  lemma UnlockRefines(d: Dir, id: Id, last: bool, d': Dir)
    requires WellFormed(d) && Unlock(d, id, last, d')
    ensures WellFormed(d') && d'.writeIndex == d.writeIndex && |d'.headers| == |d.headers|
    ensures last <==> id in Live(d) && Live(d)[id] == 1
    ensures id !in Live(d) ==> d' == d
    ensures id in Live(d) && !last ==> Live(d)[id] > 1 && Live(d') == Live(d)[id := Live(d)[id] - 1]
    ensures last ==> Live(d') == Live(d) - {id}
  {
    var k := Index(id, |d.headers|);
    assert EntryOk(d, k);
    LiveIs(d, id);
    if id in Live(d) {
      HeaderKeeps(d, d', k);
      LiveIs(d', id);
      forall x | x != id ensures x in Live(d') <==> x in Live(d)
        ensures x in Live(d) ==> Live(d')[x] == Live(d)[x]
      {
        LiveFrame(d, d', k, x);
      }
    }
  }

  lemma MaskKeepsIndex(id: Id, max: nat)
    requires max > 0 && ID_RANGE % max == 0
    ensures Index(id % ID_RANGE, max) == Index(id, max)
  {
    var q, s := id / ID_RANGE, id % ID_RANGE;
    var m := ID_RANGE / max;
    var a, r := s / max, s % max;
    assert ID_RANGE == max * m && s == max * a + r;
    Factor(max, m, q, a);
    assert id == max * (m * q + a) + r;
    ModUnique(id, max, m * q + a, r);
  }

  lemma Factor(x: nat, m: nat, q: nat, a: nat)
    ensures x * m * q + x * a == x * (m * q + a)
  {
  }

  lemma EntryTaken(d: Dir, kept: Id, d': Dir, k: nat, w: nat)
    requires WellFormed(d) && k == Index(kept, |d.headers|) && d.headers[k].refcnt == 0 && kept < ID_RANGE
    requires d.writeIndex <= w < WORD && kept < w && d' == Dir(d.headers[k := PdHeader(kept, 1)], w)
    ensures WellFormed(d') && kept !in Live(d) && Live(d') == Live(d)[kept := 1]
  {
    HeaderKeeps(d, d', k);
    LiveIs(d, kept);
    LiveIs(d', kept);
    forall x | x != kept ensures x in Live(d') <==> x in Live(d)
      ensures x in Live(d) ==> Live(d')[x] == Live(d)[x]
    {
      LiveFrame(d, d', k, x);
    }
  }

  lemma ScanEndIs(writeIndex: nat, max: nat)
    requires writeIndex < WORD && max < WORD
    ensures ScanEnd(writeIndex, max) == if writeIndex + max < WORD then writeIndex + max else writeIndex + max - WORD
  {
  }

  /** A new identifier was never handed out before. What becomes live is the part of it that its entry keeps:
      the identifier itself exactly if it is below 2^52. */
  lemma AllocRefines(d: Dir, id: Id, d': Dir)
    requires WellFormed(d) && Alloc(d, Some(id), d')
    ensures WellFormed(d') && |d'.headers| == |d.headers|
    ensures d.writeIndex <= id < d.writeIndex + |d.headers| && d'.writeIndex == id + 1
    ensures var kept := id % ID_RANGE;
      kept !in Live(d) && Live(d') == Live(d)[kept := 1] && (id in Live(d') <==> id < ID_RANGE)
  {
    var k := Index(id, |d.headers|);
    ScanEndIs(d.writeIndex, |d.headers|);
    MaskKeepsIndex(id, |d.headers|);
    EntryTaken(d, id % ID_RANGE, d', k, id + 1);
    LiveIs(d', id);
  }

  /** The identifier that an allocation hands out can be locked exactly if it fits its entry. From 2^52 on it
      can be neither locked nor unlocked. */
  lemma LockableExactly(d: Dir, id: Id, d': Dir)
    requires |d.headers| > 0 && Alloc(d, Some(id), d')
    ensures PdLock(d'.headers[Index(id, |d'.headers|)], id).Some? <==> id < ID_RANGE
    ensures PdUnlock(d'.headers[Index(id, |d'.headers|)], id).Some? <==> id < ID_RANGE
  {
  }

  // ---------------------------------------------------------------- when allocation fails

  ghost predicate Full(d: Dir) {
    forall k: nat :: k < |d.headers| ==> d.headers[k].refcnt > 0
  }

  /** Allocation fails exactly when every entry is live or the scan range wraps. */
  lemma AllocFailsExactly(d: Dir, r: Option<Id>, d': Dir)
    requires WellFormed(d) && Alloc(d, r, d')
    ensures r == None <==> Full(d) || d.writeIndex + |d.headers| >= WORD
  {
    var max := |d.headers|;
    ScanEndIs(d.writeIndex, max);
    if r.Some? {
      assert Takes(d, r.value);
    } else if d.writeIndex + max < WORD {
      forall k: nat | k < max ensures d.headers[k].refcnt > 0 {
        var i := SomeFallsOn(d.writeIndex, max, k);
        assert !Takes(d, i) && EntryOk(d, k);
      }
    }
  }

  /** Live identifiers that fall on the first `n` entries. */
  ghost function LiveBelow(d: Dir, n: nat): set<Id>
    requires |d.headers| > 0
  {
    set id | id in Live(d) && Index(id, |d.headers|) < n
  }

  lemma {:induction false} LiveBelowSize(d: Dir, n: nat)
    requires WellFormed(d) && n <= |d.headers|
    ensures |LiveBelow(d, n)| <= n
    ensures |LiveBelow(d, n)| == n <==> forall k: nat :: k < n ==> d.headers[k].refcnt > 0
  {
    if n == 0 {
      assert LiveBelow(d, 0) == {};
    } else {
      LiveBelowSize(d, n - 1);
      LiveBelowStep(d, n);
    }
  }

  lemma LiveBelowStep(d: Dir, n: nat)
    requires WellFormed(d) && 0 < n <= |d.headers|
    ensures |LiveBelow(d, n)| == |LiveBelow(d, n - 1)| + One(d.headers[n - 1].refcnt > 0)
  {
    var h := d.headers[n - 1];
    assert EntryOk(d, n - 1);
    if h.refcnt > 0 {
      LiveIs(d, h.id);
      forall id | id in LiveBelow(d, n) && id != h.id ensures id in LiveBelow(d, n - 1) {
        LiveIs(d, id);
      }
      assert h.id in LiveBelow(d, n) && h.id !in LiveBelow(d, n - 1);
      assert LiveBelow(d, n) == LiveBelow(d, n - 1) + {h.id};
    } else {
      forall id | id in LiveBelow(d, n) ensures id in LiveBelow(d, n - 1) {
        LiveIs(d, id);
      }
      assert LiveBelow(d, n) == LiveBelow(d, n - 1);
    }
  }

  /** The directory is full exactly when there are as many live identifiers as entries. */
  lemma FullIsSize(d: Dir)
    requires WellFormed(d)
    ensures |Live(d)| <= |d.headers| && (Full(d) <==> |Live(d)| == |d.headers|)
  {
    LiveBelowSize(d, |d.headers|);
    assert LiveBelow(d, |d.headers|) == Live(d).Keys;
    assert |Live(d)| == |Live(d).Keys|;
  }

  // ---------------------------------------------------------------- runs past the range

  datatype Op = AllocOp(r: Option<Id>) | LockOp(id: Id, ok: bool) | UnlockOp(id: Id, last: bool)

  ghost predicate Does(d: Dir, op: Op, d': Dir)
    requires |d.headers| > 0
  {
    match op
    case AllocOp(r) => Alloc(d, r, d')
    case LockOp(id, ok) => Lock(d, id, ok, d')
    case UnlockOp(id, last) => Unlock(d, id, last, d')
  }

  ghost predicate Run(max: nat, dirs: seq<Dir>, ops: seq<Op>) {
    && 2 <= max < WORD && |dirs| == |ops| + 1 && Created(dirs[0], max)
    && (forall i :: 0 <= i < |dirs| ==> |dirs[i].headers| == max)
    && (forall i :: 0 <= i < |ops| ==> Does(dirs[i], ops[i], dirs[i + 1]))
  }

  lemma Then(max: nat, dirs: seq<Dir>, ops: seq<Op>, op: Op, d': Dir) returns (more: seq<Dir>, acts: seq<Op>)
    requires Run(max, dirs, ops) && |d'.headers| == max && Does(dirs[|ops|], op, d')
    ensures Run(max, more, acts) && acts == ops + [op] && more[|acts|] == d'
  {
    more, acts := dirs + [d'], ops + [op];
    forall i | 0 <= i < |acts| ensures Does(more[i], acts[i], more[i + 1]) {
      assert more[i] == dirs[i];
      if i < |ops| {
        assert Does(dirs[i], ops[i], dirs[i + 1]);
      }
    }
  }

  /** No entry is live, and identifiers are handed out from `w` on. */
  ghost predicate Quiet(d: Dir, max: nat, w: nat) {
    |d.headers| == max && d.writeIndex == w && forall k :: 0 <= k < max ==> d.headers[k].refcnt == 0 && d.headers[k].id < w
  }

  /** In a directory without live entries the next identifier is the write index. */
  lemma NextIsFree(d: Dir, max: nat, w: nat) returns (d': Dir)
    requires 2 <= max <= ID_RANGE && w + max < WORD && Quiet(d, max, w)
    ensures d' == Dir(d.headers[Index(w, max) := PdHeader(w % ID_RANGE, 1)], w + 1) && Alloc(d, Some(w), d')
  {
    d' := Dir(d.headers[Index(w, max) := PdHeader(w % ID_RANGE, 1)], w + 1);
    ScanEndIs(w, max);
  }

  /** One entry allocated and freed. */
  lemma AllocAndFree(d: Dir, max: nat, w: nat) returns (m: Dir, d': Dir)
    requires 2 <= max <= ID_RANGE && 0 < w < ID_RANGE && Quiet(d, max, w)
    ensures Alloc(d, Some(w), m) && Unlock(m, w, true, d') && Quiet(d', max, w + 1) && |m.headers| == max
  {
    m := NextIsFree(d, max, w);
    assert w % ID_RANGE == w;
    d' := m.(headers := m.headers[Index(w, max) := PdHeader(w, 0)]);
  }

  /** Any run without live entries goes on until all identifiers below 2^52 were handed out. */
  lemma {:induction false} UsesUpRange(max: nat, dirs: seq<Dir>, ops: seq<Op>, w: nat) returns (more: seq<Dir>, acts: seq<Op>)
    requires max <= ID_RANGE && Run(max, dirs, ops) && 0 < w <= ID_RANGE && Quiet(dirs[|ops|], max, w)
    ensures Run(max, more, acts) && ops <= acts && Quiet(more[|acts|], max, ID_RANGE)
    decreases ID_RANGE - w
  {
    more, acts := dirs, ops;
    if w < ID_RANGE {
      var m, d' := AllocAndFree(dirs[|ops|], max, w);
      more, acts := Then(max, dirs, ops, AllocOp(Some(w)), m);
      more, acts := Then(max, more, acts, UnlockOp(w, true), d');
      more, acts := UsesUpRange(max, more, acts, w + 1);
    }
  }

  /** A new directory, after its first entry was allocated and freed, and all others below 2^52 too. */
  lemma ToTheEdge(max: nat) returns (dirs: seq<Dir>, ops: seq<Op>)
    requires 2 <= max <= ID_RANGE
    ensures Run(max, dirs, ops) && [AllocOp(Some(1)), UnlockOp(1, true)] <= ops && Quiet(dirs[|ops|], max, ID_RANGE)
  {
    var d := Dir(seq(max, _ => PdHeader(0, 0)), 1);
    assert Run(max, [d], []);
    var m, d' := AllocAndFree(d, max, 1);
    dirs, ops := Then(max, [d], [], AllocOp(Some(1)), m);
    dirs, ops := Then(max, dirs, ops, UnlockOp(1, true), d');
    dirs, ops := UsesUpRange(max, dirs, ops, 2);
  }

  /** For every size there is a run that hands out identifier 2^52, which its owner then cannot give back: the
      entry stays taken. */
  lemma NeverGivenBack(max: nat) returns (dirs: seq<Dir>, ops: seq<Op>)
    requires 2 <= max <= ID_RANGE
    ensures Run(max, dirs, ops) && |ops| > 2
    ensures ops[|ops| - 2..] == [AllocOp(Some(ID_RANGE)), UnlockOp(ID_RANGE, false)]
    ensures dirs[|ops|].headers[Index(ID_RANGE, max)].refcnt == 1
  {
    dirs, ops := ToTheEdge(max);
    var d' := NextIsFree(dirs[|ops|], max, ID_RANGE);
    dirs, ops := Then(max, dirs, ops, AllocOp(Some(ID_RANGE)), d');
    dirs, ops := Then(max, dirs, ops, UnlockOp(ID_RANGE, false), d');
  }

  /** The identifier that is left when the upper bits are dropped can be locked and reaches the new entry. */
  lemma OldIdentifierMatches(d: Dir, id: Id, d': Dir)
    requires |d.headers| > 0 && ID_RANGE % |d.headers| == 0 && Alloc(d, Some(id), d')
    ensures PdLock(d'.headers[Index(id % ID_RANGE, |d'.headers|)], id % ID_RANGE).Some?
  {
    MaskKeepsIndex(id, |d.headers|);
  }

  /** For every size that divides 2^52 there is a run in which identifier 1 is freed, and much later locked
      again: it reaches the pointer of identifier 2^52 + 1. */
  lemma OldIdentifierReturns(max: nat) returns (dirs: seq<Dir>, ops: seq<Op>)
    requires 2 <= max <= ID_RANGE && ID_RANGE % max == 0
    ensures Run(max, dirs, ops) && |ops| > 4 && ops[0] == AllocOp(Some(1)) && ops[1] == UnlockOp(1, true)
    ensures ops[|ops| - 2..] == [AllocOp(Some(ID_RANGE + 1)), LockOp(1, true)]
  {
    dirs, ops := ToTheEdge(max);
    var d := dirs[|ops|];
    var d1 := NextIsFree(d, max, ID_RANGE);
    dirs, ops := Then(max, dirs, ops, AllocOp(Some(ID_RANGE)), d1);
    assert Index(ID_RANGE, max) == 0;
    ModUnique(ID_RANGE + 1, max, ID_RANGE / max, 1);
    var d2 := Dir(d1.headers[1 := PdHeader(1, 1)], ID_RANGE + 2);
    ScanEndIs(ID_RANGE + 1, max);
    assert Alloc(d1, Some(ID_RANGE + 1), d2);
    dirs, ops := Then(max, dirs, ops, AllocOp(Some(ID_RANGE + 1)), d2);
    var d3 := d2.(headers := d2.headers[1 := PdHeader(1, 2)]);
    assert Index(1, max) == 1;
    dirs, ops := Then(max, dirs, ops, LockOp(1, true), d3);
  }
}
