/** The serial object directory is a map from live identifiers to reference counts whose identifiers are
    handed out in increasing order, until the 32-bit scan range wraps. */
module GodProof {
  import opened Common
  import opened Headers
  import opened God

  /** The objects in the directory and their counts. */
  ghost function Live(d: Dir): map<Id, int>
    requires |d.headers| > 0
  {
    map id: nat | id < d.writeIndex && Holds(d, id) :: d.headers[Index(id, |d.headers|)].refcnt
  }

  ghost predicate Holds(d: Dir, id: Id)
    requires |d.headers| > 0
  {
    var k := Index(id, |d.headers|);
    id != 0 && k != 0 && d.headers[k].reserved && d.headers[k].id == id
  }

  lemma LiveIs(d: Dir, id: Id)
    requires WellFormed(d)
    ensures id in Live(d) <==> Holds(d, id)
    ensures id in Live(d) ==> Live(d)[id] == d.headers[Index(id, |d.headers|)].refcnt
  {
    if Holds(d, id) {
      assert EntryOk(d, Index(id, |d.headers|));
    }
  }

  /** Replacing entry `k` by a header of the same identifier changes at most that identifier. */
  lemma LiveFrame(d: Dir, d': Dir, k: nat, x: Id)
    requires WellFormed(d) && WellFormed(d') && k < |d.headers|
    requires |d'.headers| == |d.headers| && d'.headers == d.headers[k := d'.headers[k]]
    requires Index(x, |d.headers|) != k || (d.headers[k].id != x && d'.headers[k].id != x)
    ensures x in Live(d') <==> x in Live(d)
    ensures x in Live(d) ==> Live(d')[x] == Live(d)[x]
  {
    LiveIs(d, x);
    LiveIs(d', x);
  }

  // ---------------------------------------------------------------- locking

  lemma LockKeeps(d: Dir, id: Id, ok: bool, d': Dir)
    requires WellFormed(d) && Lock(d, id, ok, d')
    ensures WellFormed(d')
  {
    assert EntryOk(d, Index(id, |d.headers|)) || Index(id, |d.headers|) == 0;
    forall k: nat | 0 < k < |d.headers| ensures EntryOk(d', k) {
      assert EntryOk(d, k);
    }
  }

  /** Lock succeeds exactly on a live object below the limit, and counts one reference more. */
  lemma LockRefines(d: Dir, id: Id, ok: bool, d': Dir)
    requires WellFormed(d) && Lock(d, id, ok, d')
    ensures WellFormed(d')
    ensures ok <==> id in Live(d) && Live(d)[id] < GOD_MAX_REFCNT
    ensures Live(d') == if ok then Live(d)[id := Live(d)[id] + 1] else Live(d)
  {
    LockKeeps(d, id, ok, d');
    LiveIs(d, id);
    LiveIs(d', id);
    var k := Index(id, |d.headers|);
    assert k > 0 ==> EntryOk(d, k);
    if ok {
      forall x | x != id ensures x in Live(d') <==> x in Live(d)
        ensures x in Live(d) ==> Live(d')[x] == Live(d)[x]
      {
        LiveFrame(d, d', k, x);
      }
    }
  }

  lemma UnlockKeeps(d: Dir, id: Id, freed: bool, d': Dir)
    requires WellFormed(d) && Unlock(d, id, freed, d')
    ensures WellFormed(d')
  {
    assert EntryOk(d, Index(id, |d.headers|)) || Index(id, |d.headers|) == 0;
    forall k: nat | 0 < k < |d.headers| ensures EntryOk(d', k) {
      assert EntryOk(d, k);
    }
  }

  /** Unlock frees exactly at the last reference; an identifier that is not live changes nothing. */
  lemma UnlockRefines(d: Dir, id: Id, freed: bool, d': Dir)
    requires WellFormed(d) && Unlock(d, id, freed, d')
    ensures WellFormed(d')
    ensures freed <==> id in Live(d) && Live(d)[id] == 1
    ensures Live(d') == if id !in Live(d) then Live(d) else if Live(d)[id] == 1 then Live(d) - {id}
                        else Live(d)[id := Live(d)[id] - 1]
  {
    UnlockKeeps(d, id, freed, d');
    LiveIs(d, id);
    LiveIs(d', id);
    var k := Index(id, |d.headers|);
    assert k > 0 ==> EntryOk(d, k);
    if id in Live(d) {
      forall x | x != id ensures x in Live(d') <==> x in Live(d)
        ensures x in Live(d) ==> Live(d')[x] == Live(d)[x]
      {
        LiveFrame(d, d', k, x);
      }
    }
  }

  /** The final unlock drops only the last reference, and says why it did not. */
  lemma UnlockFinalRefines(d: Dir, id: Id, r: GodResult, d': Dir)
    requires WellFormed(d) && UnlockFinal(d, id, r, d')
    ensures WellFormed(d')
    ensures r == Ok <==> id in Live(d) && Live(d)[id] == 1
    ensures r == Locked <==> id in Live(d) && Live(d)[id] > 1
    ensures r == InvalidState <==> id != 0 && id !in Live(d)
    ensures r == NotFound <==> id == 0
    ensures Live(d') == if r == Ok then Live(d) - {id} else Live(d)
  {
    var k := Index(id, |d.headers|);
    assert k > 0 ==> EntryOk(d, k);
    forall j: nat | 0 < j < |d.headers| ensures EntryOk(d', j) {
      assert EntryOk(d, j);
    }
    LiveIs(d, id);
    LiveIs(d', id);
    if r == Ok {
      forall x | x != id ensures x in Live(d') <==> x in Live(d)
        ensures x in Live(d) ==> Live(d')[x] == Live(d)[x]
      {
        LiveFrame(d, d', k, x);
      }
    }
  }

  // ---------------------------------------------------------------- allocation

  lemma ScanEndIs(writeIndex: nat, max: nat)
    requires writeIndex < WORD && max < WORD
    ensures ScanEnd(writeIndex, max) == if writeIndex + max < WORD then writeIndex + max else writeIndex + max - WORD
  {
  }

  /** Identifiers in the directory are older than the ones a scan tries. */
  lemma TakesIs(d: Dir, i: Id)
    requires WellFormed(d) && d.writeIndex <= i
    ensures Takes(d, i) <==> Index(i, |d.headers|) != 0 && !d.headers[Index(i, |d.headers|)].reserved
  {
    var k := Index(i, |d.headers|);
    assert k > 0 ==> EntryOk(d, k);
  }

  lemma AllocKeeps(d: Dir, r: Id, d': Dir)
    requires WellFormed(d) && Alloc(d, r, d')
    ensures WellFormed(d')
  {
    ScanEndIs(d.writeIndex, |d.headers|);
    if r != 0 {
      TakesIs(d, r);
      forall k: nat | 0 < k < |d.headers| ensures EntryOk(d', k) {
        assert EntryOk(d, k);
      }
    }
  }

  /** A new object has an identifier that is not live, one reference, and disturbs no other object. */
  lemma AllocRefines(d: Dir, r: Id, d': Dir)
    requires WellFormed(d) && Alloc(d, r, d')
    ensures WellFormed(d')
    ensures r != 0 ==> r !in Live(d) && Live(d') == Live(d)[r := 1]
    ensures r == 0 ==> d' == d
  {
    AllocKeeps(d, r, d');
    if r != 0 {
      TakesIs(d, r);
      LiveIs(d', r);
      var k := Index(r, |d.headers|);
      assert EntryOk(d, k);
      forall x | x != r ensures x in Live(d') <==> x in Live(d)
        ensures x in Live(d) ==> Live(d')[x] == Live(d)[x]
      {
        LiveIs(d, x);
        LiveIs(d', x);
      }
    }
  }

  /** Allocation fails exactly when every usable entry is taken or the scan range wraps. */
  lemma AllocFailsExactly(d: Dir, r: Id, d': Dir)
    requires WellFormed(d) && Alloc(d, r, d')
    ensures r == 0 <==> Full(d) || d.writeIndex + |d.headers| >= WORD
  {
    var max := |d.headers|;
    ScanEndIs(d.writeIndex, max);
    if r != 0 {
      TakesIs(d, r);
    } else if d.writeIndex + max < WORD {
      forall k: nat | 0 < k < max ensures d.headers[k].reserved {
        var i := SomeFallsOn(d.writeIndex, max, k);
        TakesIs(d, i);
        assert !Takes(d, i);
      }
    }
  }

  // ---------------------------------------------------------------- whole runs

  lemma OpKeeps(d: Dir, op: Op, d': Dir)
    requires WellFormed(d) && Does(d, op, d')
    ensures WellFormed(d') && d.writeIndex <= d'.writeIndex && |d'.headers| == |d.headers|
  {
    match op
    case AllocOp(r) => AllocKeeps(d, r, d');
    case LockOp(id, ok) => LockRefines(d, id, ok, d');
    case UnlockOp(id, freed) => UnlockRefines(d, id, freed, d');
    case FinalOp(id, res) => UnlockFinalRefines(d, id, res, d');
  }

  lemma {:induction false} RunKeeps(max: nat, dirs: seq<Dir>, ops: seq<Op>, n: nat)
    requires Run(max, dirs, ops) && n < |dirs|
    ensures WellFormed(dirs[n])
  {
    if n == 0 {
      forall k: nat | 0 < k < max ensures EntryOk(dirs[0], k) {
      }
    } else {
      RunKeeps(max, dirs, ops, n - 1);
      OpKeeps(dirs[n - 1], ops[n - 1], dirs[n]);
    }
  }

  lemma {:induction false} IndexGrows(max: nat, dirs: seq<Dir>, ops: seq<Op>, i: nat, j: nat)
    requires Run(max, dirs, ops) && i <= j < |dirs|
    ensures dirs[i].writeIndex <= dirs[j].writeIndex
  {
    if i < j {
      IndexGrows(max, dirs, ops, i, j - 1);
      RunKeeps(max, dirs, ops, j - 1);
      OpKeeps(dirs[j - 1], ops[j - 1], dirs[j]);
    }
  }

  /** Identifiers are handed out in strictly increasing order, so none is ever reused. */
  lemma IdsIncrease(max: nat, dirs: seq<Dir>, ops: seq<Op>, i: nat, j: nat)
    requires Run(max, dirs, ops) && i < j < |ops|
    requires ops[i].AllocOp? && ops[j].AllocOp? && ops[i].r != 0 && ops[j].r != 0
    ensures ops[i].r < ops[j].r
  {
    IndexGrows(max, dirs, ops, i + 1, j);
    assert Does(dirs[i], ops[i], dirs[i + 1]);
    assert Does(dirs[j], ops[j], dirs[j + 1]);
  }

  /** Once the scan range wraps, no allocation of the rest of the run succeeds, whatever is freed. */
  lemma {:induction false} AllocationEnds(max: nat, dirs: seq<Dir>, ops: seq<Op>, i: nat, j: nat)
    requires Run(max, dirs, ops) && i <= j < |ops|
    requires dirs[i].writeIndex + max >= WORD && ops[j].AllocOp?
    ensures ops[j].r == 0 && dirs[j + 1] == dirs[j]
  {
    IndexGrows(max, dirs, ops, i, j);
    RunKeeps(max, dirs, ops, j);
    assert Does(dirs[j], ops[j], dirs[j + 1]);
    AllocFailsExactly(dirs[j], ops[j].r, dirs[j + 1]);
  }

  // ---------------------------------------------------------------- runs that show what goes wrong

  lemma Extend(max: nat, dirs: seq<Dir>, ops: seq<Op>, op: Op, d': Dir)
    requires Run(max, dirs, ops) && |d'.headers| == max && Does(dirs[|ops|], op, d')
    ensures Run(max, dirs + [d'], ops + [op])
  {
    var dirs', ops' := dirs + [d'], ops + [op];
    forall i | 0 <= i < |ops'| ensures Does(dirs'[i], ops'[i], dirs'[i + 1]) {
      assert dirs'[i] == dirs[i];
      if i < |ops| {
        assert Does(dirs[i], ops[i], dirs[i + 1]);
      }
    }
  }

  /** The directory after prs_god_create. */
  function Fresh(max: nat): Dir {
    Dir(seq(max, k => if k == 0 then GodHeader(0, true, true, false, 0) else GodHeader(0, false, false, false, 0)), 1)
  }

  /** The first object gets identifier 1: no unused entry stands in its way. */
  lemma FirstIdentifier(d: Dir, max: nat, r: Id, d': Dir)
    requires 2 <= max && 1 + max < WORD && Created(d, max) && Alloc(d, r, d')
    ensures r == 1
  {
    ScanEndIs(1, max);
    assert Takes(d, 1);
  }

  ghost predicate NoObjects(d: Dir) {
    WellFormed(d) && forall k: nat :: 0 < k < |d.headers| ==> !d.headers[k].reserved
  }

  lemma NextIndex(w: nat, max: nat)
    requires max > 1 && Index(w, max) == 0
    ensures Index(w + 1, max) == 1
  {
    ModUnique(w + 1, max, w / max, 1);
  }

  /** An object is created and dropped again: no object is left and the write index is higher. */
  lemma AllocAndFree(d: Dir) returns (r: Id, m: Dir, d': Dir)
    requires NoObjects(d) && d.writeIndex + |d.headers| < WORD
    ensures Alloc(d, r, m) && r != 0 && Unlock(m, r, true, d') && NoObjects(d')
    ensures |m.headers| == |d'.headers| == |d.headers| && d'.writeIndex > d.writeIndex
  {
    var max := |d.headers|;
    ScanEndIs(d.writeIndex, max);
    if Index(d.writeIndex, max) == 0 {
      NextIndex(d.writeIndex, max);
      r := d.writeIndex + 1;
      TakesIs(d, d.writeIndex);
    } else {
      r := d.writeIndex;
    }
    TakesIs(d, r);
    var k := Index(r, max);
    m := Dir(d.headers[k := GodHeader(r, true, true, false, 1)], r + 1);
    d' := m.(headers := m.headers[k := GodHeader(r, false, false, false, 0)]);
    AllocKeeps(d, r, m);
    UnlockKeeps(m, r, true, d');
  }

  /** From a directory without objects a run reaches the wrap of the scan range, again without objects. */
  lemma {:induction false} WearsOut(max: nat, dirs: seq<Dir>, ops: seq<Op>) returns (dirs': seq<Dir>, ops': seq<Op>)
    requires Run(max, dirs, ops) && NoObjects(dirs[|ops|])
    ensures Run(max, dirs', ops') && NoObjects(dirs'[|ops'|]) && dirs'[|ops'|].writeIndex + max >= WORD
    decreases WORD - dirs[|ops|].writeIndex
  {
    dirs', ops' := dirs, ops;
    var d := dirs[|ops|];
    if d.writeIndex + max < WORD {
      var r, m, e := AllocAndFree(d);
      Extend(max, dirs, ops, AllocOp(r), m);
      Extend(max, dirs + [m], ops + [AllocOp(r)], UnlockOp(r, true), e);
      dirs', ops' := WearsOut(max, dirs + [m] + [e], ops + [AllocOp(r)] + [UnlockOp(r, true)]);
    }
  }

  /** For every size there is a run after which no object is live and yet allocation fails. */
  lemma FailsWhileEmpty(max: nat) returns (dirs: seq<Dir>, ops: seq<Op>)
    requires 2 <= max < WORD
    ensures Run(max, dirs, ops) && |ops| > 0 && ops[|ops| - 1] == AllocOp(0)
    ensures Live(dirs[|ops| - 1]) == map[] && !Full(dirs[|ops| - 1])
  {
    var d := Fresh(max);
    assert Run(max, [d], []);
    forall k: nat | 0 < k < max ensures EntryOk(d, k) {
    }
    dirs, ops := WearsOut(max, [d], []);
    var last := dirs[|ops|];
    ScanEndIs(last.writeIndex, max);
    assert Alloc(last, 0, last);
    Extend(max, dirs, ops, AllocOp(0), last);
    assert !last.headers[1].reserved;
    forall id ensures id !in Live(last) {
      LiveIs(last, id);
    }
    dirs, ops := dirs + [last], ops + [AllocOp(0)];
  }

  /** An object that was freed by its final unlock answers a second one with InvalidState, not NotFound. */
  lemma GoneIsInvalidState(max: nat) returns (dirs: seq<Dir>, ops: seq<Op>)
    requires 2 <= max && 1 + max < WORD
    ensures Run(max, dirs, ops) && ops == [AllocOp(1), FinalOp(1, Ok), FinalOp(1, InvalidState)]
  {
    var d := Fresh(max);
    var m := Dir(d.headers[1 := GodHeader(1, true, true, false, 1)], 2);
    var e := m.(headers := m.headers[1 := GodHeader(1, false, false, false, 0)]);
    ScanEndIs(1, max);
    assert Run(max, [d], []);
    Extend(max, [d], [], AllocOp(1), m);
    Extend(max, [d] + [m], [] + [AllocOp(1)], FinalOp(1, Ok), e);
    Extend(max, [d] + [m] + [e], [] + [AllocOp(1)] + [FinalOp(1, Ok)], FinalOp(1, InvalidState), e);
    dirs := [d] + [m] + [e] + [e];
    ops := [] + [AllocOp(1)] + [FinalOp(1, Ok)] + [FinalOp(1, InvalidState)];
  }
}
