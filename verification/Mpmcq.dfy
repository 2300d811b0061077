/** The queue of prs/lib/ds/mpmcq.c over a pointer directory of its own, with calls run one at a time. Nodes
    are named by directory identifiers; a consumed node may stay at the head as a dummy. */
module Mpmcq {
  import opened Common
  import opened Headers
  import Pd

  type Id = nat
  const INVALID: Id := Pd.INVALID

  datatype Node = Node(next: Id, consumed: bool, data: int)

  datatype PopResult = Popped(data: int) | Empty | Unknown

  ghost predicate Known(nodes: map<Id, Node>, chain: seq<Id>) {
    forall i :: 0 <= i < |chain| ==> chain[i] in nodes && chain[i] != INVALID
  }

  /** The data that a chain of nodes stands for. */
  ghost function Data(nodes: map<Id, Node>, chain: seq<Id>): seq<int>
    requires Known(nodes, chain)
  {
    if chain == [] then [] else
      (if nodes[chain[0]].consumed then [] else [nodes[chain[0]].data]) + Data(nodes, chain[1..])
  }

  /** The node after position `i`, invalid at the end. */
  ghost function NextOf(chain: seq<Id>, i: nat): Id {
    if i + 1 < |chain| then chain[i + 1] else INVALID
  }

  /** The chain links its nodes, ends with no successor, and only its head may be consumed. */
  ghost predicate Linked(nodes: map<Id, Node>, chain: seq<Id>) {
    && NoDuplicates(chain)
    && Known(nodes, chain)
    && (forall i: nat {:trigger NextOf(chain, i)} :: i < |chain| ==> nodes[chain[i]].next == NextOf(chain, i))
    && (forall i :: 0 < i < |chain| ==> !nodes[chain[i]].consumed)
  }

  /** Every live entry of the directory has count 1, except that `locked` has one more. */
  ghost predicate Counted(counts: map<Id, nat>, locked: Id) {
    forall id :: id in counts ==> counts[id] == if id == locked then 2 else 1
  }

  ghost function Last(chain: seq<Id>): Id {
    if chain == [] then INVALID else chain[|chain| - 1]
  }

  ghost function First(chain: seq<Id>): Id {
    if chain == [] then INVALID else chain[0]
  }

  // ---------------------------------------------------------------- chains

  lemma {:induction false} DataSame(nodes: map<Id, Node>, nodes': map<Id, Node>, chain: seq<Id>)
    requires Known(nodes, chain) && Known(nodes', chain)
    requires forall i :: 0 <= i < |chain| ==> nodes'[chain[i]].data == nodes[chain[i]].data && nodes'[chain[i]].consumed == nodes[chain[i]].consumed
    ensures Data(nodes', chain) == Data(nodes, chain)
  {
    if chain != [] {
      DataSame(nodes, nodes', chain[1..]);
    }
  }

  lemma {:induction false} DataAppend(nodes: map<Id, Node>, chain: seq<Id>, id: Id)
    requires Known(nodes, chain) && id in nodes && id != INVALID
    ensures Data(nodes, chain + [id]) == Data(nodes, chain) + if nodes[id].consumed then [] else [nodes[id].data]
  {
    if chain != [] {
      assert (chain + [id])[1..] == chain[1..] + [id];
      DataAppend(nodes, chain[1..], id);
    }
  }

  /** The nodes after `id` is linked behind the chain. */
  function Appended(nodes: map<Id, Node>, last: Id, id: Id, data: int): map<Id, Node> {
    var added := nodes[id := Node(INVALID, false, data)];
    if last in added && last != INVALID then added[last := added[last].(next := id)] else added
  }

  lemma LinkAppend(nodes: map<Id, Node>, chain: seq<Id>, id: Id, data: int)
    requires Linked(nodes, chain) && id !in chain && id != INVALID
    ensures Linked(Appended(nodes, Last(chain), id, data), chain + [id])
    ensures Data(Appended(nodes, Last(chain), id, data), chain + [id]) == Data(nodes, chain) + [data]
  {
    var nodes' := Appended(nodes, Last(chain), id, data);
    DataSame(nodes, nodes', chain);
    DataAppend(nodes', chain, id);
    forall i: nat | i < |chain| + 1 ensures nodes'[(chain + [id])[i]].next == NextOf(chain + [id], i) {
      if i < |chain| {
        assert nodes[chain[i]].next == NextOf(chain, i);
      }
    }
  }

  /** The live nodes are those of the chain, each has a directory entry, and freed ones are gone for good. */
  ghost predicate Holds(nodes: map<Id, Node>, counts: map<Id, nat>, head: Id, chain: seq<Id>, freed: seq<Id>) {
    && Linked(nodes, chain) && head == First(chain)
    && counts.Keys == nodes.Keys && INVALID !in nodes && (forall id :: id in nodes ==> id in chain)
    && NoDuplicates(freed) && (forall i :: 0 <= i < |freed| ==> freed[i] !in nodes)
  }

  lemma HoldsAppend(nodes: map<Id, Node>, counts: map<Id, nat>, counts': map<Id, nat>, chain: seq<Id>, freed: seq<Id>, id: Id, data: int)
    requires Holds(nodes, counts, First(chain), chain, freed) && id !in nodes && id != INVALID && id !in freed
    requires counts'.Keys == counts.Keys + {id}
    ensures Holds(Appended(nodes, Last(chain), id, data), counts', First(chain + [id]), chain + [id], freed)
  {
    LinkAppend(nodes, chain, id, data);
    var nodes' := Appended(nodes, Last(chain), id, data);
    assert nodes'.Keys == nodes.Keys + {id} by {
      assert Last(chain) != INVALID ==> Last(chain) in chain;
    }
  }

  /** A node that is allocated and not linked yet disturbs nothing. */
  lemma NewNode(nodes: map<Id, Node>, counts: map<Id, nat>, chain: seq<Id>, freed: seq<Id>, id: Id, kept: Id, data: int)
    requires Holds(nodes, counts, First(chain), chain, freed) && Counted(counts, INVALID) && id !in chain && kept != INVALID
    ensures Linked(nodes[id := Node(INVALID, false, data)], chain) && Counted(counts[kept := 1], INVALID)
    ensures AllLive(chain, counts.Keys)
  {
    var nodes' := nodes[id := Node(INVALID, false, data)];
    forall i: nat | i < |chain| ensures nodes'[chain[i]].next == NextOf(chain, i) {
      assert nodes[chain[i]].next == NextOf(chain, i);
    }
  }

  /** The node is linked: the queue holds one element more. */
  lemma NodeLinked(nodes: map<Id, Node>, counts: map<Id, nat>, nodes': map<Id, Node>, counts': map<Id, nat>, chain: seq<Id>,
                   freed: seq<Id>, id: Id, data: int)
    requires Holds(nodes, counts, First(chain), chain, freed) && id !in counts && id != INVALID && id !in freed
    requires counts'.Keys == counts.Keys + {id}
    requires var added := nodes[id := Node(INVALID, false, data)];
      nodes' == if chain != [] then added[Last(chain) := added[Last(chain)].(next := id)] else added
    ensures Holds(nodes', counts', First(chain + [id]), chain + [id], freed) && Last(chain + [id]) == id
    ensures Data(nodes', chain + [id]) == Data(nodes, chain) + [data]
  {
    HoldsAppend(nodes, counts, counts', chain, freed, id, data);
    LinkAppend(nodes, chain, id, data);
    assert nodes' == Appended(nodes, Last(chain), id, data);
  }

  // Taking the head away, and consuming it.

  lemma LinkedTail(nodes: map<Id, Node>, chain: seq<Id>)
    requires chain != [] && Linked(nodes, chain)
    ensures Linked(nodes - {chain[0]}, chain[1..])
    ensures nodes[chain[0]].consumed ==> Data(nodes, chain) == Data(nodes - {chain[0]}, chain[1..])
  {
    var rest := chain[1..];
    var nodes' := nodes - {chain[0]};
    assert Known(nodes', rest);
    DataSame(nodes, nodes', rest);
    forall i: nat | i < |rest| ensures nodes'[rest[i]].next == NextOf(rest, i) {
      assert nodes[chain[i + 1]].next == NextOf(chain, i + 1);
    }
  }

  lemma HoldsTail(nodes: map<Id, Node>, counts: map<Id, nat>, chain: seq<Id>, freed: seq<Id>)
    requires |chain| > 1 && Holds(nodes, counts, chain[0], chain, freed)
    ensures Holds(nodes - {chain[0]}, counts - {chain[0]}, chain[1], chain[1..], freed + [chain[0]])
  {
    LinkedTail(nodes, chain);
    assert chain == [chain[0]] + chain[1..];
  }

  lemma TailFacts(chain: seq<Id>, freed: seq<Id>)
    requires |chain| > 1
    ensures chain[1..][0] == chain[1] && Last(chain[1..]) == Last(chain)
    ensures (freed + [chain[0]]) + chain[1..] == freed + chain
  {
  }

  function Consumed(nodes: map<Id, Node>, t: Id): map<Id, Node>
    requires t in nodes
  {
    nodes[t := nodes[t].(consumed := true)]
  }

  lemma LinkedConsumed(nodes: map<Id, Node>, chain: seq<Id>)
    requires chain != [] && Linked(nodes, chain)
    ensures Linked(Consumed(nodes, chain[0]), chain)
  {
    var nodes' := Consumed(nodes, chain[0]);
    forall i: nat | i < |chain| ensures nodes'[chain[i]].next == NextOf(chain, i) {
      assert nodes[chain[i]].next == NextOf(chain, i);
    }
  }

  lemma DataConsumed(nodes: map<Id, Node>, chain: seq<Id>)
    requires chain != [] && Linked(nodes, chain) && !nodes[chain[0]].consumed
    ensures Known(Consumed(nodes, chain[0]), chain)
    ensures Data(nodes, chain) == [nodes[chain[0]].data] + Data(Consumed(nodes, chain[0]), chain)
  {
    var nodes' := Consumed(nodes, chain[0]);
    assert Known(nodes', chain[1..]);
    DataSame(nodes, nodes', chain[1..]);
    assert Data(nodes', chain) == Data(nodes', chain[1..]);
  }

  lemma HoldsConsumed(nodes: map<Id, Node>, counts: map<Id, nat>, chain: seq<Id>, freed: seq<Id>)
    requires chain != [] && Holds(nodes, counts, chain[0], chain, freed)
    ensures Holds(Consumed(nodes, chain[0]), counts, chain[0], chain, freed)
  {
    LinkedConsumed(nodes, chain);
    assert Consumed(nodes, chain[0]).Keys == nodes.Keys;
  }

  /** All nodes but a consumed head carry an element. */
  lemma {:induction false} DataLength(nodes: map<Id, Node>, chain: seq<Id>)
    requires Known(nodes, chain) && forall i :: 0 <= i < |chain| ==> !nodes[chain[i]].consumed
    ensures |Data(nodes, chain)| == |chain|
  {
    if chain != [] {
      DataLength(nodes, chain[1..]);
    }
  }

  lemma {:induction false} ChainSize(ids: set<Id>, chain: seq<Id>)
    requires NoDuplicates(chain) && forall id :: id in ids <==> id in chain
    ensures |ids| == |chain|
  {
    if chain != [] {
      assert chain == [chain[0]] + chain[1..];
      ChainSize(ids - {chain[0]}, chain[1..]);
    }
  }

  /** The entries that a queue takes: one for each element, and one for a consumed head. */
  ghost function Slots(nodes: map<Id, Node>, chain: seq<Id>): nat
    requires Known(nodes, chain)
  {
    |Data(nodes, chain)| + One(chain != [] && nodes[chain[0]].consumed)
  }

  /** Between calls the live entries of the directory are those, each with count 1. */
  lemma LiveEntries(nodes: map<Id, Node>, counts: map<Id, nat>, head: Id, chain: seq<Id>, freed: seq<Id>)
    requires Holds(nodes, counts, head, chain, freed) && Counted(counts, INVALID)
    ensures |counts| == Slots(nodes, chain)
    ensures forall id :: id in counts ==> counts[id] == 1
  {
    assert forall id :: id in nodes.Keys <==> id in chain;
    ChainSize(nodes.Keys, chain);
    assert |counts| == |counts.Keys|;
    if chain != [] {
      DataLength(nodes, chain[1..]);
    }
  }

  ghost predicate AllLive(chain: seq<Id>, live: set<Id>) {
    forall i :: 0 <= i < |chain| ==> chain[i] in live
  }

  /** Freed identifiers are older than `bound`. */
  ghost predicate FreedBelow(freed: seq<Id>, bound: nat) {
    forall i :: 0 <= i < |freed| ==> freed[i] < bound
  }

  lemma NotFreed(freed: seq<Id>, bound: nat, id: Id)
    requires FreedBelow(freed, bound) && bound <= id
    ensures id !in freed
  {
  }

  class Queue {
    const pd: Pd.Directory
    var head: Id
    var tail: Id
    var nodes: map<Id, Node>            // allocated nodes
    /** The live entries of the directory, the linked nodes, and the nodes freed so far. */
    ghost var counts: map<Id, nat>
    ghost var chain: seq<Id>
    ghost var freed: seq<Id>

    ghost predicate Dir()
      reads this, pd, pd.headers
    {
      Pd.WellFormed(pd.View()) && counts == Pd.Live(pd.View())
    }

    ghost predicate Shape()
      reads this, pd, pd.headers
    {
      && Dir() && Holds(nodes, counts, head, chain, freed)
      && FreedBelow(freed, pd.writeIndex)
    }

    ghost predicate Valid()
      reads this, pd, pd.headers
    {
      Shape() && tail == Last(chain) && Counted(counts, INVALID)
    }

    ghost function Contents(): seq<int>
      reads this, pd, pd.headers
      requires Valid()
    {
      Data(nodes, chain)
    }

    constructor (max: nat)
      requires 2 <= max <= Pd.ID_RANGE && Pd.ID_RANGE % max == 0
      ensures Valid() && Contents() == [] && freed == [] && chain == [] && fresh(pd) && fresh(pd.headers)
      ensures pd.headers.Length == max && pd.writeIndex == 1
    {
      pd := new Pd.Directory(max);
      head, tail, nodes, counts, chain, freed := INVALID, INVALID, map[], map[], [], [];
      new;
      Pd.CreatedIsEmpty(pd.View(), max);
    }

    /** prs_mpmcq_lock. */
    method Lock(id: Id) returns (found: bool)
      requires Dir()
      modifies this`counts, pd.headers
      ensures Dir() && found == (id in old(counts) && old(counts)[id] != PD_MAX_REFCNT)
      ensures counts == if found then old(counts)[id := old(counts)[id] + 1] else old(counts)
    {
      found := id != INVALID;
      if found {
        found := pd.LockEntry(id);
        Pd.LockRefines(old(pd.View()), id, found, pd.View());
        counts := Pd.Live(pd.View());
      } else {
        Pd.LiveIs(pd.View(), id);
      }
    }

    /** prs_mpmcq_unlock: the last reference frees the node. */
    method Unlock(id: Id)
      requires Dir() && id in counts
      modifies this`nodes, this`counts, this`freed, pd.headers
      ensures Dir()
      ensures old(counts)[id] == 1 ==> nodes == old(nodes) - {id} && counts == old(counts) - {id} && freed == old(freed) + [id]
      ensures old(counts)[id] != 1 ==>
                nodes == old(nodes) && counts == old(counts)[id := old(counts)[id] - 1] && freed == old(freed)
    {
      var last := pd.UnlockEntry(id);
      Pd.UnlockRefines(old(pd.View()), id, last, pd.View());
      counts := Pd.Live(pd.View());
      if last {
        nodes := nodes - {id};
        freed := freed + [id];
      }
    }

    /** Moves the tail, which is locked, to the node after it if there is one. */
    method MoveTail(t: Id) returns (next: Id, more: bool)
      requires Dir() && t in nodes && t in counts && nodes[t].next != t && Counted(counts, t)
      modifies this`tail, this`nodes, this`counts, this`freed, pd.headers
      ensures Dir() && nodes == old(nodes) && freed == old(freed) && counts.Keys == old(counts).Keys
      ensures next == nodes[t].next && (more <==> next in counts)
      ensures if more then tail == next && Counted(counts, next) else tail == old(tail) && Counted(counts, t)
    {
      next := nodes[t].next;
      more := Lock(next);
      if more {
        tail := next;
        Unlock(t);
      }
    }

    /** The same at position `k` of the chain. */
    method StepTail(t: Id, ghost k: nat) returns (next: Id, more: bool)
      requires Dir() && Linked(nodes, chain) && AllLive(chain, counts.Keys)
      requires k < |chain| && t == chain[k] == tail && Counted(counts, t)
      modifies this`tail, this`nodes, this`counts, this`freed, pd.headers
      ensures Dir() && nodes == old(nodes) && freed == old(freed) && counts.Keys == old(counts).Keys
      ensures more <==> k + 1 < |chain|
      ensures if more then next == chain[k + 1] == tail && Counted(counts, next) else tail == t && Counted(counts, t)
    {
      InvalidIsDead(pd.View());
      NextFacts(nodes, chain, k, counts.Keys);
      next, more := MoveTail(t);
    }

    /** Moves the locked tail up to the last node. */
    method WalkTail(start: Id, ghost at: nat) returns (t: Id)
      requires Dir() && Linked(nodes, chain) && AllLive(chain, counts.Keys)
      requires at < |chain| && start == chain[at] == tail && Counted(counts, start)
      modifies this`tail, this`nodes, this`counts, this`freed, pd.headers
      ensures Dir() && nodes == old(nodes) && freed == old(freed) && counts.Keys == old(counts).Keys
      ensures t == tail == Last(chain) && Counted(counts, t)
    {
      t := start;
      ghost var k := at;
      var more := true;
      while more
        invariant Dir() && nodes == old(nodes) && freed == old(freed) && counts.Keys == old(counts).Keys
        invariant k < |chain| && t == chain[k] == tail && Counted(counts, t) && (!more ==> k + 1 == |chain|)
        decreases |chain| - k, more
      {
        var next;
        next, more := StepTail(t, k);
        if more {
          t, k := next, k + 1;
        }
      }
    }

    /** Locks the last node; a tail that is behind is moved up, node by node. */
    method LockLast() returns (found: bool, t: Id)
      requires Dir() && Linked(nodes, chain) && AllLive(chain, counts.Keys)
      requires Counted(counts, INVALID) && (if chain == [] then tail == INVALID else tail in chain)
      modifies this`tail, this`nodes, this`counts, this`freed, pd.headers
      ensures Dir() && nodes == old(nodes) && freed == old(freed) && tail == t == Last(chain)
      ensures found <==> chain != []
      ensures Counted(counts, t) && counts.Keys == old(counts).Keys
    {
      InvalidIsDead(pd.View());
      t := tail;
      found := Lock(t);
      if found {
        ghost var k: nat :| k < |chain| && chain[k] == tail;
        t := WalkTail(t, k);
      }
    }

    /** Links node `id` behind node `t`, or makes it the first one, and lets go of `t`. */
    method Link(id: Id, found: bool, t: Id)
      requires Dir() && Counted(counts, t) && INVALID !in counts
      requires if found then t in nodes && t in counts else t == INVALID
      modifies this`nodes, this`counts, this`head, this`tail, this`freed, pd.headers
      ensures Dir() && counts.Keys == old(counts).Keys && Counted(counts, INVALID)
      ensures nodes == if found then old(nodes)[t := old(nodes)[t].(next := id)] else old(nodes)
      ensures tail == id && freed == old(freed) && head == if found then old(head) else id
    {
      if found {
        nodes := nodes[t := nodes[t].(next := id)];
        Unlock(t);
      } else {
        head := id;
      }
      tail := id;
    }

    /** An entry for a new node: its identifier was never used before, and what becomes live is the part of it
        that the directory keeps. */
    method AllocEntry() returns (r: Option<Id>)
      requires Valid()
      modifies this`counts, pd`writeIndex, pd.headers
      ensures Dir()
      ensures r == None <==> old(|counts|) >= pd.headers.Length || old(pd.writeIndex) + pd.headers.Length >= Pd.WORD
      ensures r == None ==> counts == old(counts) && pd.writeIndex == old(pd.writeIndex)
      ensures r.Some? ==> old(pd.writeIndex) <= r.value < old(pd.writeIndex) + pd.headers.Length && pd.writeIndex == r.value + 1
      ensures r.Some? ==> r.value != INVALID && r.value !in chain && r.value !in freed
      ensures r.Some? ==> var kept := r.value % Pd.ID_RANGE; kept !in old(counts) && counts == old(counts)[kept := 1]
      ensures r.Some? && r.value >= Pd.ID_RANGE ==> r.value !in counts
    {
      r := pd.AllocAndLock();
      Pd.AllocFailsExactly(old(pd.View()), r, pd.View());
      Pd.FullIsSize(old(pd.View()));
      if r.Some? {
        ChainIsOld(old(pd.View()), nodes, chain, r.value);
        NotFreed(freed, old(pd.writeIndex), r.value);
        Pd.AllocRefines(old(pd.View()), r.value, pd.View());
        counts := Pd.Live(pd.View());
      }
    }

    /** prs_mpmcq_alloc_node. It fails exactly when the live entries fill the directory or the scan wraps. */
    method AllocNode(data: int) returns (r: Option<Id>)
      requires Valid()
      modifies this`nodes, this`counts, pd`writeIndex, pd.headers
      ensures Dir() && FreedBelow(freed, pd.writeIndex) && (r == None ==> Valid() && Contents() == old(Contents()))
      ensures r == None <==> old(Slots(nodes, chain)) >= pd.headers.Length || old(pd.writeIndex) + pd.headers.Length >= Pd.WORD
      ensures r == None ==> pd.writeIndex == old(pd.writeIndex)
      ensures r.Some? ==> old(pd.writeIndex) <= r.value < old(pd.writeIndex) + pd.headers.Length && pd.writeIndex == r.value + 1
      ensures r.Some? ==> r.value != INVALID && r.value !in chain && r.value !in freed
      ensures r.Some? ==> var kept := r.value % Pd.ID_RANGE; kept !in old(counts) && counts == old(counts)[kept := 1]
      ensures r.Some? && r.value >= Pd.ID_RANGE ==> r.value !in counts
      ensures r.Some? ==> nodes == old(nodes)[r.value := Node(INVALID, false, data)]
    {
      LiveEntries(nodes, counts, head, chain, freed);
      r := AllocEntry();
      if r.Some? {
        nodes := nodes[r.value := Node(INVALID, false, data)];
      }
    }

    /** Links the new node `id` at the end. */
    method Append(id: Id)
      requires Dir() && Linked(nodes, chain) && AllLive(chain, counts.Keys)
      requires Counted(counts, INVALID) && tail == Last(chain)
      modifies this`tail, this`nodes, this`counts, this`freed, this`head, pd.headers
      ensures Dir() && counts.Keys == old(counts).Keys && Counted(counts, INVALID) && freed == old(freed)
      ensures nodes == if chain != [] then old(nodes)[Last(chain) := old(nodes)[Last(chain)].(next := id)] else old(nodes)
      ensures tail == id && head == if chain != [] then old(head) else id
    {
      InvalidIsDead(pd.View());
      var found, t := LockLast();
      InvalidIsDead(pd.View());
      Link(id, found, t);
    }

    /** The rest of prs_mpmcq_push once node `id` is allocated; `before` and `entries` are from before that. */
    method PushNode(id: Id, data: int, ghost before: map<Id, Node>, ghost entries: map<Id, nat>)
      requires Dir() && Holds(before, entries, head, chain, freed) && tail == Last(chain) && Counted(entries, INVALID)
      requires id != INVALID && id !in freed && id !in chain && id % Pd.ID_RANGE !in entries && FreedBelow(freed, pd.writeIndex)
      requires nodes == before[id := Node(INVALID, false, data)] && counts == entries[id % Pd.ID_RANGE := 1]
      modifies this`nodes, this`counts, this`head, this`tail, this`freed, this`chain, pd.headers
      ensures Dir() && tail == id && freed == old(freed) && counts.Keys == old(counts).Keys && Counted(counts, INVALID)
      ensures id < Pd.ID_RANGE ==> Valid() && chain == old(chain) + [id] && Contents() == Data(before, old(chain)) + [data]
      ensures id >= Pd.ID_RANGE ==> chain == old(chain)
    {
      NewNode(before, entries, chain, freed, id, id % Pd.ID_RANGE, data);
      Append(id);
      if id < Pd.ID_RANGE {
        SmallId(id);
        NodeLinked(before, entries, nodes, counts, chain, freed, id, data);
        chain := chain + [id];
      }
    }

    /** Appends an element. It fails exactly when the live entries fill the directory or the scan wraps. An
        identifier below 2^52 is appended as it should be. With a larger one the call succeeds and the element
        is lost: the tail names a node that nobody can lock. */
    method Push(data: int) returns (ok: bool)
      requires Valid()
      modifies this, pd, pd.headers
      ensures ok <==> old(Slots(nodes, chain)) < pd.headers.Length && old(pd.writeIndex) + pd.headers.Length < Pd.WORD
      ensures !ok ==> Valid() && Contents() == old(Contents()) && chain == old(chain) && freed == old(freed)
      ensures ok ==> Dir() && tail == pd.writeIndex - 1 && old(pd.writeIndex) <= tail && freed == old(freed)
      ensures ok && tail < Pd.ID_RANGE ==> Valid() && Contents() == old(Contents()) + [data] && chain == old(chain) + [tail]
      ensures ok && tail >= Pd.ID_RANGE ==> tail !in counts && chain == old(chain)
      ensures old(pd.writeIndex) + pd.headers.Length <= Pd.ID_RANGE ==> pd.writeIndex <= Pd.ID_RANGE
    {
      var r := AllocNode(data);
      if r.Some? {
        PushNode(r.value, data, old(nodes), old(counts));
      }
      return r.Some?;
    }

    /** Drops both references of a locked node. */
    method UnlockTwice(t: Id)
      requires Dir() && t in counts && counts[t] == 2
      modifies this`nodes, this`counts, this`freed, pd.headers
      ensures Dir() && nodes == old(nodes) - {t} && counts == old(counts) - {t} && freed == old(freed) + [t]
    {
      Unlock(t);
      Unlock(t);
      assert counts == old(counts) - {t};
    }

    /** The head is moved to the next node, which is locked; the old head loses its two references. */
    method DropHead(t: Id, next: Id)
      requires Shape() && |chain| > 1 && t == chain[0] && next == chain[1]
      requires counts[t] == 2 && counts[next] == 2 && forall id :: id in counts && id != t && id != next ==> counts[id] == 1
      modifies this`head, this`nodes, this`counts, this`freed, this`chain, pd.headers
      ensures Shape() && chain == old(chain)[1..] && Counted(counts, next)
      ensures freed == old(freed) + [t] && nodes == old(nodes) - {t}
    {
      HoldsTail(nodes, counts, chain, freed);
      head := next;
      UnlockTwice(t);
      chain := chain[1..];
    }

    /** Locks the next node and drops the head. */
    method Advance(t: Id) returns (next: Id)
      requires Shape() && |chain| > 1 && t == chain[0] && nodes[t].consumed && Counted(counts, t)
      modifies this`head, this`nodes, this`counts, this`freed, this`chain, pd.headers
      ensures Shape() && |chain| == old(|chain|) - 1 && next == chain[0] && Counted(counts, next)
      ensures freed + chain == old(freed + chain) && Last(chain) == old(Last(chain))
      ensures Data(nodes, chain) == old(Data(nodes, chain))
    {
      LinkedTail(nodes, chain);
      next := nodes[t].next;
      assert next == NextOf(chain, 0);
      var _ := Lock(next);
      TailFacts(chain, freed);
      DropHead(t, next);
    }

    /** Locks the head; a consumed head with a successor is dropped first. */
    method LockHead() returns (t: Id)
      requires Valid() && chain != []
      modifies this`head, this`nodes, this`counts, this`freed, this`chain, pd.headers
      ensures Shape() && chain != [] && t == chain[0] && Last(chain) == old(Last(chain)) && Counted(counts, t)
      ensures nodes[t].consumed ==> |chain| == 1
      ensures freed + chain == old(freed + chain) && Data(nodes, chain) == old(Contents())
    {
      t := head;
      var _ := Lock(t);
      HasNext(nodes, chain);
      while nodes[t].consumed && nodes[t].next != INVALID
        invariant Shape() && chain != [] && t == chain[0] && Last(chain) == old(Last(chain)) && Counted(counts, t)
        invariant nodes[t].next != INVALID <==> |chain| > 1
        invariant freed + chain == old(freed + chain) && Data(nodes, chain) == old(Contents())
        decreases |chain|
      {
        t := Advance(t);
        HasNext(nodes, chain);
      }
    }

    /** Marks the head `t` as consumed. */
    method Consume(t: Id) returns (data: int)
      requires Shape() && chain != [] && t == chain[0] && !nodes[t].consumed
      modifies this`nodes
      ensures Shape() && nodes[t].consumed
      ensures old(Data(nodes, chain)) != [] && data == old(Data(nodes, chain))[0]
      ensures Data(nodes, chain) == old(Data(nodes, chain))[1..]
    {
      HoldsConsumed(nodes, counts, chain, freed);
      DataConsumed(nodes, chain);
      data := nodes[t].data;
      nodes := nodes[t := nodes[t].(consumed := true)];
    }

    /** Unlocks the head and nothing else. */
    method UnlockHead(t: Id)
      requires Shape() && chain != [] && t == chain[0] && tail == Last(chain) && Counted(counts, t)
      modifies this`nodes, this`counts, this`freed, pd.headers
      ensures Valid() && freed == old(freed) && Contents() == old(Data(nodes, chain))
    {
      Unlock(t);
    }

    /** Lets go of the consumed head `t`; the node stays as a dummy when it is the last one. */
    method Leave(t: Id)
      requires Shape() && chain != [] && t == chain[0] && tail == Last(chain) && Counted(counts, t) && nodes[t].consumed
      modifies this`head, this`nodes, this`counts, this`freed, this`chain, pd.headers
      ensures Valid() && freed + chain == old(freed + chain) && chain != [] && Contents() == old(Data(nodes, chain))
    {
      var last := t;
      HasNext(nodes, chain);
      if nodes[t].next != INVALID {
        last := Advance(t);
      }
      UnlockHead(last);
    }

    /** Takes the element of the locked head, if it has one left. */
    method TakeHead(t: Id) returns (r: PopResult)
      requires Shape() && chain != [] && t == chain[0] && tail == Last(chain) && Counted(counts, t)
      requires nodes[t].consumed ==> |chain| == 1
      modifies this`head, this`nodes, this`counts, this`freed, this`chain, pd.headers
      ensures Valid() && freed + chain == old(freed + chain) && chain != []
      ensures var data := old(Data(nodes, chain));
        if data == [] then r == Empty && Contents() == [] else r == Popped(data[0]) && Contents() == data[1..]
    {
      if nodes[t].consumed {
        EndOfQueue(nodes, chain);
        UnlockHead(t);
        return Empty;
      }
      var data := Consume(t);
      Leave(t);
      return Popped(data);
    }

    /** An element taken from the front, nothing else disturbed; a node that leaves the chain is freed. A
        queue answers Unknown exactly as long as it was never pushed to, and Empty after that. */
    method Pop() returns (r: PopResult)
      requires Valid()
      modifies this, pd.headers
      ensures Valid() && freed + chain == old(freed + chain) && (chain == [] <==> old(chain) == [])
      ensures old(Contents()) == [] ==> Contents() == [] && r == if old(chain) == [] then Unknown else Empty
      ensures old(Contents()) != [] ==> r == Popped(old(Contents())[0]) && Contents() == old(Contents())[1..]
    {
      if head == INVALID {
        return Unknown;
      }
      var t := LockHead();
      r := TakeHead(t);
    }
  }

  /** The node after position `k` is another one, and live exactly if there is one. */
  lemma NextFacts(nodes: map<Id, Node>, chain: seq<Id>, k: nat, live: set<Id>)
    requires Linked(nodes, chain) && k < |chain| && AllLive(chain, live) && INVALID !in live
    ensures nodes[chain[k]].next != chain[k] && (nodes[chain[k]].next in live <==> k + 1 < |chain|)
    ensures k + 1 < |chain| ==> nodes[chain[k]].next == chain[k + 1]
  {
    assert nodes[chain[k]].next == NextOf(chain, k);
  }

  lemma HasNext(nodes: map<Id, Node>, chain: seq<Id>)
    requires Linked(nodes, chain) && chain != []
    ensures nodes[chain[0]].next != INVALID <==> |chain| > 1
  {
    assert nodes[chain[0]].next == NextOf(chain, 0);
  }

  lemma EndOfQueue(nodes: map<Id, Node>, chain: seq<Id>)
    requires Linked(nodes, chain) && |chain| == 1 && nodes[chain[0]].consumed
    ensures Data(nodes, chain) == []
  {
  }

  lemma SmallId(id: Id)
    requires id < Pd.ID_RANGE
    ensures id % Pd.ID_RANGE == id
  {
  }

  /** Linked nodes have identifiers from before. */
  lemma ChainIsOld(d: Pd.Dir, nodes: map<Id, Node>, chain: seq<Id>, id: Id)
    requires Pd.WellFormed(d) && Known(nodes, chain) && nodes.Keys == Pd.Live(d).Keys && d.writeIndex <= id
    ensures id !in chain
  {
    forall i | 0 <= i < |chain| ensures chain[i] != id {
      assert chain[i] in Pd.Live(d);
      Pd.LiveIs(d, chain[i]);
    }
  }

  lemma InvalidIsDead(d: Pd.Dir)
    requires Pd.WellFormed(d)
    ensures INVALID !in Pd.Live(d)
  {
    Pd.LiveIs(d, INVALID);
  }
}
