/** The intrusive multi-producer single-consumer queue of prs/lib/ds/mpsciq.c. Producers push on a chain
    of `next` links, newest first; the consumer builds the `prev` links lazily and may unlink any node.
    `Interfere` stands for any number of pushes by producers, and may happen between any two accesses of
    the consumer. */
module Mpsciq {

  class Node {
    var next: Node?
    var prev: Node?
    const item: nat

    constructor (item: nat)
      ensures next == null && prev == null && this.item == item
    {
      next, prev, this.item := null, null, item;
    }
  }

  /** The sequence without its element at `r`. */
  function RemoveAt<T>(s: seq<T>, r: nat): seq<T>
    requires r < |s|
  {
    s[..r] + s[r + 1..]
  }

  /** The place before the removal of the element that is at `i` after element `r` was removed. */
  function Skip(i: int, r: nat): int {
    if i < r then i else i + 1
  }

  /** `s` starts with `q` without its element at `r`. */
  ghost predicate LeftBehind<T>(q: seq<T>, r: nat, s: seq<T>) {
    |q| - 1 <= |s| && forall i, j :: 0 <= i < |q| - 1 && j == Skip(i, r) ==> s[i] == q[j]
  }

  class Queue {
    var head: Node?
    var reverseTail: Node?
    var reverseHead: Node?
    /** Nodes in the hands of producers. */
    var spare: set<Node>
    /** The published nodes, oldest first, and how many of them have their `prev` link. */
    ghost var nodes: seq<Node>
    ghost var built: nat

    /** The `next` chain: what producers rely on. */
    ghost predicate Chain()
      reads this`head, this`nodes, this`spare, nodes`next, spare`next, spare`prev
    {
      && head == (if nodes == [] then null else nodes[|nodes| - 1])
      && (nodes != [] ==> nodes[0].next == null)
      && (forall i, j :: 0 <= i && j == i + 1 && j < |nodes| ==> nodes[j].next == nodes[i])
      && (forall i, j :: 0 <= i < j < |nodes| ==> nodes[i] != nodes[j])
      && (forall n :: n in spare ==> n !in nodes && n.next == null && n.prev == null)
    }

    /** The back links, as they are for the nodes `q`, `b` of them built. */
    ghost predicate BackChain(q: seq<Node>, b: nat)
      reads this`reverseHead, this`reverseTail, q`prev
    {
      && b <= |q|
      && (forall i, j :: 0 <= i && j == i + 1 && j < b ==> q[i].prev == q[j])
      && (forall i :: 0 <= i < |q| && b <= i + 1 ==> q[i].prev == null)
      && reverseHead == (if b == 0 then null else q[0])
      && reverseTail == (if b == 0 then null else q[b - 1])
    }

    /** The `prev` chain of the consumer. */
    ghost predicate Links()
      reads this`reverseHead, this`reverseTail, this`nodes, this`built, nodes`prev
    {
      BackChain(nodes, built)
    }

    ghost predicate Valid()
      reads this, nodes, spare
    {
      Chain() && Links()
    }

    constructor (producers: set<Node>)
      requires forall n :: n in producers ==> n.next == null && n.prev == null
      ensures Valid() && nodes == [] && spare == producers
    {
      head, reverseTail, reverseHead, spare := null, null, null, producers;
      nodes, built := [], 0;
    }

    /** The queue only grew at its newest end, by nodes of the producers. */
    twostate predicate Grew()
      reads this`nodes, this`spare
    {
      && |old(nodes)| <= |nodes|
      && (forall i :: 0 <= i < |old(nodes)| ==> nodes[i] == old(nodes)[i])
      && spare <= old(spare)
      && (forall i :: |old(nodes)| <= i < |nodes| ==> nodes[i] in old(spare))
    }

    /** The compare-and-swap of prs_mpsciq_push that succeeds. */
    method Publish(node: Node)
      requires Chain() && node in spare
      modifies this`head, this`nodes, this`spare, spare`next
      ensures Chain() && nodes == old(nodes) + [node] && spare == old(spare) - {node}
    {
      assert node !in nodes;
      node.next := head;
      spare := spare - {node};
      head := node;
      nodes := nodes + [node];
    }

    /** Any number of pushes. */
    method Interfere()
      requires Chain()
      modifies this`head, this`nodes, this`spare, spare`next
      ensures Chain() && Grew()
    {
      var steps: nat := *;
      while steps > 0 && spare != {}
        invariant Chain() && Grew()
      {
        var n :| n in spare;
        Publish(n);
        steps := steps - 1;
      }
    }

    /** prs_mpsciq_push by a producer whose compare-and-swap fails `failures` times. */
    method Push(node: Node, failures: nat)
      requires Chain() && node in spare
      modifies this`head, this`nodes, this`spare, spare`next
      ensures Chain() && Grew() && node !in spare
      ensures |nodes| > |old(nodes)| && nodes[|nodes| - 1] == node
    {
      assert node !in nodes;
      spare := spare - {node};
      node.next := head;
      for i := 0 to failures
        invariant Chain() && Grew() && node !in spare && node !in nodes && node.next == head
      {
        Interfere();
        node.next := head;
      }
      head := node;
      nodes := nodes + [node];
    }

    /** The back links while the chain is being walked: done below `built` and from `j` to `n`. */
    ghost predicate Walking(j: int, n: nat)
      reads this`reverseHead, this`reverseTail, this`nodes, this`built, nodes`prev
    {
      && built <= n <= |nodes|
      && (forall i, k :: 0 <= i && k == i + 1 && (k < built || (j <= i && k < n)) ==> nodes[i].prev == nodes[k])
      && (forall i :: 0 <= i < |nodes| && built <= i + 1 && (i < j || n <= i + 1) ==> nodes[i].prev == null)
      && reverseHead == (if built == 0 then null else nodes[0])
      && reverseTail == (if built == 0 then null else nodes[built - 1])
    }

    /** One round of the walk: the node below gets its back link. */
    method LinkBack(node: Node, ghost j: nat, ghost n: nat) returns (next: Node?)
      requires Chain() && Walking(j, n) && built <= j < n && node == nodes[j]
      modifies (if j == 0 then {} else {nodes[j - 1]})`prev
      ensures Chain() && Walking(j - 1, n) && next == (if j == 0 then null else nodes[j - 1])
    {
      next := node.next;
      if j > 0 {
        assert next == nodes[j - 1];
      }
      if next != null {
        next.prev := node;
      }
    }

    method LinkBackAndInterfere(node: Node, ghost j: nat, ghost n: nat) returns (next: Node?)
      requires Chain() && Walking(j, n) && built <= j < n && node == nodes[j]
      modifies this`head, this`nodes, this`spare, spare`next, (if j == 0 then {} else {nodes[j - 1]})`prev
      ensures Chain() && Grew() && Walking(j - 1, n)
      ensures node == nodes[j] && next == (if j == 0 then null else nodes[j - 1])
    {
      next := LinkBack(node, j, n);
      Interfere();
    }

    /** The loop of prs_mpsciq_build_reverse: from the loaded head down to the last built node. */
    method Walk(h: Node, ghost n: nat) returns (prev: Node)
      requires Chain() && Walking(n - 1, n) && built < n && h == nodes[n - 1]
      modifies this`head, this`nodes, this`spare, nodes`prev, spare`next
      ensures Chain() && Grew() && Walking(built - 1, n) && prev == nodes[built]
    {
      ghost var j: nat := n - 1;
      prev := h;
      var node := LinkBackAndInterfere(prev, j, n);
      while node != reverseTail
        invariant Chain() && Grew() && Walking(j - 1, n)
        invariant built <= j < n && prev == nodes[j] && node == if j == 0 then null else nodes[j - 1]
        decreases j
      {
        j := j - 1;
        prev := node;
        node := LinkBackAndInterfere(prev, j, n);
      }
    }

    method BuildReverse(h: Node?, ghost n: nat)
      requires Valid() && built <= n <= |nodes| && h == (if n == 0 then null else nodes[n - 1])
      modifies this, nodes`prev, spare`next
      ensures Valid() && Grew() && built == n
    {
      if h != reverseTail {
        var prev := Walk(h, n);
        if reverseHead == null {
          reverseHead := prev;
        }
        reverseTail := h;
        built := n;
      }
    }

    /** prs_mpsciq_begin: `n` nodes were published when the head was loaded. */
    method Begin() returns (first: Node?, ghost n: nat)
      requires Valid()
      modifies this, nodes`prev, spare
      ensures Valid() && Grew() && |old(nodes)| <= n <= |nodes| && built == n
      ensures first == if n == 0 then null else nodes[0]
    {
      Interfere();
      var h := head;
      n := |nodes|;
      Interfere();
      BuildReverse(h, n);
      first := reverseHead;
    }

    /** prs_mpsciq_is_inserted. */
    method IsInserted(node: Node) returns (found: bool, ghost n: nat)
      requires Valid()
      modifies this, nodes`prev, spare
      ensures Valid() && Grew() && |old(nodes)| <= n <= |nodes|
      ensures found <==> node in nodes[..n]
    {
      var search: Node?;
      search, n := Begin();
      ghost var k := 0;
      while search != null
        invariant Valid() && Grew() && n == built && 0 <= k <= n
        invariant search == if k == n then null else nodes[k]
        invariant node !in nodes[..k]
        decreases n - k
      {
        if search == node {
          return true, n;
        }
        search := search.prev;
        k := k + 1;
        InterfereLinked();
      }
      found := false;
    }

    /** The stores of prs_mpsciq_remove that take an inner node out of the back links. */
    method SkipBack(node: Node, ghost r: nat)
      requires Valid() && r + 1 < built && nodes[r] == node
      modifies this`reverseHead, nodes`prev
      ensures Chain() && BackChain(RemoveAt(nodes, r), built - 1) && node.prev == nodes[r + 1]
    {
      assert node.prev == nodes[r + 1];
      if node.next != null {
        assert node.next == nodes[r - 1];
        node.next.prev := node.prev;
      }
      if node == reverseHead {
        reverseHead := node.prev;
      }
    }

    method SkipBackAndInterfere(node: Node, ghost r: nat)
      requires Valid() && r + 1 < built && nodes[r] == node
      modifies this`reverseHead, nodes`prev, this`head, this`nodes, this`spare, spare`next
      ensures Chain() && Grew() && BackChain(RemoveAt(nodes, r), built - 1) && node.prev == nodes[r + 1]
    {
      SkipBack(node, r);
      ghost var q := RemoveAt(nodes, r);
      Interfere();
      assert forall i :: 0 <= i < |q| ==> RemoveAt(nodes, r)[i] == q[i];
    }

    /** The store that takes an inner node out of the chain. */
    method SkipNext(node: Node, ghost r: nat)
      requires Chain() && r + 1 < |nodes| && nodes[r] == node && node.prev == nodes[r + 1]
      requires 0 < built && BackChain(RemoveAt(nodes, r), built - 1)
      modifies this`nodes, this`built, nodes`next, node
      ensures Valid() && nodes == RemoveAt(old(nodes), r) && built == old(built) - 1
      ensures node !in nodes && node !in spare && node.next == null && node.prev == null
    {
      node.prev.next := node.next;
      nodes, built := RemoveAt(nodes, r), built - 1;
      assert node !in nodes && node !in spare;
      node.next := null;
      node.prev := null;
    }

    /** The owner of a node that is in no queue may send it again. */
    method GiveBack(node: Node)
      requires Valid() && node !in nodes && node.next == null && node.prev == null
      modifies this`spare
      ensures Valid() && spare == old(spare) + {node}
    {
      spare := spare + {node};
    }

    /** A node is removed and sent again: it is the newest, and the nodes it left behind keep their order. */
    method Resend(node: Node, failures: nat)
      requires Valid() && node in nodes
      modifies this, nodes, spare
      ensures Valid() && |nodes| >= |old(nodes)| && nodes[|nodes| - 1] == node
      ensures exists r: nat :: r < |old(nodes)| && old(nodes)[r] == node && LeftBehind(old(nodes), r, nodes)
    {
      ghost var q := nodes;
      ghost var r := Remove(node);
      ghost var rest := nodes;
      GiveBack(node);
      Push(node, failures);
      assert forall i, j :: 0 <= i < |q| - 1 && j == Skip(i, r) ==> nodes[i] == rest[i] == q[j];
      assert LeftBehind(q, r, nodes);
    }

    /** `node` was taken out of place `r`; apart from that the queue only grew at its newest end. */
    twostate predicate Removed(node: Node, r: nat)
      reads this`nodes, this`spare, node
    {
      && r < |old(nodes)| && old(nodes)[r] == node && |nodes| >= |old(nodes)| - 1
      && (forall i :: 0 <= i < r ==> nodes[i] == old(nodes)[i])
      && (forall i, j :: r < j < |old(nodes)| && i == j - 1 ==> nodes[i] == old(nodes)[j])
      && (forall i :: |old(nodes)| - 1 <= i < |nodes| ==> nodes[i] in old(spare))
      && spare <= old(spare) && node !in spare && node !in nodes
      && node.next == null && node.prev == null
    }

    method UnlinkInner(node: Node, ghost r: nat)
      requires Valid() && r + 1 < built && nodes[r] == node
      modifies this, nodes, spare`next
      ensures Valid() && Removed(node, r)
    {
      SkipBackAndInterfere(node, r);
      SkipNext(node, r);
    }

    /** prs_mpsciq_remove of a node that is not the head `h` that was loaded. */
    method RemoveInner(node: Node, h: Node, ghost r: nat, ghost n: nat)
      requires Valid() && r + 1 < n <= |nodes| && built <= n && nodes[r] == node && nodes[n - 1] == h
      modifies this, nodes, spare
      ensures Valid() && Removed(node, r)
    {
      BuildReverse(h, n);
      ghost var mid := nodes;
      UnlinkInner(node, r);
      assert forall i, j :: r <= i < |mid| - 1 && j == i + 1 ==> nodes[i] == mid[j];
      forall i | |old(nodes)| - 1 <= i < |nodes| ensures nodes[i] in old(spare) {
        if i < |mid| - 1 {
          assert nodes[i] == mid[i + 1];
        }
      }
    }

    /** The compare-and-swap of prs_mpsciq_remove that moves the head past its newest node. */
    method CutNewest(node: Node)
      requires Valid() && node == head
      modifies this`head, this`nodes
      ensures Chain() && nodes == old(nodes)[..|old(nodes)| - 1] && node !in nodes && node !in spare
    {
      assert node == nodes[|nodes| - 1];
      head := node.next;
      nodes := nodes[..|nodes| - 1];
    }

    /** The stores that remain after the head moved past `node`, the last of `q`. */
    method ForgetNewest(node: Node, ghost q: seq<Node>)
      requires Chain() && |q| > 0 && q[|q| - 1] == node && node !in nodes && node !in spare
      requires |nodes| >= |q| - 1 && (forall i :: 0 <= i < |q| - 1 ==> nodes[i] == q[i])
      requires forall i :: |q| - 1 <= i < |nodes| ==> nodes[i].prev == null
      requires node.next == (if |q| == 1 then null else q[|q| - 2]) && BackChain(q, built)
      modifies this`reverseHead, this`reverseTail, this`built, q`prev, node
      ensures Valid() && node.next == null && node.prev == null
    {
      assert node.prev == null;
      if node.next != null {
        node.next.prev := node.prev;
      }
      if node == reverseHead {
        reverseHead := node.prev;
      }
      if node == reverseTail {
        reverseTail := node.next;
        built := built - 1;
      }
      node.next := null;
      node.prev := null;
    }

    method RemoveNewest(node: Node)
      requires Valid() && node == head
      modifies this, nodes, spare`next
      ensures Valid() && Removed(node, |old(nodes)| - 1)
    {
      ghost var q := nodes;
      assert node == q[|q| - 1] && (|q| > 1 ==> node.next == q[|q| - 2]);
      CutNewest(node);
      Interfere();
      ForgetNewest(node, q);
    }

    /** prs_mpsciq_remove. */
    method Remove(node: Node) returns (ghost r: nat)
      requires Valid() && node in nodes
      modifies this, nodes, spare
      ensures Valid() && Removed(node, r)
    {
      r :| r < |nodes| && nodes[r] == node;
      var h := head;
      ghost var n := |nodes|;
      InterfereLinked();
      if node == h {
        if head == h {
          RemoveNewest(node);
          return;
        }
        h := head;
        n := |nodes|;
      }
      ghost var mid := nodes;
      RemoveInner(node, h, r, n);
      assert forall i, j :: r <= i < |mid| - 1 && j == i + 1 ==> nodes[i] == mid[j];
      forall i | |old(nodes)| - 1 <= i < |nodes| ensures nodes[i] in old(spare) {
        if i < |mid| - 1 {
          assert nodes[i] == mid[i + 1];
        }
      }
    }

    method InterfereLinked()
      requires Valid()
      modifies this`head, this`nodes, this`spare, spare`next
      ensures Valid() && Grew()
    {
      Interfere();
    }

    /** No node up to and including `hint` matches `f`. */
    ghost predicate HintFor(f: nat -> bool, hint: Node?)
      reads this`nodes
    {
      hint == null || exists k :: 0 <= k < |nodes| && nodes[k] == hint && forall i :: 0 <= i <= k ==> !f(nodes[i].item)
    }

    /** The loop of prs_msgq_search over the built nodes, from place `from`. */
    method ScanFrom(f: nat -> bool, start: Node?, ghost from: nat) returns (msg: Node?, last: Node?, ghost r: nat)
      requires Valid() && from <= built && start == (if from == built then null else nodes[from])
      modifies this`head, this`nodes, this`spare, spare`next
      ensures Valid() && Grew() && from <= r <= built
      ensures forall i :: from <= i < r ==> !f(nodes[i].item)
      ensures msg == if r == built then null else nodes[r]
      ensures msg != null ==> f(msg.item)
      ensures msg == null ==> last == if from == built then null else nodes[built - 1]
    {
      var node := start;
      last := start;
      r := from;
      while node != null
        invariant Valid() && Grew() && from <= r <= built
        invariant node == if r == built then null else nodes[r]
        invariant forall i :: from <= i < r ==> !f(nodes[i].item)
        invariant last == if r == from then start else nodes[r - 1]
        decreases built - r
      {
        if f(node.item) {
          msg := node;
          return;
        }
        last := node;
        node := node.prev;
        r := r + 1;
        InterfereLinked();
      }
      msg := null;
    }

    /** prs_msgq_search: from the oldest node, or from the hint of an earlier search. The result is that of
        a full scan of the `n` nodes that were published when the search loaded the head. */
    method Search(f: nat -> bool, hint: Node?) returns (msg: Node?, newHint: Node?, ghost n: nat, ghost r: nat)
      requires Valid() && HintFor(f, hint)
      modifies this, nodes`prev, spare
      ensures Valid() && Grew() && |old(nodes)| <= n <= |nodes| && r <= n
      ensures forall i :: 0 <= i < r ==> !f(nodes[i].item)
      ensures if r == n then msg == null && HintFor(f, newHint) else msg == nodes[r] && f(msg.item)
    {
      newHint := hint;
      ghost var k := 0;
      if hint != null {
        k :| 0 <= k < |nodes| && nodes[k] == hint && forall i :: 0 <= i <= k ==> !f(nodes[i].item);
      }
      var node: Node?;
      node, n := Begin();
      if hint != null {
        node := hint;
      }
      var last: Node?;
      msg, last, r := ScanFrom(f, node, k);
      if msg == null {
        newHint := last;
        assert n > 0 ==> nodes[n - 1] == newHint;
      }
    }

    /** Searches of one receive call: the first, and one after each of at most `waits` waits. */
    method SearchRepeatedly(f: nat -> bool, waits: nat) returns (msg: Node?, ghost n: nat, ghost r: nat)
      requires Valid()
      modifies this, nodes`prev, spare
      ensures Valid() && Grew() && |old(nodes)| <= n <= |nodes| && r <= n
      ensures forall i :: 0 <= i < r ==> !f(nodes[i].item)
      ensures if r == n then msg == null else msg == nodes[r] && f(msg.item)
    {
      var hint: Node?;
      msg, hint, n, r := Search(f, null);
      var left := waits;
      while msg == null && left > 0
        invariant Valid() && Grew() && |old(nodes)| <= n <= |nodes| && r <= n
        invariant forall i :: 0 <= i < r ==> !f(nodes[i].item)
        invariant if r == n then msg == null && HintFor(f, hint) else msg == nodes[r] && f(msg.item)
        decreases left
      {
        msg, hint, n, r := Search(f, hint);
        left := left - 1;
      }
    }

    /** prs_msgq_recv_internal as the queue sees it: `q` is what was queued when the message was taken. The
        message is the oldest that matches, and all others stay in order. */
    method Receive(f: nat -> bool, waits: nat) returns (msg: Node?, ghost q: seq<Node>, ghost r: nat)
      requires Valid()
      modifies this, nodes, spare
      ensures Valid() && |old(nodes)| <= |q| && forall i :: 0 <= i < |old(nodes)| ==> q[i] == old(nodes)[i]
      ensures msg == null ==> r >= |old(nodes)| && nodes == q && forall i :: 0 <= i < |old(nodes)| ==> !f(nodes[i].item)
      ensures msg != null ==> r < |q| && q[r] == msg && f(msg.item) && forall i :: 0 <= i < r ==> !f(q[i].item)
      ensures msg != null ==> |nodes| >= |q| - 1 && nodes[..|q| - 1] == RemoveAt(q, r)
    {
      ghost var n;
      msg, n, r := SearchRepeatedly(f, waits);
      q := nodes;
      if msg != null {
        ghost var r' := Remove(msg);
        assert r' == r;
        assert forall i :: 0 <= i < |q| - 1 ==> nodes[..|q| - 1][i] == RemoveAt(q, r)[i];
      }
    }
  }
}
