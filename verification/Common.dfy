/** Small value types shared by the models. */
module Common {

  datatype Option<+T> = None | Some(value: T)

  /** No value occurs at two positions of `s`. */
  ghost predicate NoDuplicates<T>(s: seq<T>) {
    forall i, j :: 0 <= i < j < |s| ==> s[i] != s[j]
  }

  /** A condition counted as a number. */
  function One(b: bool): int {
    if b then 1 else 0
  }

  ghost predicate IsLowest(m: set<nat>, p: nat) {
    p in m && forall q :: q in m ==> p <= q
  }

  /** Division with remainder has one result. */
  lemma ModUnique(x: int, m: int, q: int, r: int)
    requires m > 0 && 0 <= r < m && x == m * q + r
    ensures x % m == r && x / m == q
  {
    var d := x / m - q;
    assert m * d == r - x % m;
    assert d >= 1 ==> m * d >= m;
    assert d <= -1 ==> m * d <= -m;
  }

  lemma {:induction false} SubsetSize<T>(a: set<T>, b: set<T>)
    requires a <= b
    ensures |a| <= |b|
  {
    if a != {} {
      var x :| x in a;
      SubsetSize(a - {x}, b - {x});
    }
  }

  /** The entry of a directory that an identifier falls on: `id & max_entries_mask`, for a power of two. */
  function Index(id: nat, max: nat): (i: nat)
    requires max > 0
    ensures i < max
  {
    id % max
  }

  /** Some identifier among `max` consecutive ones falls on entry `k`. */
  lemma {:induction false} SomeFallsOn(w: nat, max: nat, k: nat) returns (i: nat)
    requires k < max
    ensures w <= i < w + max && Index(i, max) == k
  {
    if w == 0 {
      i := k;
    } else {
      i := SomeFallsOn(w - 1, max, k);
      if i == w - 1 {
        i := w - 1 + max;
        ModPlus(w - 1, max);
      }
    }
  }

  lemma ModPlus(a: nat, max: nat)
    requires max > 0
    ensures (a + max) % max == a % max
  {
    var q := a / max;
    assert a + max == max * (q + 1) + a % max;
    ModUnique(a + max, max, q + 1, a % max);
  }

  /** `x` is nearer to the front of `q` than `y`. */
  ghost predicate Before<T(!new)>(q: seq<T>, x: T, y: T) {
    exists i, j :: 0 <= i < j < |q| && q[i] == x && q[j] == y
  }

  lemma AppendOrder<T(!new)>(q: seq<T>, m: T, x: T, y: T)
    ensures Before(q, x, y) ==> Before(q + [m], x, y)
    ensures x in q && y == m ==> Before(q + [m], x, y)
  {
    if Before(q, x, y) {
      var i, j :| 0 <= i < j < |q| && q[i] == x && q[j] == y;
      assert (q + [m])[i] == x && (q + [m])[j] == y;
    }
    if x in q && y == m {
      var i :| 0 <= i < |q| && q[i] == x;
      assert (q + [m])[i] == x && (q + [m])[|q|] == y;
    }
  }

  lemma NothingBeforeHead<T(!new)>(q: seq<T>, x: T)
    requires q != [] && NoDuplicates(q)
    ensures !Before(q, x, q[0])
  {
    forall i, j | 0 <= i < j < |q| ensures !(q[i] == x && q[j] == q[0]) {
      assert q[0] != q[j];
    }
  }
}
