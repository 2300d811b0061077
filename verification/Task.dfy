/** The versioned state word of a task, prs/task.c: state in 4 bits, unblock cause in 8, and a 52-bit count
    of state changes that advances by 4096. The fields do not overlap, so masks and shifts are division
    and remainder, and joining fields is addition. */
module Task {
  import opened Common

  const COUNT_RANGE: nat := 0x10_0000_0000_0000   // 2^52
  const COUNT_INCREMENT: nat := 4096
  const PERIOD: nat := 0x100_0000_0000            // 2^40

  type Word = nat

  const STOPPED: nat := 0
  const READY: nat := 1
  const RUNNING: nat := 2
  const BLOCKED: nat := 3
  const ZOMBIE: nat := 4

  function GetState(t: Word): nat { t % 16 }
  function GetCause(t: Word): nat { t / 16 % 256 }
  function GetCount(t: Word): nat { t / 4096 }

  /** The shift of the count drops what does not fit 64 bits. */
  function SetToken(state: nat, cause: nat, count: nat): Word {
    4096 * (count % COUNT_RANGE) + 16 * (cause % 256) + state % 16
  }

  /** The word after a change to `state` that records `cause`. */
  function Changed(t: Word, state: nat, cause: nat): Word {
    SetToken(state, cause, GetCount(t) + COUNT_INCREMENT)
  }

  /** `w` holds these fields, and its count is one change after that of `before`. */
  ghost predicate Advanced(before: Word, w: Word, state: nat, cause: nat) {
    GetState(w) == state && GetCause(w) == cause && GetCount(w) == (GetCount(before) + COUNT_INCREMENT) % COUNT_RANGE
  }

  class StateWord {
    var word: Word

    constructor ()
      ensures word == 0
    {
      word := 0;
    }

    method ChangeState(expected: nat, state: nat)
      requires GetState(word) == expected
      modifies this
      ensures Advanced(old(word), word, state % 16, GetCause(old(word)))
      ensures word == Changed(old(word), state, GetCause(old(word)))
    {
      TokenFields(state, GetCause(word), GetCount(word) + COUNT_INCREMENT);
      CauseRange(word);
      word := SetToken(state, GetCause(word), GetCount(word) + COUNT_INCREMENT);
    }

    method Block() returns (token: Word)
      requires GetState(word) != BLOCKED
      modifies this
      ensures token == word && Advanced(old(word), word, BLOCKED, 0)
      ensures word == Changed(old(word), BLOCKED, 0)
    {
      TokenFields(BLOCKED, 0, GetCount(word) + COUNT_INCREMENT);
      token := SetToken(BLOCKED, 0, GetCount(word) + COUNT_INCREMENT);
      word := token;
    }

    /** `self` says that the task unblocks itself. */
    method Unblock(token: Word, cause: nat, self: bool) returns (ok: bool)
      modifies this
      ensures ok == (old(word) == token)
      ensures if ok then Advanced(old(word), word, if self then RUNNING else READY, cause % 256) else word == old(word)
      ensures ok ==> word == Changed(token, if self then RUNNING else READY, cause)
    {
      TokenFields(if self then RUNNING else READY, cause, GetCount(token) + COUNT_INCREMENT);
      ok := word == token;
      if ok {
        word := SetToken(if self then RUNNING else READY, cause, GetCount(token) + COUNT_INCREMENT);
      }
    }

    /** prs_task_get_state and prs_task_get_last_unblock_cause. */
    method Read() returns (state: nat, cause: nat)
      ensures state == GetState(word) && cause == GetCause(word)
    {
      state, cause := word % 16, word / 16 % 256;
    }
  }

  // ---------------------------------------------------------------- histories

  /** One operation on the word; `b` says which block operation of the history issued the token. */
  datatype Op = BlockOp | UnblockOp(b: nat, cause: nat, self: bool, ok: bool) | ChangeOp(state: nat)

  ghost predicate Does(w: Word, token: Word, op: Op, w': Word) {
    match op
    case BlockOp => GetState(w) != BLOCKED && w' == Changed(w, BLOCKED, 0)
    case UnblockOp(_, cause, self, ok) =>
      ok == (w == token) && w' == if ok then Changed(w, if self then RUNNING else READY, cause) else w
    case ChangeOp(state) => w' == Changed(w, state, GetCause(w))
  }

  /** The token of an unblock was issued by an earlier block. */
  ghost predicate TokenOk(ops: seq<Op>, i: nat)
    requires i < |ops|
  {
    ops[i].UnblockOp? ==> ops[i].b < i && ops[ops[i].b] == BlockOp
  }

  /** A history of one task: tokens are those returned by earlier block operations. */
  ghost predicate History(words: seq<Word>, ops: seq<Op>) {
    && |words| == |ops| + 1 && words[0] == 0
    && (forall i: nat {:trigger TokenOk(ops, i)} :: i < |ops| ==> TokenOk(ops, i))
    && (forall i :: 0 <= i < |ops| ==> Does(words[i], Token(words, ops, i), ops[i], words[i + 1]))
  }

  /** The token that operation `i` presents. */
  ghost function Token(words: seq<Word>, ops: seq<Op>, i: nat): Word {
    if i < |ops| && ops[i].UnblockOp? && ops[i].b + 1 < |words| then words[ops[i].b + 1] else 0
  }

  ghost predicate Changes(op: Op) {
    op.UnblockOp? ==> op.ok
  }

  /** How many operations from `i` up to `j` changed the word. */
  ghost function ChangeCount(ops: seq<Op>, i: nat, j: nat): (n: nat)
    requires i <= j <= |ops|
    ensures n <= j - i
    decreases j
  {
    if i == j then 0 else ChangeCount(ops, i, j - 1) + if Changes(ops[j - 1]) then 1 else 0
  }

  // ---------------------------------------------------------------- proofs

  lemma TokenFields(state: nat, cause: nat, count: nat)
    ensures GetState(SetToken(state, cause, count)) == state % 16
    ensures GetCause(SetToken(state, cause, count)) == cause % 256
    ensures GetCount(SetToken(state, cause, count)) == count % COUNT_RANGE
  {
    var t := SetToken(state, cause, count);
    var low := 16 * (cause % 256) + state % 16;
    ModUnique(t, 4096, count % COUNT_RANGE, low);
    ModUnique(t, 16, 256 * (count % COUNT_RANGE) + cause % 256, state % 16);
    ModUnique(256 * (count % COUNT_RANGE) + cause % 256, 256, count % COUNT_RANGE, cause % 256);
  }

  /** Count `x` is count `c` after `n` changes. */
  ghost predicate SameCount(x: nat, c: nat, n: nat) {
    x % COUNT_RANGE == (c + 4096 * n) % COUNT_RANGE
  }

  lemma StepCount(words: seq<Word>, ops: seq<Op>, i: nat)
    requires History(words, ops) && i < |ops|
    ensures Changes(ops[i]) ==> GetCount(words[i + 1]) == (GetCount(words[i]) + COUNT_INCREMENT) % COUNT_RANGE
    ensures !Changes(ops[i]) ==> words[i + 1] == words[i]
  {
    var op, w := ops[i], words[i];
    assert Does(w, Token(words, ops, i), op, words[i + 1]);
    match op
    case BlockOp => TokenFields(BLOCKED, 0, GetCount(w) + COUNT_INCREMENT);
    case UnblockOp(_, cause, self, _) => TokenFields(if self then RUNNING else READY, cause, GetCount(w) + COUNT_INCREMENT);
    case ChangeOp(state) => TokenFields(state, GetCause(w), GetCount(w) + COUNT_INCREMENT);
  }

  lemma {:induction false} CountAdvances(words: seq<Word>, ops: seq<Op>, i: nat, j: nat)
    requires History(words, ops) && i <= j <= |ops|
    ensures SameCount(GetCount(words[j]), GetCount(words[i]), ChangeCount(ops, i, j))
  {
    if i < j {
      CountAdvances(words, ops, i, j - 1);
      StepCount(words, ops, j - 1);
      if Changes(ops[j - 1]) {
        CountStep(GetCount(words[j - 1]), GetCount(words[i]), ChangeCount(ops, i, j - 1), GetCount(words[j]));
      }
    }
  }

  lemma CountStep(x: nat, c: nat, n: nat, y: nat)
    requires SameCount(x, c, n) && y == (x + COUNT_INCREMENT) % COUNT_RANGE
    ensures SameCount(y, c, n + 1)
  {
    ModAdd(x, c + 4096 * n, COUNT_INCREMENT);
  }

  lemma ModAdd(x: nat, y: nat, k: nat)
    requires x % COUNT_RANGE == y % COUNT_RANGE
    ensures (x + k) % COUNT_RANGE == (y + k) % COUNT_RANGE
  {
    var r := (x % COUNT_RANGE + k) % COUNT_RANGE;
    var q := (x % COUNT_RANGE + k) / COUNT_RANGE;
    ModUnique(x + k, COUNT_RANGE, x / COUNT_RANGE + q, r);
    ModUnique(y + k, COUNT_RANGE, y / COUNT_RANGE + q, r);
  }

  /** Adding 4096 * n comes back to the same count exactly when n is a multiple of the period. */
  lemma PeriodIs(c: nat, n: nat)
    ensures (c + 4096 * n) % COUNT_RANGE == c % COUNT_RANGE <==> n % PERIOD == 0
  {
    var q, r := n / PERIOD, n % PERIOD;
    assert 4096 * n == COUNT_RANGE * q + 4096 * r;
    var b := c % COUNT_RANGE;
    var k := c / COUNT_RANGE;
    if b + 4096 * r < COUNT_RANGE {
      ModUnique(c + 4096 * n, COUNT_RANGE, k + q, b + 4096 * r);
    } else {
      ModUnique(c + 4096 * n, COUNT_RANGE, k + q + 1, b + 4096 * r - COUNT_RANGE);
    }
  }

  lemma Repeats(x: nat, c: nat, n: nat)
    requires SameCount(x, c, n)
    ensures c % COUNT_RANGE == x % COUNT_RANGE <==> n % PERIOD == 0
  {
    PeriodIs(c, n);
  }

  /** Two states of a task have the same count exactly when a multiple of 2^40 changes lie between them:
      a stale token cannot match before. */
  lemma CountRepeatsExactly(words: seq<Word>, ops: seq<Op>, i: nat, j: nat)
    requires History(words, ops) && i <= j <= |ops|
    ensures GetCount(words[i]) % COUNT_RANGE == GetCount(words[j]) % COUNT_RANGE <==> ChangeCount(ops, i, j) % PERIOD == 0
  {
    CountAdvances(words, ops, i, j);
    Repeats(GetCount(words[j]), GetCount(words[i]), ChangeCount(ops, i, j));
  }

  lemma {:induction false} CountsAdd(ops: seq<Op>, i: nat, k: nat, j: nat)
    requires i <= k <= j <= |ops|
    ensures ChangeCount(ops, i, j) == ChangeCount(ops, i, k) + ChangeCount(ops, k, j)
  {
    if k < j {
      CountsAdd(ops, i, k, j - 1);
    }
  }

  lemma Matching(words: seq<Word>, ops: seq<Op>, a: nat)
    requires History(words, ops) && a < |ops| && ops[a].UnblockOp? && ops[a].ok
    ensures ops[a].b < a && ops[ops[a].b] == BlockOp && words[ops[a].b + 1] == words[a]
    ensures ChangeCount(ops, ops[a].b + 1, a) % PERIOD == 0
  {
    assert TokenOk(ops, a);
    assert Does(words[a], Token(words, ops, a), ops[a], words[a + 1]);
    CountRepeatsExactly(words, ops, ops[a].b + 1, a);
  }

  /** Among all sources that hold the token of one blocking, a second one can win only 2^40 changes later. */
  lemma OneSignalWins(words: seq<Word>, ops: seq<Op>, a: nat, c: nat)
    requires History(words, ops) && a < c < |ops|
    requires ops[a].UnblockOp? && ops[c].UnblockOp? && ops[a].b == ops[c].b && ops[a].ok && ops[c].ok
    ensures ChangeCount(ops, a, c) % PERIOD == 0 && ChangeCount(ops, a, c) >= PERIOD
  {
    Matching(words, ops, a);
    Matching(words, ops, c);
    CountRepeatsExactly(words, ops, a, c);
    SomeChange(ops, a, c);
    PositiveMultiple(ChangeCount(ops, a, c));
  }

  lemma PositiveMultiple(n: nat)
    requires n % PERIOD == 0 && n >= 1
    ensures n >= PERIOD
  {
  }

  lemma {:induction false} SomeChange(ops: seq<Op>, a: nat, c: nat)
    requires a < c <= |ops| && Changes(ops[a])
    ensures ChangeCount(ops, a, c) >= 1
  {
    CountsAdd(ops, a, a + 1, c);
  }

  /** The first signal after a blocking wins: until then nothing has changed the word. */
  lemma FirstSignalWins(words: seq<Word>, ops: seq<Op>, a: nat)
    requires History(words, ops) && a < |ops| && ops[a].UnblockOp?
    requires forall i :: ops[a].b < i < a ==> !Changes(ops[i])
    ensures ops[a].ok
  {
    assert TokenOk(ops, a);
    Unchanged(words, ops, ops[a].b + 1, a);
    assert Does(words[a], Token(words, ops, a), ops[a], words[a + 1]);
  }

  lemma {:induction false} Unchanged(words: seq<Word>, ops: seq<Op>, i: nat, j: nat)
    requires History(words, ops) && i <= j <= |ops|
    requires forall k :: i <= k < j ==> !Changes(ops[k])
    ensures words[j] == words[i]
  {
    if i < j {
      Unchanged(words, ops, i, j - 1);
      assert Does(words[j - 1], Token(words, ops, j - 1), ops[j - 1], words[j]);
    }
  }

  /** A token has the BLOCKED state, so it never matches a task in another state: no unblock can fall
      between the load and the store of a state change of a task that is not BLOCKED. */
  lemma NoUnblockUnlessBlocked(words: seq<Word>, ops: seq<Op>, a: nat)
    requires History(words, ops) && a < |ops| && ops[a].UnblockOp? && GetState(words[a]) != BLOCKED
    ensures !ops[a].ok
  {
    assert TokenOk(ops, a);
    var b := ops[a].b;
    assert Does(words[b], Token(words, ops, b), BlockOp, words[b + 1]);
    TokenFields(BLOCKED, 0, GetCount(words[b]) + COUNT_INCREMENT);
    assert Does(words[a], Token(words, ops, a), ops[a], words[a + 1]);
  }

  /** The state of a task after each operation: BLOCKED after a block, RUNNING or READY after an unblock that
      wins, what was asked for after a change, and the same as before after an unblock that fails. */
  lemma StateAfter(words: seq<Word>, ops: seq<Op>, i: nat)
    requires History(words, ops) && i < |ops|
    ensures ops[i] == BlockOp ==> GetState(words[i + 1]) == BLOCKED
    ensures ops[i].UnblockOp? && ops[i].ok ==> GetState(words[i + 1]) == if ops[i].self then RUNNING else READY
    ensures ops[i].UnblockOp? && !ops[i].ok ==> words[i + 1] == words[i]
    ensures ops[i].ChangeOp? ==> GetState(words[i + 1]) == ops[i].state % 16
  {
    var op, w := ops[i], words[i];
    assert Does(w, Token(words, ops, i), op, words[i + 1]);
    match op
    case BlockOp => TokenFields(BLOCKED, 0, GetCount(w) + COUNT_INCREMENT);
    case UnblockOp(_, cause, self, _) => TokenFields(if self then RUNNING else READY, cause, GetCount(w) + COUNT_INCREMENT);
    case ChangeOp(state) => TokenFields(state, GetCause(w), GetCount(w) + COUNT_INCREMENT);
  }

  lemma StepCause(words: seq<Word>, ops: seq<Op>, i: nat)
    requires History(words, ops) && i < |ops| && ops[i] != BlockOp
    ensures GetCause(words[i + 1]) == if ops[i].UnblockOp? && ops[i].ok then ops[i].cause % 256 else GetCause(words[i])
  {
    var op, w := ops[i], words[i];
    assert Does(w, Token(words, ops, i), op, words[i + 1]);
    if op.ChangeOp? {
      CauseRange(w);
      TokenFields(op.state, GetCause(w), GetCount(w) + COUNT_INCREMENT);
    } else {
      TokenFields(if op.self then RUNNING else READY, op.cause, GetCount(w) + COUNT_INCREMENT);
    }
  }

  lemma CauseRange(w: Word)
    ensures GetCause(w) % 256 == GetCause(w)
  {
  }

  /** Every word of a history is made of its three fields. */
  lemma {:induction false} WordIs(words: seq<Word>, ops: seq<Op>, i: nat)
    requires History(words, ops) && i < |words|
    ensures GetCount(words[i]) < COUNT_RANGE
    ensures words[i] == 4096 * GetCount(words[i]) + 16 * GetCause(words[i]) + GetState(words[i])
  {
    if i > 0 {
      var op, w := ops[i - 1], words[i - 1];
      WordIs(words, ops, i - 1);
      assert Does(w, Token(words, ops, i - 1), op, words[i]);
      if Changes(op) {
        match op
        case BlockOp => TokenFields(BLOCKED, 0, GetCount(w) + COUNT_INCREMENT);
        case UnblockOp(_, cause, self, _) => TokenFields(if self then RUNNING else READY, cause, GetCount(w) + COUNT_INCREMENT);
        case ChangeOp(state) => TokenFields(state, GetCause(w), GetCount(w) + COUNT_INCREMENT);
      }
    }
  }

  lemma BlockedWord(words: seq<Word>, ops: seq<Op>, b: nat)
    requires History(words, ops) && b < |ops| && ops[b] == BlockOp
    ensures GetState(words[b + 1]) == BLOCKED && GetCause(words[b + 1]) == 0
  {
    assert Does(words[b], Token(words, ops, b), ops[b], words[b + 1]);
    TokenFields(BLOCKED, 0, GetCount(words[b]) + COUNT_INCREMENT);
  }

  lemma OkIsEqual(words: seq<Word>, ops: seq<Op>, a: nat)
    requires History(words, ops) && a < |ops| && ops[a].UnblockOp?
    ensures ops[a].b < a && ops[ops[a].b] == BlockOp && (ops[a].ok <==> words[ops[a].b + 1] == words[a])
  {
    assert TokenOk(ops, a);
    assert Does(words[a], Token(words, ops, a), ops[a], words[a + 1]);
  }

  /** When an unblock succeeds: exactly on a task that is BLOCKED with no cause recorded, a multiple of 2^40
      changes after its token was issued. */
  lemma UnblockSucceedsExactly(words: seq<Word>, ops: seq<Op>, a: nat)
    requires History(words, ops) && a < |ops| && ops[a].UnblockOp?
    ensures ops[a].b < a
    ensures ops[a].ok <==> GetState(words[a]) == BLOCKED && GetCause(words[a]) == 0
                           && ChangeCount(ops, ops[a].b + 1, a) % PERIOD == 0
  {
    OkIsEqual(words, ops, a);
    var b := ops[a].b;
    BlockedWord(words, ops, b);
    CountRepeatsExactly(words, ops, b + 1, a);
    FieldsDetermine(words, ops, b + 1, a);
  }

  lemma FieldsDetermine(words: seq<Word>, ops: seq<Op>, i: nat, j: nat)
    requires History(words, ops) && i < |words| && j < |words|
    ensures words[i] == words[j] <==>
      GetState(words[i]) == GetState(words[j]) && GetCause(words[i]) == GetCause(words[j])
      && GetCount(words[i]) % COUNT_RANGE == GetCount(words[j]) % COUNT_RANGE
  {
    WordIs(words, ops, i);
    WordIs(words, ops, j);
    SmallCount(GetCount(words[i]));
    SmallCount(GetCount(words[j]));
  }

  lemma SmallCount(c: nat)
    requires c < COUNT_RANGE
    ensures c % COUNT_RANGE == c
  {
  }

  /** The type of the winning signal, if it is not 0, is the cause the task reads in every state up to its
      next blocking, whatever tokens are presented meanwhile: none of them can match. */
  lemma {:induction false} CauseIsKept(words: seq<Word>, ops: seq<Op>, a: nat, j: nat)
    requires History(words, ops) && a < j <= |ops| && ops[a].UnblockOp? && ops[a].ok && ops[a].cause % 256 != 0
    requires forall i :: a < i < j ==> ops[i] != BlockOp
    ensures GetCause(words[j]) == ops[a].cause % 256
  {
    StepCause(words, ops, j - 1);
    if a + 1 < j {
      CauseIsKept(words, ops, a, j - 1);
      if ops[j - 1].UnblockOp? {
        UnblockSucceedsExactly(words, ops, j - 1);
      }
    }
  }

  /** Exactly one signal wins for each blocking: between a win of a type that is not 0 and the next win the
      task was blocked again. */
  lemma WinsAreSeparated(words: seq<Word>, ops: seq<Op>, a: nat, c: nat)
    requires History(words, ops) && a < c < |ops| && ops[a].UnblockOp? && ops[a].ok && ops[a].cause % 256 != 0
    requires ops[c].UnblockOp? && ops[c].ok
    ensures exists i :: a < i < c && ops[i] == BlockOp
  {
    if forall i :: a < i < c ==> ops[i] != BlockOp {
      CauseIsKept(words, ops, a, c);
      UnblockSucceedsExactly(words, ops, c);
    }
  }

  /** An unblock that is presented to a task that is not BLOCKED, or with a token younger than 2^40 changes. */
  ghost predicate Harmless(words: seq<Word>, ops: seq<Op>, i: nat)
    requires i < |ops| && i < |words|
  {
    ops[i].UnblockOp? ==>
      GetState(words[i]) != BLOCKED || (ops[i].b < i && ChangeCount(ops, ops[i].b + 1, i) < PERIOD)
  }

  lemma HarmlessFails(words: seq<Word>, ops: seq<Op>, a: nat, c: nat)
    requires History(words, ops) && a < c < |ops| && ops[a].UnblockOp? && ops[a].ok
    requires (forall i :: a < i < c ==> ops[i] != BlockOp) && Harmless(words, ops, c)
    ensures ops[c].UnblockOp? ==> !ops[c].ok
  {
    if ops[c].UnblockOp? {
      LateUnblock(words, ops, a, c);
    }
  }

  /** A win of type 0 leaves the task like one that nobody signaled: its cause is kept if the unblocks
      that follow are harmless. */
  lemma {:induction false} CauseZeroIsKept(words: seq<Word>, ops: seq<Op>, a: nat, j: nat)
    requires History(words, ops) && a < j <= |ops| && ops[a].UnblockOp? && ops[a].ok
    requires forall i: nat :: a < i < j ==> ops[i] != BlockOp && Harmless(words, ops, i)
    ensures GetCause(words[j]) == ops[a].cause % 256
  {
    StepCause(words, ops, j - 1);
    if a + 1 < j {
      CauseZeroIsKept(words, ops, a, j - 1);
      HarmlessFails(words, ops, a, j - 1);
    }
  }

  /** A second success after operation `a`, with no blocking between, finds the task BLOCKED and presents a
      token that is 2^40 changes old. */
  lemma LateUnblock(words: seq<Word>, ops: seq<Op>, a: nat, c: nat)
    requires History(words, ops) && a < c < |ops| && ops[a].UnblockOp? && ops[a].ok && ops[c].UnblockOp?
    requires forall i :: a < i < c ==> ops[i] != BlockOp
    ensures ops[c].b < c
    ensures ops[c].ok ==> GetState(words[c]) == BLOCKED && ChangeCount(ops, ops[c].b + 1, c) >= PERIOD
  {
    UnblockSucceedsExactly(words, ops, c);
    assert TokenOk(ops, c);
    var b := ops[c].b;
    assert b < a;
    CountsAdd(ops, b + 1, a, c);
    SomeChange(ops, a, c);
    if ops[c].ok {
      PositiveMultiple(ChangeCount(ops, b + 1, c));
    }
  }

  // ---------------------------------------------------------------- a token that comes round

  lemma ExtendHistory(words: seq<Word>, ops: seq<Op>, op: Op, w: Word)
    requires History(words, ops)
    requires op.UnblockOp? ==> op.b < |ops| && ops[op.b] == BlockOp
    requires Does(words[|ops|], if op.UnblockOp? then words[op.b + 1] else 0, op, w)
    ensures History(words + [w], ops + [op])
  {
    var more, acts := words + [w], ops + [op];
    forall i: nat | i < |acts| ensures TokenOk(acts, i) {
      assert i < |ops| ==> TokenOk(ops, i);
    }
    forall i | 0 <= i < |acts| ensures Does(more[i], Token(more, acts, i), acts[i], more[i + 1]) {
      if i < |ops| {
        assert TokenOk(ops, i);
        assert Does(words[i], Token(words, ops, i), ops[i], words[i + 1]);
        assert Token(more, acts, i) == Token(words, ops, i);
      }
    }
  }

  /** The history goes on with `n` state changes of a task that runs. */
  lemma {:induction false} RunOn(words: seq<Word>, ops: seq<Op>, m: nat, n: nat) returns (more: seq<Word>, acts: seq<Op>)
    requires History(words, ops) && GetCount(words[|ops|]) == 4096 * m % COUNT_RANGE && GetState(words[|ops|]) != BLOCKED
    ensures History(more, acts) && |acts| == |ops| + n && acts[..|ops|] == ops && more[..|words|] == words
    ensures GetCount(more[|acts|]) == 4096 * (m + n) % COUNT_RANGE && GetState(more[|acts|]) != BLOCKED
    ensures GetCause(more[|acts|]) == GetCause(words[|ops|]) && forall i :: |ops| <= i < |acts| ==> acts[i] == ChangeOp(RUNNING)
    decreases n
  {
    if n == 0 {
      more, acts := words, ops;
    } else {
      var w := words[|ops|];
      var next := Changed(w, RUNNING, GetCause(w));
      ExtendHistory(words, ops, ChangeOp(RUNNING), next);
      TokenFields(RUNNING, GetCause(w), GetCount(w) + COUNT_INCREMENT);
      CauseRange(w);
      NextCount(m);
      more, acts := RunOn(words + [next], ops + [ChangeOp(RUNNING)], m + 1, n - 1);
      assert acts[..|ops|] == acts[..|ops| + 1][..|ops|];
      assert more[..|words|] == more[..|words| + 1][..|words|];
    }
  }

  lemma NextCount(m: nat)
    ensures (4096 * m % COUNT_RANGE + COUNT_INCREMENT) % COUNT_RANGE == 4096 * (m + 1) % COUNT_RANGE
  {
    ModAdd(4096 * m % COUNT_RANGE, 4096 * m, COUNT_INCREMENT);
  }

  /** The bound of 2^40 changes is sharp: a history in which the token of the first blocking wins twice. */
  lemma StaleTokenWins() returns (words: seq<Word>, ops: seq<Op>)
    ensures History(words, ops) && |ops| == PERIOD + 2
    ensures ops[1] == UnblockOp(0, 1, false, true) && ops[PERIOD + 1] == UnblockOp(0, 1, false, true)
  {
    var w1 := Changed(0, BLOCKED, 0);
    var w2 := Changed(w1, READY, 1);
    TokenFields(BLOCKED, 0, COUNT_INCREMENT);
    TokenFields(READY, 1, GetCount(w1) + COUNT_INCREMENT);
    ExtendHistory([0], [], BlockOp, w1);
    ExtendHistory([0] + [w1], [] + [BlockOp], UnblockOp(0, 1, false, true), w2);
    var start, first := [0] + [w1] + [w2], [] + [BlockOp] + [UnblockOp(0, 1, false, true)];
    words, ops := RunOn(start, first, 2, PERIOD - 2);
    var w := words[|ops|];
    assert ops[0] == ops[..2][0] && ops[1] == ops[..2][1] && words[1] == words[..3][1];
    assert GetCount(w) == 0;
    assert Changed(w, BLOCKED, 0) == w1;
    ExtendHistory(words, ops, BlockOp, w1);
    ExtendHistory(words + [w1], ops + [BlockOp], UnblockOp(0, 1, false, true), w2);
    words, ops := words + [w1] + [w2], ops + [BlockOp] + [UnblockOp(0, 1, false, true)];
  }

  /** Type 0 needs the condition: a history in which a win of type 0 is followed by one of type 1 with no
      blocking between, because the task went through BLOCKED by itself. */
  lemma TypeZeroIsLost() returns (words: seq<Word>, ops: seq<Op>)
    ensures History(words, ops) && |ops| == PERIOD + 2
    ensures ops[1] == UnblockOp(0, 0, false, true) && ops[PERIOD + 1] == UnblockOp(0, 1, false, true)
    ensures forall i :: 1 < i < PERIOD + 1 ==> ops[i] != BlockOp
  {
    var w1 := Changed(0, BLOCKED, 0);
    var w2 := Changed(w1, READY, 0);
    TokenFields(BLOCKED, 0, COUNT_INCREMENT);
    TokenFields(READY, 0, GetCount(w1) + COUNT_INCREMENT);
    ExtendHistory([0], [], BlockOp, w1);
    ExtendHistory([0] + [w1], [] + [BlockOp], UnblockOp(0, 0, false, true), w2);
    var start, first := [0] + [w1] + [w2], [] + [BlockOp] + [UnblockOp(0, 0, false, true)];
    words, ops := RunOn(start, first, 2, PERIOD - 2);
    var w := words[|ops|];
    assert ops[0] == ops[..2][0] && ops[1] == ops[..2][1] && words[1] == words[..3][1];
    assert GetCount(w) == 0;
    assert Changed(w, BLOCKED, 0) == w1;
    ExtendHistory(words, ops, ChangeOp(BLOCKED), w1);
    ExtendHistory(words + [w1], ops + [ChangeOp(BLOCKED)], UnblockOp(0, 1, false, true), Changed(w1, READY, 1));
    words, ops := words + [w1] + [Changed(w1, READY, 1)], ops + [ChangeOp(BLOCKED)] + [UnblockOp(0, 1, false, true)];
  }
}
