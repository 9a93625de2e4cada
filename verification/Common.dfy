/** Shared vocabulary: results, the host's saturating 128-bit arithmetic, finite sums over
    storage maps, and the list indexes that several contracts keep beside their maps. */
module Common {

  datatype Option<+T> = None | Some(value: T)

  datatype Result<+T, +E> = Ok(value: T) | Err(error: E)

  /** Accounts are numbered; the all-zero account is `ZERO_ADDRESS`. */
  type Address = nat

  const ZERO_ADDRESS: Address := 0

  // ---------------------------------------------------------------------------------------
  // Saturating u128 arithmetic
  // ---------------------------------------------------------------------------------------

  const U128_MAX: nat := 0xFFFF_FFFF_FFFF_FFFF_FFFF_FFFF_FFFF_FFFF

  function Sat(x: nat): nat {
    if x <= U128_MAX then x else U128_MAX
  }

  function SatAdd(x: nat, y: nat): nat {
    Sat(x + y)
  }

  function SatMul(x: nat, y: nat): nat {
    Sat(x * y)
  }

  function SatSub(x: nat, y: nat): nat {
    if x >= y then x - y else 0
  }

  const U64_MAX: nat := 0xFFFF_FFFF_FFFF_FFFF

  /** Saturating addition of timestamps and durations. */
  function SatTime(x: nat, y: nat): nat {
    if x + y <= U64_MAX then x + y else U64_MAX
  }

  /** Plain 64-bit addition, which wraps around in the release profile. */
  function WrapU64(x: nat): nat {
    x % (U64_MAX + 1)
  }

  function Pos(x: int): nat {
    if x >= 0 then x else 0
  }

  function Bit(b: bool): nat {
    if b then 1 else 0
  }

  lemma ProductOrdered(a: nat, b: nat, d: nat)
    requires a <= b
    ensures a * d <= b * d
  {
  }

  lemma SatOrdered(x: nat, x': nat, y: nat, y': nat)
    requires x <= x' && y <= y'
    ensures SatMul(x, y) <= SatMul(x', y')
  {
    ProductOrdered(x, x', y);
    ProductOrdered(y, y', x');
  }

  // ---------------------------------------------------------------------------------------
  // Messages: what a committed or reverted message does to the storage it ran on
  // ---------------------------------------------------------------------------------------

  /** The host keeps the new storage of a message that returns normally and discards every
      write of one that fails. */
  ghost predicate Commits<S, T, E>(spec: Result<(S, T), E>, before: S, after: S, reply: Result<T, E>) {
    match spec
    case Ok((s, t)) => after == s && reply == Ok(t)
    case Err(e) => after == before && reply == Err(e)
  }

  // ---------------------------------------------------------------------------------------
  // Sums over maps
  // ---------------------------------------------------------------------------------------

  /** Sum of `f(k, m[k])` over the keys of `m`. */
  ghost function SumBy<K(!new), V(!new)>(m: map<K, V>, f: (K, V) -> int): int
    decreases |m|
  {
    if m == map[] then 0
    else
      var k :| k in m;
      f(k, m[k]) + SumBy(m - {k}, f)
  }

  lemma {:induction false} SumRemove<K(!new), V(!new)>(m: map<K, V>, k: K, f: (K, V) -> int)
    requires k in m
    ensures SumBy(m, f) == f(k, m[k]) + SumBy(m - {k}, f)
    decreases |m|
  {
    var j :| j in m && SumBy(m, f) == f(j, m[j]) + SumBy(m - {j}, f);
    if j != k {
      SumRemove(m - {j}, k, f);
      SumRemove(m - {k}, j, f);
      assert m - {j} - {k} == m - {k} - {j};
    }
  }

  /** Writing one key changes the sum by the difference at that key. */
  lemma SumInsert<K(!new), V(!new)>(m: map<K, V>, k: K, v: V, f: (K, V) -> int)
    ensures SumBy(m[k := v], f) == SumBy(m, f) - (if k in m then f(k, m[k]) else 0) + f(k, v)
  {
    SumRemove(m[k := v], k, f);
    if k in m {
      SumRemove(m, k, f);
      assert m[k := v] - {k} == m - {k};
    } else {
      assert m[k := v] - {k} == m;
    }
  }

  lemma Distributes(c: int, x: int, y: int)
    ensures c * (x + y) == c * x + c * y
  {
  }

  /** Pointwise bounds add up: `g <= f + c * h` at every key bounds the sums. */
  lemma {:induction false} SumBound<K(!new), V(!new)>(
      m: map<K, V>, g: (K, V) -> int, f: (K, V) -> int, c: int, h: (K, V) -> int)
    requires forall k | k in m :: g(k, m[k]) <= f(k, m[k]) + c * h(k, m[k])
    ensures SumBy(m, g) <= SumBy(m, f) + c * SumBy(m, h)
    decreases |m|
  {
    if m != map[] {
      var k :| k in m;
      SumBound(m - {k}, g, f, c, h);
      SumRemove(m, k, g);
      SumRemove(m, k, f);
      SumRemove(m, k, h);
      Distributes(c, h(k, m[k]), SumBy(m - {k}, h));
    }
  }

  /** Sums of weights that agree on the map agree. */
  lemma {:induction false} SumCongruent<K(!new), V(!new)>(m: map<K, V>, g: (K, V) -> int, f: (K, V) -> int)
    requires forall k | k in m :: g(k, m[k]) == f(k, m[k])
    ensures SumBy(m, g) == SumBy(m, f)
    decreases |m|
  {
    if m != map[] {
      var k :| k in m;
      SumCongruent(m - {k}, g, f);
      SumRemove(m, k, g);
      SumRemove(m, k, f);
    }
  }

  /** With non-negative weights every single term is at most the sum. */
  lemma {:induction false} SumTerm<K(!new), V(!new)>(m: map<K, V>, f: (K, V) -> int)
    requires forall k | k in m :: f(k, m[k]) >= 0
    ensures SumBy(m, f) >= 0
    ensures forall k | k in m :: f(k, m[k]) <= SumBy(m, f)
    decreases |m|
  {
    if m != map[] {
      var j :| j in m;
      SumTerm(m - {j}, f);
      SumRemove(m, j, f);
      forall k | k in m ensures f(k, m[k]) <= SumBy(m, f) {
        if k != j {
          assert (m - {j})[k] == m[k];
        }
      }
    }
  }

  // ---------------------------------------------------------------------------------------
  // Lists kept beside a map
  // ---------------------------------------------------------------------------------------

  ghost predicate NoDuplicates<T>(s: seq<T>) {
    forall i, j | 0 <= i < j < |s| :: s[i] != s[j]
  }

  /** The stored list under `k`, empty when there is none. */
  function ListAt<K, T>(lists: map<K, seq<T>>, k: K): seq<T> {
    if k in lists then lists[k] else []
  }

  function CountAt<K>(counts: map<K, nat>, k: K): nat {
    if k in counts then counts[k] else 0
  }

  /** `s` with every occurrence of `x` removed, order kept. */
  function Without<T(==, !new)>(s: seq<T>, x: T): (r: seq<T>)
    ensures forall y :: y in r <==> y in s && y != x
  {
    if s == [] then []
    else if s[|s| - 1] == x then Without(s[..|s| - 1], x)
    else Without(s[..|s| - 1], x) + [s[|s| - 1]]
  }

  lemma {:induction false} WithoutNoDuplicates<T(!new)>(s: seq<T>, x: T)
    requires NoDuplicates(s)
    ensures NoDuplicates(Without(s, x))
  {
    if s != [] {
      var last := s[|s| - 1];
      WithoutNoDuplicates(s[..|s| - 1], x);
      assert last !in Without(s[..|s| - 1], x);
    }
  }

  /** `lists` is an exact index of `owner`: under each key it lists, once each, the items the
      key owns. */
  ghost predicate Indexes<K(!new), T(!new)>(lists: map<K, seq<T>>, owner: map<T, K>) {
    forall k :: NoDuplicates(ListAt(lists, k)) && Lists(ListAt(lists, k), owner, k)
  }

  ghost predicate Lists<K, T(!new)>(list: seq<T>, owner: map<T, K>, k: K) {
    forall x :: x in list <==> x in owner && owner[x] == k
  }

  lemma IndexAdd<K(!new), T(!new)>(lists: map<K, seq<T>>, owner: map<T, K>, x: T, k: K)
    requires Indexes(lists, owner) && x !in owner
    ensures Indexes(lists[k := ListAt(lists, k) + [x]], owner[x := k])
  {
    var lists' := lists[k := ListAt(lists, k) + [x]];
    forall j ensures NoDuplicates(ListAt(lists', j)) && Lists(ListAt(lists', j), owner[x := k], j) {
      assert NoDuplicates(ListAt(lists, j)) && Lists(ListAt(lists, j), owner, j);
    }
  }

  lemma IndexRemove<K(!new), T(!new)>(lists: map<K, seq<T>>, owner: map<T, K>, x: T)
    requires Indexes(lists, owner) && x in owner
    ensures Indexes(lists[owner[x] := Without(ListAt(lists, owner[x]), x)], owner - {x})
  {
    var k := owner[x];
    var lists' := lists[k := Without(ListAt(lists, k), x)];
    forall j ensures NoDuplicates(ListAt(lists', j)) && Lists(ListAt(lists', j), owner - {x}, j) {
      assert NoDuplicates(ListAt(lists, j)) && Lists(ListAt(lists, j), owner, j);
      WithoutNoDuplicates(ListAt(lists, k), x);
    }
  }
}
