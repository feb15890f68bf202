/**
 * Sums of real amounts, as the source accumulates them with `+=`: over a sequence
 * (a list walked in order), over a map (a dict whose iteration order is immaterial),
 * and double sums whose two orders of summation agree.
 */
module Sums {

  /** Left-to-right sum of f over s. */
  function SumOf<T>(s: seq<T>, f: T -> real): real
  {
    if s == [] then 0.0 else SumOf(s[..|s| - 1], f) + f(s[|s| - 1])
  }

  lemma {:induction false} SumOfAppend<T>(s: seq<T>, t: seq<T>, f: T -> real)
    ensures SumOf(s + t, f) == SumOf(s, f) + SumOf(t, f)
  {
    if t == [] {
      assert s + t == s;
    } else {
      var u := t[..|t| - 1];
      assert (s + t)[..|s + t| - 1] == s + u;
      SumOfAppend(s, u, f);
    }
  }

  /** Sum of f over s is zero when f vanishes on every element of s. */
  lemma {:induction false} SumOfZero<T>(s: seq<T>, f: T -> real)
    requires forall i :: 0 <= i < |s| ==> f(s[i]) == 0.0
    ensures SumOf(s, f) == 0.0
  {
    if s != [] {
      SumOfZero(s[..|s| - 1], f);
    }
  }

  /** Sum of f over s is non-negative when f is non-negative on s. */
  lemma {:induction false} SumOfNonNegative<T>(s: seq<T>, f: T -> real)
    requires forall i :: 0 <= i < |s| ==> f(s[i]) >= 0.0
    ensures SumOf(s, f) >= 0.0
  {
    if s != [] {
      SumOfNonNegative(s[..|s| - 1], f);
    }
  }

  /** Sums over the same list agree where their terms do. */
  lemma {:induction false} SumOfPointwise<T>(s: seq<T>, g: T -> real, h: T -> real)
    requires forall i :: 0 <= i < |s| ==> g(s[i]) == h(s[i])
    ensures SumOf(s, g) == SumOf(s, h)
  {
    if s != [] {
      SumOfPointwise(s[..|s| - 1], g, h);
    }
  }

  // ----- double sums over two lists -----

  /** Sum over b in bs of f(a, b). */
  function SumRow<A, B>(a: A, bs: seq<B>, f: (A, B) -> real): real
  {
    if bs == [] then 0.0 else SumRow(a, bs[..|bs| - 1], f) + f(a, bs[|bs| - 1])
  }

  /** Sum over a in xs of f(a, b). */
  function SumCol<A, B>(xs: seq<A>, b: B, f: (A, B) -> real): real
  {
    if xs == [] then 0.0 else SumCol(xs[..|xs| - 1], b, f) + f(xs[|xs| - 1], b)
  }

  /** Sum over a in xs of the sum over b in bs: rows first. */
  function SumByRows<A, B>(xs: seq<A>, bs: seq<B>, f: (A, B) -> real): real
  {
    if xs == [] then 0.0 else SumByRows(xs[..|xs| - 1], bs, f) + SumRow(xs[|xs| - 1], bs, f)
  }

  /** Sum over b in bs of the sum over a in xs: columns first. */
  function SumByCols<A, B>(xs: seq<A>, bs: seq<B>, f: (A, B) -> real): real
  {
    if bs == [] then 0.0 else SumByCols(xs, bs[..|bs| - 1], f) + SumCol(xs, bs[|bs| - 1], f)
  }

  /** Adding one row to the grid adds that row's sum to the column-first total. */
  lemma {:induction false} SumByColsAddRow<A, B>(xs: seq<A>, x: A, bs: seq<B>, f: (A, B) -> real)
    ensures SumByCols(xs + [x], bs, f) == SumByCols(xs, bs, f) + SumRow(x, bs, f)
  {
    if bs != [] {
      var cs := bs[..|bs| - 1];
      var y := bs[|bs| - 1];
      SumByColsAddRow(xs, x, cs, f);
      assert (xs + [x])[..|xs + [x]| - 1] == xs;
      assert SumCol(xs + [x], y, f) == SumCol(xs, y, f) + f(x, y);
    }
  }

  /** The two orders of a double summation agree. */
  lemma {:induction false} SumOrderIrrelevant<A, B>(xs: seq<A>, bs: seq<B>, f: (A, B) -> real)
    ensures SumByRows(xs, bs, f) == SumByCols(xs, bs, f)
  {
    if xs == [] {
      ZeroRows(bs, f);
    } else {
      var ps := xs[..|xs| - 1];
      var x := xs[|xs| - 1];
      SumOrderIrrelevant(ps, bs, f);
      SumByColsAddRow(ps, x, bs, f);
      assert ps + [x] == xs;
    }
  }

  lemma {:induction false} ZeroRows<A, B>(bs: seq<B>, f: (A, B) -> real)
    ensures SumByCols([], bs, f) == 0.0
  {
    if bs != [] {
      ZeroRows(bs[..|bs| - 1], f);
    }
  }

  // ----- sums over a set -----

  /** Sum of g over the elements of ks, in an order the model leaves open. */
  ghost function SumSet<K>(ks: set<K>, g: K -> real): real
  {
    if ks == {} then 0.0
    else
      var k :| k in ks;
      g(k) + SumSet(ks - {k}, g)
  }

  /** Any element may be taken out first: the sum does not depend on the visiting order. */
  lemma {:induction false} SumSetRemove<K>(ks: set<K>, g: K -> real, k: K)
    requires k in ks
    ensures SumSet(ks, g) == g(k) + SumSet(ks - {k}, g)
  {
    var j :| j in ks && SumSet(ks, g) == g(j) + SumSet(ks - {j}, g);
    if j != k {
      SumSetRemove(ks - {j}, g, k);
      SumSetRemove(ks - {k}, g, j);
      assert ks - {j} - {k} == ks - {k} - {j};
    }
  }

  /** Elements that all contribute zero sum to zero. */
  lemma {:induction false} SumSetZero<K>(ks: set<K>, g: K -> real)
    requires forall k :: k in ks ==> g(k) == 0.0
    ensures SumSet(ks, g) == 0.0
  {
    if ks != {} {
      var k :| k in ks && SumSet(ks, g) == g(k) + SumSet(ks - {k}, g);
      SumSetZero(ks - {k}, g);
    }
  }

  /** Sums over the same set agree where their terms do. */
  lemma {:induction false} SumSetPointwise<K>(ks: set<K>, g: K -> real, h: K -> real)
    requires forall k :: k in ks ==> g(k) == h(k)
    ensures SumSet(ks, g) == SumSet(ks, h)
  {
    if ks != {} {
      var k :| k in ks && SumSet(ks, g) == g(k) + SumSet(ks - {k}, g);
      SumSetRemove(ks, h, k);
      SumSetPointwise(ks - {k}, g, h);
    }
  }

  /** The sum of a sum of two terms is the sum of their sums. */
  lemma {:induction false} SumSetAdd<K>(ks: set<K>, g: K -> real, h: K -> real, gh: K -> real)
    requires forall k :: k in ks ==> gh(k) == g(k) + h(k)
    ensures SumSet(ks, gh) == SumSet(ks, g) + SumSet(ks, h)
  {
    if ks != {} {
      var k :| k in ks && SumSet(ks, gh) == gh(k) + SumSet(ks - {k}, gh);
      SumSetRemove(ks, g, k);
      SumSetRemove(ks, h, k);
      SumSetAdd(ks - {k}, g, h, gh);
    }
  }

  /** The sum of f over the columns ks of row a. */
  ghost function RowSum<A, K>(ks: set<K>, f: (A, K) -> real, a: A): real
  {
    SumSet(ks, (k: K) => f(a, k))
  }

  /** The sum of f over the rows xs of column k. */
  function ColSum<A, K>(xs: seq<A>, f: (A, K) -> real, k: K): real
  {
    SumOf(xs, (a: A) => f(a, k))
  }

  /** A set sum whose terms are those of row a is that row's sum. */
  lemma RowSumIs<A, K>(ks: set<K>, f: (A, K) -> real, a: A, g: K -> real)
    requires forall k :: k in ks ==> g(k) == f(a, k)
    ensures SumSet(ks, g) == RowSum(ks, f, a)
  {
    SumSetPointwise(ks, g, (k: K) => f(a, k));
  }

  /** A list sum whose terms are those of column k is that column's sum. */
  lemma ColSumIs<A, K>(xs: seq<A>, f: (A, K) -> real, k: K, g: A -> real)
    requires forall i :: 0 <= i < |xs| ==> g(xs[i]) == f(xs[i], k)
    ensures SumOf(xs, g) == ColSum(xs, f, k)
  {
    SumOfPointwise(xs, g, (a: A) => f(a, k));
  }

  /**
   * Summing f over a list of rows and a set of columns: adding up the row sums and adding
   * up the column sums agree.
   */
  lemma {:induction false} SumSetOfSums<A, K>(xs: seq<A>, ks: set<K>, f: (A, K) -> real, row: A -> real, col: K -> real)
    requires forall i :: 0 <= i < |xs| ==> row(xs[i]) == RowSum(ks, f, xs[i])
    requires forall k :: k in ks ==> col(k) == ColSum(xs, f, k)
    ensures SumOf(xs, row) == SumSet(ks, col)
  {
    if xs == [] {
      SumSetZero(ks, col);
    } else {
      var ys := xs[..|xs| - 1];
      var x := xs[|xs| - 1];
      var before := (k: K) => ColSum(ys, f, k);
      assert forall i :: 0 <= i < |ys| ==> ys[i] == xs[i];
      SumSetOfSums(ys, ks, f, row, before);
      SumSetAdd(ks, before, (k: K) => f(x, k), col);
    }
  }

  // ----- sums over the values of a map -----

  /** Sum of f over the entries of m whose keys are in ks. */
  ghost function SumKeys<K, V>(m: map<K, V>, ks: set<K>, f: V -> real): real
    requires ks <= m.Keys
  {
    SumSet(ks, (k: K) => if k in m then f(m[k]) else 0.0)
  }

  /** Sum of f over all values of m. */
  ghost function SumMap<K, V>(m: map<K, V>, f: V -> real): real
  {
    SumKeys(m, m.Keys, f)
  }

  /** Any key may be taken out first: the sum does not depend on the visiting order. */
  lemma SumKeysRemove<K, V>(m: map<K, V>, ks: set<K>, f: V -> real, k: K)
    requires ks <= m.Keys && k in ks
    ensures SumKeys(m, ks, f) == f(m[k]) + SumKeys(m, ks - {k}, f)
  {
    SumSetRemove(ks, (j: K) => if j in m then f(m[j]) else 0.0, k);
  }

  /** Entries whose values all contribute zero sum to zero. */
  lemma SumKeysZero<K, V>(m: map<K, V>, ks: set<K>, f: V -> real)
    requires ks <= m.Keys
    requires forall k :: k in ks ==> f(m[k]) == 0.0
    ensures SumKeys(m, ks, f) == 0.0
  {
    SumSetZero(ks, (j: K) => if j in m then f(m[j]) else 0.0);
  }
}
