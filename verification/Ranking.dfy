/** The ranking metrics of the link prediction study, over real scores. A tensor sort may order ties
    as it likes, so its result is a parameter and every claim is about all results it may give. */
module Ranking {
  import opened Model

  // ------------------------------------------------------------------ sorting

  predicate Permutes(p: seq<int>, n: nat) {
    && |p| == n
    && (forall i :: 0 <= i < n ==> 0 <= p[i] < n)
    && (forall i, k :: 0 <= i < k < n ==> p[i] != p[k])
  }

  /** A result of argsort: all the indices, in an order that sorts the scores. */
  predicate IsArgsort(s: seq<real>, p: seq<int>) {
    && Permutes(p, |s|)
    && forall i, k :: 0 <= i < k < |s| ==> s[p[i]] <= s[p[k]]
  }

  predicate IsArgsortDescending(s: seq<real>, p: seq<int>) {
    && Permutes(p, |s|)
    && forall i, k :: 0 <= i < k < |s| ==> s[p[k]] <= s[p[i]]
  }

  predicate Distinct<T(==)>(s: seq<T>) {
    forall i, k :: 0 <= i < k < |s| ==> s[i] != s[k]
  }

  function Reals(p: seq<int>): seq<real> {
    seq(|p|, i requires 0 <= i < |p| => p[i] as real)
  }

  // ------------------------------------------------------------------ counting

  /** How many elements are below `v`. */
  function Below(s: seq<int>, v: int): nat {
    if s == [] then 0 else (if s[0] < v then 1 else 0) + Below(s[1..], v)
  }

  function Equal(s: seq<int>, v: int): nat {
    if s == [] then 0 else (if s[0] == v then 1 else 0) + Equal(s[1..], v)
  }

  /** The pairs of an element of `u` and an element of `w` below it. */
  function PairsBelow(u: seq<int>, w: seq<int>): nat {
    if u == [] then 0 else Below(w, u[0]) + PairsBelow(u[1..], w)
  }

  function Sum(s: seq<int>): int {
    if s == [] then 0 else s[0] + Sum(s[1..])
  }

  lemma {:induction false} BelowConcat(u: seq<int>, w: seq<int>, v: int)
    ensures Below(u + w, v) == Below(u, v) + Below(w, v)
  {
    if u == [] {
      assert u + w == w;
    } else {
      assert (u + w)[1..] == u[1..] + w;
      BelowConcat(u[1..], w, v);
    }
  }

  lemma {:induction false} BelowNext(s: seq<int>, v: int)
    ensures Below(s, v + 1) == Below(s, v) + Equal(s, v)
  {
    if s != [] { BelowNext(s[1..], v); }
  }

  lemma {:induction false} EqualNone(s: seq<int>, v: int)
    requires v !in s
    ensures Equal(s, v) == 0
  {
    if s != [] { EqualNone(s[1..], v); }
  }

  lemma {:induction false} EqualOnce(s: seq<int>, v: int)
    requires Distinct(s) && v in s
    ensures Equal(s, v) == 1
  {
    if s[0] == v {
      EqualNone(s[1..], v);
    } else {
      EqualOnce(s[1..], v);
    }
  }

  lemma {:induction false} BelowNone(s: seq<int>, v: int)
    requires forall i :: 0 <= i < |s| ==> v <= s[i]
    ensures Below(s, v) == 0
  {
    if s != [] { BelowNone(s[1..], v); }
  }

  function UpTo(n: nat): (all: set<int>)
    ensures |all| == n && forall i :: i in all <==> 0 <= i < n
  {
    if n == 0 then {} else UpTo(n - 1) + {n - 1}
  }

  lemma {:induction false} Elements(p: seq<int>)
    requires Distinct(p)
    ensures |set x | x in p| == |p|
  {
    if p == [] {
      assert (set x | x in p) == {};
    } else {
      Elements(p[1..]);
      assert (set x | x in p) == {p[0]} + set x | x in p[1..];
    }
  }

  lemma PermutationHits(p: seq<int>, n: nat, v: int)
    requires Permutes(p, n) && 0 <= v < n
    ensures v in p
  {
    Elements(p);
    var hit := set x | x in p;
    assert hit <= UpTo(n) && |UpTo(n) - hit| == 0;
    assert v in UpTo(n);
  }

  /** In a permutation, exactly v elements are below v. */
  lemma {:induction false} BelowInPermutation(p: seq<int>, n: nat, v: nat)
    requires Permutes(p, n) && v <= n
    ensures Below(p, v) == v
  {
    if v == 0 {
      BelowNone(p, 0);
    } else {
      BelowInPermutation(p, n, v - 1);
      BelowNext(p, v - 1);
      PermutationHits(p, n, v - 1);
      EqualOnce(p, v - 1);
    }
  }

  /** Argsort of an argsort undoes it: it takes each element to its place in the order. */
  lemma ArgsortTwiceIsInverse(order: seq<int>, ranks: seq<int>, k: nat)
    requires Permutes(order, |order|) && IsArgsort(Reals(order), ranks) && k < |order|
    ensures order[ranks[k]] == k
  {
    var n := |order|;
    var sorted := seq(n, i requires 0 <= i < n => order[ranks[i]]);
    forall i, l | 0 <= i < l < n ensures sorted[i] < sorted[l] {
      assert Reals(order)[ranks[i]] <= Reals(order)[ranks[l]];
      assert ranks[i] != ranks[l];
    }
    SortedPermutation(sorted, n, k);
  }

  lemma {:induction false} SortedPermutation(s: seq<int>, n: nat, k: nat)
    requires |s| == n && k < n && forall i :: 0 <= i < n ==> 0 <= s[i] < n
    requires forall i, l :: 0 <= i < l < n ==> s[i] < s[l]
    ensures s[k] == k
  {
    RisesFrom(s, k);
    FallsFrom(s, n, k);
  }

  lemma {:induction false} RisesFrom(s: seq<int>, k: nat)
    requires k < |s| && forall i :: 0 <= i < |s| ==> 0 <= s[i]
    requires forall i, l :: 0 <= i < l < |s| ==> s[i] < s[l]
    ensures k <= s[k]
  {
    if k > 0 {
      RisesFrom(s, k - 1);
      assert s[k - 1] < s[k];
    }
  }

  lemma {:induction false} FallsFrom(s: seq<int>, n: nat, k: nat)
    requires |s| == n && k < n && forall i :: 0 <= i < n ==> s[i] < n
    requires forall i, l :: 0 <= i < l < n ==> s[i] < s[l]
    ensures s[k] <= k
    decreases n - k
  {
    if k < n - 1 {
      FallsFrom(s, n, k + 1);
      assert s[k] < s[k + 1];
    }
  }

  /** Which of two elements argsort ranks higher. */
  lemma RanksFollowScores(x: seq<real>, order: seq<int>, ranks: seq<int>, i: nat, k: nat)
    requires IsArgsort(x, order) && IsArgsort(Reals(order), ranks) && i < |x| && k < |x|
    ensures ranks[k] < ranks[i] ==> x[k] <= x[i]
    ensures x[k] < x[i] ==> ranks[k] < ranks[i]
  {
    ArgsortTwiceIsInverse(order, ranks, i);
    ArgsortTwiceIsInverse(order, ranks, k);
    if ranks[i] < ranks[k] { assert x[order[ranks[i]]] <= x[order[ranks[k]]]; }
    if ranks[k] < ranks[i] { assert x[order[ranks[k]]] <= x[order[ranks[i]]]; }
  }

  // ------------------------------------------------------------------ the area under the curve

  /** The scores with label `v`. */
  function Select(scores: seq<real>, labels: seq<int>, v: int): seq<real>
    requires |labels| == |scores|
  {
    if scores == [] then []
    else (if labels[0] == v then [scores[0]] else []) + Select(scores[1..], labels[1..], v)
  }

  function OneBased(ranks: seq<int>): seq<int> {
    seq(|ranks|, i requires 0 <= i < |ranks| => ranks[i] + 1)
  }

  /** From the ranks of the positive scores followed by the negative ones; no value if either are missing. */
  function RocAuc(pos: seq<real>, neg: seq<real>, ranks: seq<int>): Option<real>
    requires |ranks| == |pos| + |neg|
  {
    if pos == [] || neg == [] then None
    else Some(Share(Sum(OneBased(ranks)[..|pos|]) as real - LeastSum(|pos|), |pos|, |neg|))
  }

  /** The sum of the ranks 1 to n. */
  function LeastSum(n: nat): real {
    n as real * (n as real + 1.0) / 2.0
  }

  /** A quantity as a fraction of the number of pairs. */
  function Share(pairs: real, m: nat, n: nat): real
    requires 0 < m && 0 < n
  {
    pairs / (m as real * n as real)
  }

  /** The reference: negative scores below `v`, and pairs in which the positive wins. */
  function Beaten(neg: seq<real>, v: real): nat {
    if neg == [] then 0 else (if neg[0] < v then 1 else 0) + Beaten(neg[1..], v)
  }

  function Wins(pos: seq<real>, neg: seq<real>): nat {
    if pos == [] then 0 else Beaten(neg, pos[0]) + Wins(pos[1..], neg)
  }

  lemma {:induction false} SumOneBased(ranks: seq<int>, n: nat)
    requires n <= |ranks|
    ensures Sum(OneBased(ranks)[..n]) == Sum(ranks[..n]) + n
  {
    if n > 0 {
      SumOneBased(ranks[1..], n - 1);
      assert OneBased(ranks)[..n][1..] == OneBased(ranks[1..])[..n - 1];
      assert ranks[..n][1..] == ranks[1..][..n - 1];
    }
  }

  lemma {:induction false} SumIsPairs(u: seq<int>, q: seq<int>)
    requires Permutes(q, |q|) && forall i :: 0 <= i < |u| ==> 0 <= u[i] < |q|
    ensures Sum(u) == PairsBelow(u, q)
  {
    if u != [] {
      BelowInPermutation(q, |q|, u[0]);
      SumIsPairs(u[1..], q);
    }
  }

  lemma {:induction false} PairsConcat(u: seq<int>, v: seq<int>, w: seq<int>)
    ensures PairsBelow(u, v + w) == PairsBelow(u, v) + PairsBelow(u, w)
  {
    if u != [] {
      BelowConcat(v, w, u[0]);
      PairsConcat(u[1..], v, w);
    }
  }

  lemma {:induction false} AgainstOne(u: seq<int>, x: int)
    requires x !in u
    ensures PairsBelow(u, [x]) + Below(u, x) == |u|
  {
    if u != [] {
      assert Below([x], u[0]) == if x < u[0] then 1 else 0 by { assert [x][1..] == []; }
      AgainstOne(u[1..], x);
    }
  }

  function Square(n: nat): nat {
    if n == 0 then 0 else Square(n - 1) + 2 * n - 1
  }

  lemma {:induction false} SquareIs(n: nat)
    ensures Square(n) == n * n
  {
    if n > 0 { SquareIs(n - 1); }
  }

  /** Among themselves n distinct elements make n (n - 1) / 2 such pairs. */
  lemma {:induction false} SelfPairs(u: seq<int>)
    requires Distinct(u)
    ensures 2 * PairsBelow(u, u) == Square(|u|) - |u|
  {
    if u != [] {
      var rest := u[1..];
      assert u == [u[0]] + rest;
      PairsConcat(rest, [u[0]], rest);
      AgainstOne(rest, u[0]);
      SelfPairs(rest);
    }
  }

  lemma RankSum(q: seq<int>, n: nat)
    requires Permutes(q, |q|) && n <= |q|
    ensures 2 * Sum(OneBased(q)[..n]) == 2 * PairsBelow(q[..n], q[n..]) + Square(n) + n
  {
    SumOneBased(q, n);
    SumIsPairs(q[..n], q);
    assert q == q[..n] + q[n..];
    PairsConcat(q[..n], q[..n], q[n..]);
    SelfPairs(q[..n]);
  }

  /** The correction of the rank formula, in the reals. */
  lemma RankFormula(sum: int, pairs: int, n: nat)
    requires 2 * sum == 2 * pairs + Square(n) + n
    ensures sum as real - LeastSum(n) == pairs as real
  {
    SquareIs(n);
    assert (n as real) * (n as real) == (n * n) as real;
    assert n as real * (n as real + 1.0) == (n * n + n) as real;
  }

  /** Whatever the scores: the rank formula is the share of pairs in which the sort put the positive
      after the negative. */
  lemma AucIsShareOfPairs(pos: seq<real>, neg: seq<real>, ranks: seq<int>)
    requires Permutes(ranks, |pos| + |neg|) && pos != [] && neg != []
    ensures RocAuc(pos, neg, ranks)
         == Some(Share(PairsBelow(ranks[..|pos|], ranks[|pos|..]) as real, |pos|, |neg|))
  {
    RankSum(ranks, |pos|);
    RankFormula(Sum(OneBased(ranks)[..|pos|]), PairsBelow(ranks[..|pos|], ranks[|pos|..]), |pos|);
  }

  // ------------------------------------------------------------------ pair counting

  /** The results the two sorts may give for positive scores followed by negative ones. */
  predicate RanksOf(pos: seq<real>, neg: seq<real>, order: seq<int>, ranks: seq<int>) {
    IsArgsort(pos + neg, order) && IsArgsort(Reals(order), ranks)
  }

  lemma {:induction false} BelowAtLeast(w: seq<int>, v: int, neg: seq<real>, t: real)
    requires |w| == |neg| && forall k :: 0 <= k < |w| ==> (neg[k] < t ==> w[k] < v)
    ensures Beaten(neg, t) <= Below(w, v)
    ensures Beaten(neg, t) == Below(w, v) <==> forall k :: 0 <= k < |w| ==> (w[k] < v ==> neg[k] < t)
  {
    if w != [] {
      BelowAtLeast(w[1..], v, neg[1..], t);
      if Beaten(neg, t) == Below(w, v) {
        forall k | 0 <= k < |w| ensures w[k] < v ==> neg[k] < t {
          if k > 0 { assert w[k] == w[1..][k - 1] && neg[k] == neg[1..][k - 1]; }
        }
      }
    }
  }

  ghost predicate Agree(u: seq<int>, w: seq<int>, pos: seq<real>, neg: seq<real>)
    requires |u| == |pos| && |w| == |neg|
  {
    forall i, k :: 0 <= i < |u| && 0 <= k < |w| ==> (w[k] < u[i] ==> neg[k] < pos[i])
  }

  lemma {:induction false} PairsAtLeast(u: seq<int>, w: seq<int>, pos: seq<real>, neg: seq<real>)
    requires |u| == |pos| && |w| == |neg|
    requires forall i, k :: 0 <= i < |u| && 0 <= k < |w| ==> (neg[k] < pos[i] ==> w[k] < u[i])
    ensures Wins(pos, neg) <= PairsBelow(u, w)
    ensures Wins(pos, neg) == PairsBelow(u, w) <==> Agree(u, w, pos, neg)
  {
    if u != [] {
      BelowAtLeast(w, u[0], neg, pos[0]);
      PairsAtLeast(u[1..], w, pos[1..], neg);
      if Wins(pos, neg) == PairsBelow(u, w) {
        forall i, k | 0 <= i < |u| && 0 <= k < |w| ensures w[k] < u[i] ==> neg[k] < pos[i] {
          if i > 0 { assert u[i] == u[1..][i - 1] && pos[i] == pos[1..][i - 1]; }
        }
      }
      if Agree(u, w, pos, neg) { assert Agree(u[1..], w, pos[1..], neg); }
    }
  }

  lemma RanksAgainstScores(pos: seq<real>, neg: seq<real>, order: seq<int>, ranks: seq<int>, i: nat, k: nat)
    requires RanksOf(pos, neg, order, ranks) && i < |pos| && k < |neg|
    ensures var above, under := ranks[i], ranks[|pos| + k];
            && (under < above ==> neg[k] <= pos[i])
            && (neg[k] < pos[i] ==> under < above)
            && ranks[..|pos|][i] == above && ranks[|pos|..][k] == under
  {
    assert (pos + neg)[i] == pos[i] && (pos + neg)[|pos| + k] == neg[k];
    RanksFollowScores(pos + neg, order, ranks, i, |pos| + k);
  }

  /** The sort put a negative before a positive of the same score. */
  ghost predicate TieLost(pos: seq<real>, neg: seq<real>, ranks: seq<int>)
    requires |ranks| == |pos| + |neg|
  {
    exists i, k :: 0 <= i < |pos| && 0 <= k < |neg| && pos[i] == neg[k] && ranks[|pos| + k] < ranks[i]
  }

  lemma CrossPairs(pos: seq<real>, neg: seq<real>, order: seq<int>, ranks: seq<int>)
    requires RanksOf(pos, neg, order, ranks)
    ensures Wins(pos, neg) <= PairsBelow(ranks[..|pos|], ranks[|pos|..])
    ensures Wins(pos, neg) == PairsBelow(ranks[..|pos|], ranks[|pos|..]) <==> !TieLost(pos, neg, ranks)
  {
    var u, w := ranks[..|pos|], ranks[|pos|..];
    forall i, k | 0 <= i < |u| && 0 <= k < |w| ensures neg[k] < pos[i] ==> w[k] < u[i] {
      RanksAgainstScores(pos, neg, order, ranks, i, k);
    }
    PairsAtLeast(u, w, pos, neg);
    if Agree(u, w, pos, neg) {
      forall i, k | 0 <= i < |pos| && 0 <= k < |neg| && pos[i] == neg[k] ensures !(ranks[|pos| + k] < ranks[i]) {
        RanksAgainstScores(pos, neg, order, ranks, i, k);
      }
    }
    if !TieLost(pos, neg, ranks) {
      forall i, k | 0 <= i < |u| && 0 <= k < |w| ensures w[k] < u[i] ==> neg[k] < pos[i] {
        RanksAgainstScores(pos, neg, order, ranks, i, k);
      }
    }
  }

  lemma Product(m: nat, n: nat)
    requires 0 < m && 0 < n
    ensures m as real * n as real == (m * n) as real > 0.0
  {
  }

  lemma ShareTimes(a: nat, d: real)
    requires d > 0.0
    ensures (a as real / d) * d == a as real
  {
  }

  lemma ShareOrder(a: nat, b: nat, m: nat, n: nat)
    requires 0 < m && 0 < n
    ensures Share(a as real, m, n) == Share(b as real, m, n) <==> a == b
    ensures a <= b ==> Share(a as real, m, n) <= Share(b as real, m, n)
  {
    Product(m, n);
    var d := m as real * n as real;
    ShareTimes(a, d);
    ShareTimes(b, d);
    if a <= b && Share(a as real, m, n) > Share(b as real, m, n) {
      Scaled(Share(b as real, m, n), Share(a as real, m, n), d);
    }
  }

  lemma ShareOne(a: nat, m: nat, n: nat)
    requires 0 < m && 0 < n
    ensures Share(a as real, m, n) == 1.0 <==> a == m * n
  {
    Product(m, n);
    Whole(a as real, m as real * n as real);
  }

  lemma Whole(x: real, d: real)
    requires d > 0.0
    ensures x / d == 1.0 <==> x == d
  {
  }

  lemma Scaled(x: real, y: real, d: real)
    requires x < y && d > 0.0
    ensures x * d < y * d
  {
  }

  /** The rank formula never falls short of pair counting, and meets it exactly when the sort lost
      no tie between a positive and a negative. */
  lemma AucAgainstPairCounting(pos: seq<real>, neg: seq<real>, order: seq<int>, ranks: seq<int>)
    requires RanksOf(pos, neg, order, ranks) && pos != [] && neg != []
    ensures RocAuc(pos, neg, ranks).Some?
    ensures Share(Wins(pos, neg) as real, |pos|, |neg|) <= RocAuc(pos, neg, ranks).value
    ensures RocAuc(pos, neg, ranks).value == Share(Wins(pos, neg) as real, |pos|, |neg|) <==> !TieLost(pos, neg, ranks)
  {
    AucIsShareOfPairs(pos, neg, ranks);
    CrossPairs(pos, neg, order, ranks);
    ShareOrder(Wins(pos, neg), PairsBelow(ranks[..|pos|], ranks[|pos|..]), |pos|, |neg|);
  }

  // ------------------------------------------------------------------ ties

  /** Order by score, then by the given preference. */
  predicate AtMostBy(s: seq<real>, prefer: seq<int>, i: int, k: int)
    requires |prefer| == |s| && 0 <= i < |s| && 0 <= k < |s|
  {
    s[i] < s[k] || (s[i] == s[k] && prefer[i] <= prefer[k])
  }

  predicate SortedBy(s: seq<real>, prefer: seq<int>, p: seq<int>)
    requires |prefer| == |s| && forall i :: 0 <= i < |p| ==> 0 <= p[i] < |s|
  {
    forall i, k :: 0 <= i < k < |p| ==> AtMostBy(s, prefer, p[i], p[k])
  }

  /** Where to insert index n among those before it. */
  lemma Slot(s: seq<real>, prefer: seq<int>, p: seq<int>, n: nat) returns (m: nat)
    requires |prefer| == |s| && n < |s| && Permutes(p, n) && SortedBy(s, prefer, p)
    ensures m <= n
    ensures forall i :: 0 <= i < m ==> AtMostBy(s, prefer, p[i], n)
    ensures forall i :: m <= i < n ==> AtMostBy(s, prefer, n, p[i])
  {
    m := 0;
    while m < n && AtMostBy(s, prefer, p[m], n)
      invariant 0 <= m <= n
      invariant forall i :: 0 <= i < m ==> AtMostBy(s, prefer, p[i], n)
    {
      m := m + 1;
    }
    forall i | m <= i < n ensures AtMostBy(s, prefer, n, p[i]) {
      if m < i { assert AtMostBy(s, prefer, p[m], p[i]); }
    }
  }

  /** A sort by score exists for every way to prefer one of two equal scores. */
  lemma {:induction false} SortExists(s: seq<real>, prefer: seq<int>, n: nat) returns (p: seq<int>)
    requires |prefer| == |s| && n <= |s|
    ensures Permutes(p, n) && SortedBy(s, prefer, p)
  {
    if n == 0 {
      p := [];
    } else {
      var q := SortExists(s, prefer, n - 1);
      var m := Slot(s, prefer, q, n - 1);
      InsertPermutes(q, n - 1, m);
      p := q[..m] + [n - 1] + q[m..];
    }
  }

  lemma InsertPermutes(q: seq<int>, n: nat, m: nat)
    requires Permutes(q, n) && m <= n
    ensures Permutes(q[..m] + [n] + q[m..], n + 1)
  {
  }

  lemma RanksExist(pos: seq<real>, neg: seq<real>, prefer: seq<int>) returns (order: seq<int>, ranks: seq<int>)
    requires |prefer| == |pos| + |neg|
    ensures RanksOf(pos, neg, order, ranks) && SortedBy(pos + neg, prefer, order)
  {
    var x := pos + neg;
    order := SortExists(x, prefer, |x|);
    forall i, k | 0 <= i < k < |x| ensures x[order[i]] <= x[order[k]] {
      assert AtMostBy(x, prefer, order[i], order[k]);
    }
    var y := Reals(order);
    ranks := SortExists(y, prefer, |y|);
    forall i, k | 0 <= i < k < |y| ensures y[ranks[i]] <= y[ranks[k]] {
      assert AtMostBy(y, prefer, ranks[i], ranks[k]);
    }
  }

  predicate Tied(pos: seq<real>, neg: seq<real>) {
    exists i, k :: 0 <= i < |pos| && 0 <= k < |neg| && pos[i] == neg[k]
  }

  /** Negatives first among equal scores. */
  function NegativesFirst(m: nat, n: nat): seq<int>
    requires m <= n
  {
    seq(n, i requires 0 <= i < n => if i < m then 1 else 0)
  }

  /** If a positive ties with a negative, some sort loses the tie. */
  lemma SomeSortLoses(pos: seq<real>, neg: seq<real>) returns (order: seq<int>, ranks: seq<int>)
    requires Tied(pos, neg)
    ensures RanksOf(pos, neg, order, ranks) && TieLost(pos, neg, ranks)
  {
    order, ranks := RanksExist(pos, neg, NegativesFirst(|pos|, |pos| + |neg|));
    var i, k :| 0 <= i < |pos| && 0 <= k < |neg| && pos[i] == neg[k];
    LosesTie(pos, neg, order, ranks, i, k);
  }

  lemma LosesTie(pos: seq<real>, neg: seq<real>, order: seq<int>, ranks: seq<int>, i: nat, k: nat)
    requires RanksOf(pos, neg, order, ranks) && SortedBy(pos + neg, NegativesFirst(|pos|, |pos| + |neg|), order)
    requires i < |pos| && k < |neg| && pos[i] == neg[k]
    ensures ranks[|pos| + k] < ranks[i]
  {
    PreferenceDecides(pos + neg, NegativesFirst(|pos|, |pos| + |neg|), order, ranks, i, |pos| + k);
  }

  lemma PreferenceDecides(x: seq<real>, prefer: seq<int>, order: seq<int>, ranks: seq<int>, i: nat, k: nat)
    requires |prefer| == |x| && Permutes(order, |x|) && SortedBy(x, prefer, order) && IsArgsort(Reals(order), ranks)
    requires i < |x| && k < |x| && i != k
    ensures ranks[i] < ranks[k] ==> AtMostBy(x, prefer, i, k)
    ensures ranks[i] != ranks[k]
  {
    ArgsortTwiceIsInverse(order, ranks, i);
    ArgsortTwiceIsInverse(order, ranks, k);
    if ranks[i] < ranks[k] { assert AtMostBy(x, prefer, order[ranks[i]], order[ranks[k]]); }
  }

  /** The rank formula is pair counting, whatever the sort makes of equal scores, exactly when no
      positive ties with a negative. */
  lemma AucCountsPairsExactly(pos: seq<real>, neg: seq<real>)
    requires pos != [] && neg != []
    ensures (forall order, ranks :: RanksOf(pos, neg, order, ranks) ==>
               RocAuc(pos, neg, ranks) == Some(Share(Wins(pos, neg) as real, |pos|, |neg|)))
       <==> !Tied(pos, neg)
  {
    forall order, ranks | RanksOf(pos, neg, order, ranks) && !Tied(pos, neg)
      ensures RocAuc(pos, neg, ranks) == Some(Share(Wins(pos, neg) as real, |pos|, |neg|))
    {
      AucAgainstPairCounting(pos, neg, order, ranks);
    }
    if Tied(pos, neg) {
      var order, ranks := SomeSortLoses(pos, neg);
      AucAgainstPairCounting(pos, neg, order, ranks);
    }
  }
}
