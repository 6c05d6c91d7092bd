/** Average precision, and what it agrees on with the area under the curve. */
module Precision {
  import opened Model
  import opened Ranking

  /** The labels in the order of the scores. */
  function Picked(labels: seq<int>, order: seq<int>): seq<int>
    requires Permutes(order, |labels|)
  {
    seq(|order|, k requires 0 <= k < |order| => labels[order[k]])
  }

  /** The share of positives among the first k + 1. */
  function PrecisionAt(lab: seq<int>, k: nat): real
    requires k < |lab|
  {
    Sum(lab[..k + 1]) as real / (k + 1) as real
  }

  function Weighted(lab: seq<int>, n: nat): real
    requires n <= |lab|
  {
    if n == 0 then 0.0 else Weighted(lab, n - 1) + PrecisionAt(lab, n - 1) * lab[n - 1] as real
  }

  /** The mean of the precision at every positive; no value if there is none. */
  function AveragePrecision(lab: seq<int>): Option<real> {
    if Sum(lab) == 0 then None else Some(Weighted(lab, |lab|) / Sum(lab) as real)
  }

  predicate Binary(labels: seq<int>) {
    forall i :: 0 <= i < |labels| ==> labels[i] == 0 || labels[i] == 1
  }

  /** Among the first n, the positives come before the negatives. */
  predicate PositivesFirst(lab: seq<int>, n: nat)
    requires n <= |lab|
  {
    forall i, k :: 0 <= i < k < n && lab[k] == 1 ==> lab[i] == 1
  }

  lemma {:induction false} SumNext(s: seq<int>, n: nat)
    requires n < |s|
    ensures Sum(s[..n + 1]) == Sum(s[..n]) + s[n]
  {
    if n == 0 {
      assert s[..1][1..] == [];
    } else {
      SumNext(s[1..], n - 1);
      assert s[..n + 1][1..] == s[1..][..n];
      assert s[..n][1..] == s[1..][..n - 1];
    }
  }

  lemma {:induction false} SumOfOnes(lab: seq<int>, n: nat)
    requires Binary(lab) && n <= |lab|
    ensures 0 <= Sum(lab[..n]) <= n
    ensures Sum(lab[..n]) == n <==> forall i :: 0 <= i < n ==> lab[i] == 1
    ensures Sum(lab[..n]) == 0 <==> forall i :: 0 <= i < n ==> lab[i] == 0
  {
    if n > 0 {
      SumNext(lab, n - 1);
      SumOfOnes(lab, n - 1);
    }
  }

  lemma Quotient(a: nat, b: nat)
    requires a <= b && 0 < b
    ensures 0.0 <= a as real / b as real <= 1.0
    ensures a as real / b as real == 1.0 <==> a == b
    ensures 0 < a ==> 0.0 < a as real / b as real
  {
  }

  /** The weighted sum is at most the number of positives, and all of it exactly when they come first. */
  lemma {:induction false} WeightedBound(lab: seq<int>, n: nat)
    requires Binary(lab) && n <= |lab|
    ensures Weighted(lab, n) <= Sum(lab[..n]) as real
    ensures Weighted(lab, n) == Sum(lab[..n]) as real <==> PositivesFirst(lab, n)
    ensures 0.0 <= Weighted(lab, n) && (0 < Sum(lab[..n]) ==> 0.0 < Weighted(lab, n))
  {
    if n > 0 {
      WeightedBound(lab, n - 1);
      SumNext(lab, n - 1);
      SumOfOnes(lab, n);
      SumOfOnes(lab, n - 1);
      Quotient(Sum(lab[..n]), n);
      WeightedNext(lab, n);
    }
  }

  lemma WeightedNext(lab: seq<int>, n: nat)
    requires Binary(lab) && 0 < n <= |lab|
    ensures Weighted(lab, n) == Weighted(lab, n - 1) + if lab[n - 1] == 1 then PrecisionAt(lab, n - 1) else 0.0
    ensures PositivesFirst(lab, n) <==>
            PositivesFirst(lab, n - 1) && (lab[n - 1] == 1 ==> forall i :: 0 <= i < n ==> lab[i] == 1)
  {
  }

  /** Average precision lies in (0, 1], and is 1 exactly when the positives come first. */
  lemma AveragePrecisionBounds(lab: seq<int>)
    requires Binary(lab)
    ensures AveragePrecision(lab).None? <==> forall i :: 0 <= i < |lab| ==> lab[i] == 0
    ensures AveragePrecision(lab).Some? ==> 0.0 < AveragePrecision(lab).value <= 1.0
    ensures AveragePrecision(lab) == Some(1.0) <==> AveragePrecision(lab).Some? && PositivesFirst(lab, |lab|)
  {
    assert lab[..|lab|] == lab;
    SumOfOnes(lab, |lab|);
    WeightedBound(lab, |lab|);
    if Sum(lab) != 0 { Ratio(Weighted(lab, |lab|), Sum(lab) as real); }
  }

  lemma Ratio(x: real, d: real)
    requires 0.0 < x <= d
    ensures 0.0 < x / d <= 1.0 && (x / d == 1.0 <==> x == d)
  {
  }

  // ------------------------------------------------------------------ a perfect ranking

  /** Every positive outscores every negative. */
  predicate Separated(scores: seq<real>, labels: seq<int>)
    requires |labels| == |scores|
  {
    forall i, k :: 0 <= i < |scores| && 0 <= k < |scores| && labels[i] == 1 && labels[k] == 0 ==> scores[k] < scores[i]
  }

  lemma PrecisionOneIffSeparated(scores: seq<real>, labels: seq<int>, order: seq<int>)
    requires |labels| == |scores| && Binary(labels) && Distinct(scores) && IsArgsortDescending(scores, order)
    ensures PositivesFirst(Picked(labels, order), |scores|) <==> Separated(scores, labels)
  {
    var lab := Picked(labels, order);
    if PositivesFirst(lab, |scores|) {
      forall i, k | 0 <= i < |scores| && 0 <= k < |scores| && labels[i] == 1 && labels[k] == 0
        ensures scores[k] < scores[i]
      {
        PermutationHits(order, |scores|, i);
        PermutationHits(order, |scores|, k);
        var x, y :| 0 <= x < |order| && 0 <= y < |order| && order[x] == i && order[y] == k;
        assert lab[x] == 1 && lab[y] == 0;
        assert scores[order[y]] <= scores[order[x]];
      }
    }
    if Separated(scores, labels) {
      forall i, k | 0 <= i < k < |scores| && lab[k] == 1 ensures lab[i] == 1 {
        assert scores[order[k]] <= scores[order[i]];
      }
    }
  }

  lemma {:induction false} Selected(scores: seq<real>, labels: seq<int>, v: int, x: real)
    requires |labels| == |scores|
    ensures x in Select(scores, labels, v) <==> exists i :: 0 <= i < |scores| && labels[i] == v && scores[i] == x
  {
    if scores != [] {
      Selected(scores[1..], labels[1..], v, x);
      if i :| 0 <= i < |scores| && labels[i] == v && scores[i] == x {
        if i > 0 { assert labels[1..][i - 1] == v && scores[1..][i - 1] == x; }
      }
      if x in Select(scores[1..], labels[1..], v) {
        var i :| 0 <= i < |scores[1..]| && labels[1..][i] == v && scores[1..][i] == x;
        assert labels[i + 1] == v && scores[i + 1] == x;
      }
    }
  }

  lemma {:induction false} BeatenAll(neg: seq<real>, v: real)
    ensures Beaten(neg, v) <= |neg|
    ensures Beaten(neg, v) == |neg| <==> forall k :: 0 <= k < |neg| ==> neg[k] < v
  {
    if neg != [] {
      BeatenAll(neg[1..], v);
      assert (forall k :: 0 <= k < |neg| ==> neg[k] < v) <==> neg[0] < v && forall k :: 0 <= k < |neg[1..]| ==> neg[1..][k] < v by {
        if neg[0] < v && forall k :: 0 <= k < |neg[1..]| ==> neg[1..][k] < v {
          forall k | 0 <= k < |neg| ensures neg[k] < v {
            if k > 0 { assert neg[k] == neg[1..][k - 1]; }
          }
        }
      }
    }
  }

  predicate AllBeat(pos: seq<real>, neg: seq<real>) {
    forall x, y :: x in pos && y in neg ==> y < x
  }

  lemma {:induction false} WinsAll(pos: seq<real>, neg: seq<real>)
    ensures Wins(pos, neg) <= |pos| * |neg|
    ensures Wins(pos, neg) == |pos| * |neg| <==> AllBeat(pos, neg)
  {
    if pos != [] {
      BeatenAll(neg, pos[0]);
      WinsAll(pos[1..], neg);
      OneMore(|pos[1..]|, |neg|);
      AllBeatFirst(pos, neg);
    }
  }

  lemma OneMore(m: nat, n: nat)
    ensures (m + 1) * n == n + m * n
  {
  }

  lemma AllBeatFirst(pos: seq<real>, neg: seq<real>)
    requires pos != []
    ensures AllBeat(pos, neg) <==> AllBeat(pos[1..], neg) && forall k :: 0 <= k < |neg| ==> neg[k] < pos[0]
  {
    assert pos == [pos[0]] + pos[1..];
    if AllBeat(pos, neg) {
      forall k | 0 <= k < |neg| ensures neg[k] < pos[0] { assert pos[0] in pos && neg[k] in neg; }
      forall x, y | x in pos[1..] && y in neg ensures y < x { assert x in pos; }
    }
  }

  lemma SelectionsSeparated(scores: seq<real>, labels: seq<int>)
    requires |labels| == |scores|
    ensures AllBeat(Select(scores, labels, 1), Select(scores, labels, 0)) <==> Separated(scores, labels)
  {
    forall x ensures x in Select(scores, labels, 1) <==> exists i :: 0 <= i < |scores| && labels[i] == 1 && scores[i] == x {
      Selected(scores, labels, 1, x);
    }
    forall x ensures x in Select(scores, labels, 0) <==> exists i :: 0 <= i < |scores| && labels[i] == 0 && scores[i] == x {
      Selected(scores, labels, 0, x);
    }
    if AllBeat(Select(scores, labels, 1), Select(scores, labels, 0)) {
      forall i, k | 0 <= i < |scores| && 0 <= k < |scores| && labels[i] == 1 && labels[k] == 0 ensures scores[k] < scores[i] {
        assert scores[i] in Select(scores, labels, 1) && scores[k] in Select(scores, labels, 0);
      }
    }
  }

  lemma DistinctNotTied(scores: seq<real>, labels: seq<int>)
    requires |labels| == |scores| && Distinct(scores)
    ensures !Tied(Select(scores, labels, 1), Select(scores, labels, 0))
  {
    var pos, neg := Select(scores, labels, 1), Select(scores, labels, 0);
    forall i, k | 0 <= i < |pos| && 0 <= k < |neg| ensures pos[i] != neg[k] {
      Selected(scores, labels, 1, pos[i]);
      Selected(scores, labels, 0, neg[k]);
    }
  }

  /** For distinct scores: average precision is 1 exactly when the area under the curve is 1, which
      is exactly when every positive outscores every negative. */
  lemma PerfectRanking(scores: seq<real>, labels: seq<int>, order: seq<int>, ranks: seq<int>, descending: seq<int>)
    requires |labels| == |scores| && Binary(labels) && Distinct(scores) && 0 in labels && 1 in labels
    requires RanksOf(Select(scores, labels, 1), Select(scores, labels, 0), order, ranks)
    requires IsArgsortDescending(scores, descending)
    ensures RocAuc(Select(scores, labels, 1), Select(scores, labels, 0), ranks) == Some(1.0) <==> Separated(scores, labels)
    ensures AveragePrecision(Picked(labels, descending)) == Some(1.0) <==> Separated(scores, labels)
    ensures AveragePrecision(Picked(labels, descending)).Some?
            && 0.0 < AveragePrecision(Picked(labels, descending)).value <= 1.0
  {
    AucOne(scores, labels, order, ranks);
    PrecisionOneIffSeparated(scores, labels, descending);
    AveragePrecisionBounds(Picked(labels, descending));
    var i :| 0 <= i < |labels| && labels[i] == 1;
    PermutationHits(descending, |scores|, i);
    var k :| 0 <= k < |descending| && descending[k] == i;
    assert Picked(labels, descending)[k] == 1;
  }

  lemma AucOne(scores: seq<real>, labels: seq<int>, order: seq<int>, ranks: seq<int>)
    requires |labels| == |scores| && Distinct(scores) && 0 in labels && 1 in labels
    requires RanksOf(Select(scores, labels, 1), Select(scores, labels, 0), order, ranks)
    ensures RocAuc(Select(scores, labels, 1), Select(scores, labels, 0), ranks) == Some(1.0) <==> Separated(scores, labels)
  {
    var pos, neg := Select(scores, labels, 1), Select(scores, labels, 0);
    var i :| 0 <= i < |labels| && labels[i] == 1;
    Selected(scores, labels, 1, scores[i]);
    var k :| 0 <= k < |labels| && labels[k] == 0;
    Selected(scores, labels, 0, scores[k]);
    DistinctNotTied(scores, labels);
    AucAgainstPairCounting(pos, neg, order, ranks);
    ShareOne(Wins(pos, neg), |pos|, |neg|);
    WinsAll(pos, neg);
    SelectionsSeparated(scores, labels);
  }

  // ------------------------------------------------------------------ the value

  /** The items that score at least as high as item i, and the positive ones among them. */
  function AtLeast(scores: seq<real>, i: int): set<int>
    requires 0 <= i < |scores|
  {
    set k | 0 <= k < |scores| && scores[i] <= scores[k]
  }

  function Positives(labels: seq<int>, s: set<int>): set<int> {
    set k | k in s && 0 <= k < |labels| && labels[k] == 1
  }

  /** How precise a cut at item i is, if the item is positive. */
  function CutAt(scores: seq<real>, labels: seq<int>, i: int): real
    requires |labels| == |scores|
  {
    if 0 <= i < |scores| && labels[i] == 1 && |AtLeast(scores, i)| > 0
    then |Positives(labels, AtLeast(scores, i))| as real / |AtLeast(scores, i)| as real
    else 0.0
  }

  lemma SomeItem(s: set<int>)
    requires s != {}
    ensures exists i :: i in s
  {
    if forall i :: i !in s { assert false; }
  }

  /** The sum over a set of items, whatever their order. */
  ghost function CutsOver(scores: seq<real>, labels: seq<int>, s: set<int>): real
    requires |labels| == |scores|
    decreases |s|
  {
    if s == {} then 0.0
    else
      SomeItem(s);
      var i :| i in s;
      CutAt(scores, labels, i) + CutsOver(scores, labels, s - {i})
  }

  lemma {:induction false} CutsWithout(scores: seq<real>, labels: seq<int>, s: set<int>, x: int)
    requires |labels| == |scores| && x in s
    ensures CutsOver(scores, labels, s) == CutAt(scores, labels, x) + CutsOver(scores, labels, s - {x})
    decreases |s|
  {
    var i :| i in s && CutsOver(scores, labels, s) == CutAt(scores, labels, i) + CutsOver(scores, labels, s - {i});
    if i != x {
      CutsWithout(scores, labels, s - {i}, x);
      CutsWithout(scores, labels, s - {x}, i);
      assert s - {i} - {x} == s - {x} - {i};
    }
  }

  /** The first n items of an order. */
  function FirstItems(order: seq<int>, n: nat): set<int>
    requires n <= |order|
  {
    if n == 0 then {} else FirstItems(order, n - 1) + {order[n - 1]}
  }

  lemma {:induction false} FirstItemsAre(order: seq<int>, n: nat, x: int)
    requires n <= |order|
    ensures x in FirstItems(order, n) <==> exists k :: 0 <= k < n && order[k] == x
  {
    if n > 0 { FirstItemsAre(order, n - 1, x); }
  }

  lemma NewItem(order: seq<int>, n: nat)
    requires n < |order| && Distinct(order)
    ensures order[n] !in FirstItems(order, n)
  {
    FirstItemsAre(order, n, order[n]);
  }

  /** The first n + 1 of a descending order are those that score at least as high as the last of them. */
  lemma FirstAreHighest(scores: seq<real>, order: seq<int>, n: nat)
    requires IsArgsortDescending(scores, order) && Distinct(scores) && n < |order|
    ensures FirstItems(order, n + 1) == AtLeast(scores, order[n])
  {
    forall x ensures x in FirstItems(order, n + 1) <==> x in AtLeast(scores, order[n]) {
      FirstItemsAre(order, n + 1, x);
      if x in FirstItems(order, n + 1) {
        var k :| 0 <= k < n + 1 && order[k] == x;
        if k < n { assert scores[order[n]] <= scores[order[k]]; }
      } else if x in AtLeast(scores, order[n]) {
        PermutationHits(order, |scores|, x);
      }
    }
  }

  lemma {:induction false} PositivesCounted(labels: seq<int>, order: seq<int>, n: nat)
    requires Binary(labels) && Permutes(order, |labels|) && n <= |order|
    ensures |FirstItems(order, n)| == n
    ensures |Positives(labels, FirstItems(order, n))| == Sum(Picked(labels, order)[..n])
  {
    if n == 0 {
      assert Positives(labels, FirstItems(order, 0)) == {};
    } else {
      PositivesCounted(labels, order, n - 1);
      NewItem(order, n - 1);
      SumNext(Picked(labels, order), n - 1);
      OneMoreItem(labels, FirstItems(order, n - 1), order[n - 1]);
    }
  }

  lemma OneMoreItem(labels: seq<int>, before: set<int>, x: int)
    requires x !in before && 0 <= x < |labels|
    ensures |before + {x}| == |before| + 1
    ensures |Positives(labels, before + {x})| == |Positives(labels, before)| + if labels[x] == 1 then 1 else 0
  {
    if labels[x] == 1 {
      assert Positives(labels, before + {x}) == Positives(labels, before) + {x};
    } else {
      assert Positives(labels, before + {x}) == Positives(labels, before);
    }
  }

  lemma CutIsPrecision(scores: seq<real>, labels: seq<int>, order: seq<int>, n: nat)
    requires |labels| == |scores| && Binary(labels) && Distinct(scores) && IsArgsortDescending(scores, order) && n < |order|
    ensures CutAt(scores, labels, order[n]) == if labels[order[n]] == 1 then PrecisionAt(Picked(labels, order), n) else 0.0
  {
    FirstAreHighest(scores, order, n);
    PositivesCounted(labels, order, n + 1);
  }

  lemma CutsNext(scores: seq<real>, labels: seq<int>, order: seq<int>, n: nat)
    requires |labels| == |scores| && n < |order| && Distinct(order)
    ensures CutsOver(scores, labels, FirstItems(order, n + 1))
         == CutAt(scores, labels, order[n]) + CutsOver(scores, labels, FirstItems(order, n))
  {
    NewItem(order, n);
    CutsWithout(scores, labels, FirstItems(order, n + 1), order[n]);
    assert FirstItems(order, n + 1) - {order[n]} == FirstItems(order, n);
  }

  lemma {:induction false} WeightedIsCuts(scores: seq<real>, labels: seq<int>, order: seq<int>, n: nat)
    requires |labels| == |scores| && Binary(labels) && Distinct(scores) && IsArgsortDescending(scores, order) && n <= |order|
    ensures Weighted(Picked(labels, order), n) == CutsOver(scores, labels, FirstItems(order, n))
  {
    if n > 0 {
      WeightedIsCuts(scores, labels, order, n - 1);
      CutsNext(scores, labels, order, n - 1);
      CutIsPrecision(scores, labels, order, n - 1);
      WeightedNext(Picked(labels, order), n);
    }
  }

  /** For distinct scores and every descending sort, average precision is the mean over the positives
      of the share of positives among those that score at least as high. */
  lemma AveragePrecisionIsMean(scores: seq<real>, labels: seq<int>, order: seq<int>)
    requires |labels| == |scores| && Binary(labels) && Distinct(scores) && IsArgsortDescending(scores, order)
    requires 1 in labels
    ensures var all := UpTo(|scores|);
            && |Positives(labels, all)| > 0
            && AveragePrecision(Picked(labels, order))
               == Some(CutsOver(scores, labels, all) / |Positives(labels, all)| as real)
  {
    var n, lab := |scores|, Picked(labels, order);
    AllItems(order, n);
    assert lab[..n] == lab;
    PositivesCounted(labels, order, n);
    WeightedIsCuts(scores, labels, order, n);
    SomePositive(labels);
  }

  lemma SomePositive(labels: seq<int>)
    requires 1 in labels
    ensures |Positives(labels, UpTo(|labels|))| > 0
  {
    var i :| 0 <= i < |labels| && labels[i] == 1;
    assert i in Positives(labels, UpTo(|labels|));
  }

  lemma AllItems(order: seq<int>, n: nat)
    requires Permutes(order, n)
    ensures FirstItems(order, n) == UpTo(n)
  {
    forall x ensures x in FirstItems(order, n) <==> x in UpTo(n) {
      FirstItemsAre(order, n, x);
      if x in UpTo(n) { PermutationHits(order, n, x); }
    }
  }
}
