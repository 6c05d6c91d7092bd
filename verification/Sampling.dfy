/** Sampling negative pairs for the study: rejection sampling with early exit. */
module Sampling {

  type Pair = (int, int)

  /** For a relation of a type with itself an edge has no direction. */
  function Canonical(e: Pair, selfRelation: bool): Pair {
    if selfRelation && e.1 < e.0 then (e.1, e.0) else e
  }

  function PositiveSet(edges: seq<Pair>, selfRelation: bool): set<Pair> {
    set e | e in edges :: Canonical(e, selfRelation)
  }

  predicate Negative(e: Pair, positives: set<Pair>, selfRelation: bool) {
    !(selfRelation && e.0 == e.1) && Canonical(e, selfRelation) !in positives
  }

  /** The draws that are negative pairs, in the order drawn. */
  function Kept(draws: seq<Pair>, positives: set<Pair>, selfRelation: bool): seq<Pair> {
    if draws == [] then []
    else (if Negative(draws[0], positives, selfRelation) then [draws[0]] else []) + Kept(draws[1..], positives, selfRelation)
  }

  /** All the draws of the given rounds, one after another. */
  function Joined(rounds: seq<seq<Pair>>): seq<Pair> {
    if rounds == [] then [] else Joined(rounds[..|rounds| - 1]) + rounds[|rounds| - 1]
  }

  function FirstOf<T>(s: seq<T>, k: nat): seq<T> {
    if |s| <= k then s else s[..k]
  }

  function Zipped(a: seq<int>, b: seq<int>): seq<Pair>
    requires |a| == |b|
  {
    seq(|a|, i requires 0 <= i < |a| => (a[i], b[i]))
  }

  lemma {:induction false} KeptConcat(u: seq<Pair>, v: seq<Pair>, positives: set<Pair>, selfRelation: bool)
    ensures Kept(u + v, positives, selfRelation) == Kept(u, positives, selfRelation) + Kept(v, positives, selfRelation)
  {
    if u == [] {
      assert u + v == v;
    } else {
      assert (u + v)[1..] == u[1..] + v;
      KeptConcat(u[1..], v, positives, selfRelation);
    }
  }

  lemma KeptNext(u: seq<Pair>, round: seq<Pair>, j: nat, positives: set<Pair>, selfRelation: bool)
    requires j < |round|
    ensures Kept(u + round[..j + 1], positives, selfRelation)
         == Kept(u + round[..j], positives, selfRelation)
            + if Negative(round[j], positives, selfRelation) then [round[j]] else []
  {
    assert u + round[..j + 1] == u + round[..j] + [round[j]];
    KeptConcat(u + round[..j], [round[j]], positives, selfRelation);
    assert [round[j]][1..] == [];
  }

  lemma {:induction false} JoinedPrefix(rounds: seq<seq<Pair>>, r: nat)
    requires r <= |rounds|
    ensures Joined(rounds[..r]) <= Joined(rounds)
  {
    if r == |rounds| {
      assert rounds[..r] == rounds;
    } else {
      JoinedPrefix(rounds[..|rounds| - 1], r);
      assert rounds[..|rounds| - 1][..r] == rounds[..r];
    }
  }

  /** Once k are kept, what comes later does not change the first k. */
  lemma EnoughKept(draws: seq<Pair>, all: seq<Pair>, k: nat, positives: set<Pair>, selfRelation: bool)
    requires draws <= all && |Kept(draws, positives, selfRelation)| == k
    ensures FirstOf(Kept(all, positives, selfRelation), k) == Kept(draws, positives, selfRelation)
  {
    assert all == draws + all[|draws|..];
    KeptConcat(draws, all[|draws|..], positives, selfRelation);
  }

  /** One round's draws in pool values. */
  function Values(sources: seq<int>, targets: seq<int>, round: seq<(nat, nat)>): seq<Pair>
    requires forall i :: 0 <= i < |round| ==> round[i].0 < |sources| && round[i].1 < |targets|
  {
    seq(|round|, i requires 0 <= i < |round| => (sources[round[i].0], targets[round[i].1]))
  }

  function AllValues(sources: seq<int>, targets: seq<int>, rounds: seq<seq<(nat, nat)>>): seq<seq<Pair>>
    requires InPools(sources, targets, rounds)
  {
    seq(|rounds|, r requires 0 <= r < |rounds| => Values(sources, targets, rounds[r]))
  }

  predicate InPools(sources: seq<int>, targets: seq<int>, rounds: seq<seq<(nat, nat)>>) {
    forall r, i :: 0 <= r < |rounds| && 0 <= i < |rounds[r]| ==> rounds[r][i].0 < |sources| && rounds[r][i].1 < |targets|
  }

  /** At most forty rounds of draws, given here as positions in the two pools; the loops stop as soon
      as they have k pairs and return what a filter of all the draws would have found first. */
  method SamplePairs(sources: seq<int>, targets: seq<int>, k: nat, positives: set<Pair>, selfRelation: bool,
                     rounds: seq<seq<(nat, nat)>>) returns (outSources: seq<int>, outTargets: seq<int>)
    requires sources != [] && targets != [] ==> |rounds| == 40 && InPools(sources, targets, rounds)
    ensures |outSources| == |outTargets|
    ensures k == 0 || sources == [] || targets == [] ==> outSources == []
    ensures k > 0 && sources != [] && targets != [] ==>
              Zipped(outSources, outTargets)
              == FirstOf(Kept(Joined(AllValues(sources, targets, rounds)), positives, selfRelation), k)
  {
    outSources, outTargets := [], [];
    if k == 0 || sources == [] || targets == [] { return; }
    ghost var all := AllValues(sources, targets, rounds);
    var r := 0;
    assert all[..0] == [];
    while r < 40
      invariant 0 <= r <= 40 && |outSources| == |outTargets| < k
      invariant Zipped(outSources, outTargets) == Kept(Joined(all[..r]), positives, selfRelation)
    {
      var round := rounds[r];
      ghost var values := all[r];
      var j := 0;
      assert Joined(all[..r]) + values[..0] == Joined(all[..r]);
      while j < |round|
        invariant 0 <= j <= |round| && |outSources| == |outTargets| < k
        invariant Zipped(outSources, outTargets) == Kept(Joined(all[..r]) + values[..j], positives, selfRelation)
      {
        var x, y := sources[round[j].0], targets[round[j].1];
        KeptNext(Joined(all[..r]), values, j, positives, selfRelation);
        ghost var before := Zipped(outSources, outTargets);
        if Negative((x, y), positives, selfRelation) {
          outSources := outSources + [x];
          outTargets := outTargets + [y];
          assert Zipped(outSources, outTargets) == before + [(x, y)];
          if |outSources| >= k {
            assert all[..r + 1][..r] == all[..r];
            JoinedPrefix(all, r + 1);
            EnoughKept(Joined(all[..r]) + values[..j + 1], Joined(all), k, positives, selfRelation);
            return;
          }
        }
        j := j + 1;
      }
      assert values[..j] == values;
      assert all[..r + 1][..r] == all[..r];
      r := r + 1;
    }
    assert all[..40] == all;
  }

  lemma {:induction false} KeptIsExact(draws: seq<Pair>, positives: set<Pair>, selfRelation: bool, e: Pair)
    ensures e in Kept(draws, positives, selfRelation) <==> e in draws && Negative(e, positives, selfRelation)
  {
    if draws != [] { KeptIsExact(draws[1..], positives, selfRelation, e); }
  }

  /** A pair is taken for a negative exactly when the data has no such edge: in neither direction,
      and not a loop, if the relation is of a type with itself. */
  lemma NegativesAreNonEdges(edges: seq<Pair>, selfRelation: bool, e: Pair)
    ensures Negative(e, PositiveSet(edges, selfRelation), selfRelation) <==>
            if selfRelation then e.0 != e.1 && e !in edges && (e.1, e.0) !in edges else e !in edges
  {
    var positives := PositiveSet(edges, selfRelation);
    if e in edges { assert Canonical(e, selfRelation) in positives; }
    if selfRelation && (e.1, e.0) in edges {
      assert Canonical((e.1, e.0), selfRelation) in positives;
    }
  }
}
