/**
 * Ranking metrics of the recall benchmark: precision, reciprocal rank and normalised discounted gain,
 * for any positive, strictly decreasing gain.
 */
module Relevance {
  import opened Wrappers

  const DEPTH: nat := 10

  type Gain = nat -> real

  ghost predicate Decreasing(gain: Gain) {
    && (forall i :: gain(i) > 0.0)
    && (forall i, j :: i < j ==> gain(i) > gain(j))
  }

  function Min(a: nat, b: nat): nat {
    if a <= b then a else b
  }

  function Top(ranked: seq<string>, k: nat): seq<string> {
    ranked[..Min(k, |ranked|)]
  }

  function Hits(names: seq<string>, relevant: set<string>): nat {
    if names == [] then 0
    else Hits(names[..|names| - 1], relevant) + if names[|names| - 1] in relevant then 1 else 0
  }

  /** The discounted gain of the relevant places. */
  function Dcg(names: seq<string>, relevant: set<string>, gain: Gain): real {
    if names == [] then 0.0
    else Dcg(names[..|names| - 1], relevant, gain) + if names[|names| - 1] in relevant then gain(|names| - 1) else 0.0
  }

  /** The gain of the first `n` places. */
  function Ideal(n: nat, gain: Gain): real {
    if n == 0 then 0.0 else Ideal(n - 1, gain) + gain(n - 1)
  }

  function Ndcg(ranked: seq<string>, relevant: set<string>, gain: Gain): real {
    var ideal := Ideal(Min(|relevant|, DEPTH), gain);
    if ideal == 0.0 then 0.0 else Dcg(Top(ranked, DEPTH), relevant, gain) / ideal
  }

  /** One-based rank of the first relevant name. */
  function FirstRelevant(ranked: seq<string>, relevant: set<string>): Option<nat> {
    if ranked == [] then None
    else if ranked[0] in relevant then Some(1)
    else
      var later := FirstRelevant(ranked[1..], relevant);
      if later.Some? then Some(later.value + 1) else None
  }

  datatype Metrics = Metrics(precision: real, reciprocalRank: real, ndcg: real, firstRank: Option<nat>)

  /** `scoreRanking`; None when the cut-off is not a positive integer. */
  function Score(ranked: seq<string>, relevant: set<string>, k: int, gain: Gain): Option<Metrics> {
    if k < 1 then None
    else
      var first := FirstRelevant(ranked, relevant);
      Some(Metrics(Hits(Top(ranked, k), relevant) as real / k as real,
                   if first.Some? && first.value != 0 then 1.0 / first.value as real else 0.0,
                   Ndcg(ranked, relevant, gain), first))
  }

  // ------------------------------------------------------- rearrangement

  /** The relevant names come first. */
  ghost predicate Packed(names: seq<string>, relevant: set<string>) {
    forall i :: 0 <= i < |names| ==> (names[i] in relevant <==> i < Hits(names, relevant))
  }

  lemma {:induction false} HitsBound(names: seq<string>, relevant: set<string>)
    ensures Hits(names, relevant) <= |names|
    ensures Hits(names, relevant) == |names| ==> forall n :: n in names ==> n in relevant
  {
    if names != [] {
      var front := names[..|names| - 1];
      HitsBound(front, relevant);
      assert names == front + [names[|names| - 1]];
    }
  }

  /**
   * Spread over any places, the gain is at most that of as many first places, and equal only if they
   * are the first places.
   */
  lemma {:induction false} FirstPlacesAreBest(names: seq<string>, relevant: set<string>, gain: Gain)
    requires Decreasing(gain)
    ensures 0.0 <= Dcg(names, relevant, gain) <= Ideal(Hits(names, relevant), gain)
    ensures Dcg(names, relevant, gain) == Ideal(Hits(names, relevant), gain) <==> Packed(names, relevant)
  {
    if names != [] {
      var n := |names| - 1;
      var front, h := names[..n], Hits(names[..n], relevant);
      FirstPlacesAreBest(front, relevant, gain);
      HitsBound(front, relevant);
      assert forall i :: 0 <= i < n ==> front[i] == names[i];
      if names[n] in relevant {
        assert h < n ==> gain(h) > gain(n);
        assert Hits(names, relevant) == h + 1;
        assert Ideal(h + 1, gain) == Ideal(h, gain) + gain(h);
        assert Packed(names, relevant) <==> Packed(front, relevant) && h == n by {
          if h < n && Packed(names, relevant) { PackedAll(names, relevant); }
        }
      } else {
        assert Packed(names, relevant) <==> Packed(front, relevant);
      }
    }
  }

  lemma PackedAll(names: seq<string>, relevant: set<string>)
    requires names != [] && names[|names| - 1] in relevant && Packed(names, relevant)
    ensures Hits(names, relevant) == |names|
  {
    HitsBound(names, relevant);
  }

  lemma {:induction false} IdealGrows(n: nat, m: nat, gain: Gain)
    requires Decreasing(gain) && n <= m
    ensures Ideal(n, gain) <= Ideal(m, gain)
    ensures n < m ==> Ideal(n, gain) < Ideal(m, gain)
  {
    if n < m { IdealGrows(n, m - 1, gain); }
  }

  ghost predicate Distinct(names: seq<string>) {
    forall i, j :: 0 <= i < j < |names| ==> names[i] != names[j]
  }

  function Found(names: seq<string>, relevant: set<string>): set<string> {
    set n | n in names && n in relevant
  }

  /** Distinct names cannot hit more often than there are relevant names. */
  lemma {:induction false} HitsAreFound(names: seq<string>, relevant: set<string>)
    requires Distinct(names)
    ensures Hits(names, relevant) == |Found(names, relevant)| <= |relevant|
  {
    if names == [] {
      assert Found(names, relevant) == {};
    } else {
      var front, last := names[..|names| - 1], names[|names| - 1];
      assert names == front + [last] && last !in front;
      HitsAreFound(front, relevant);
      assert Found(names, relevant) == Found(front, relevant) + if last in relevant then {last} else {};
    }
    FoundFew(names, relevant);
  }

  lemma FoundFew(names: seq<string>, relevant: set<string>)
    ensures |Found(names, relevant)| <= |relevant|
  {
    assert Found(names, relevant) <= relevant;
    SubsetFew(Found(names, relevant), relevant);
  }

  lemma {:induction false} SubsetFew(a: set<string>, b: set<string>)
    requires a <= b
    ensures |a| <= |b|
    decreases a
  {
    if a != {} {
      var x :| x in a;
      SubsetFew(a - {x}, b - {x});
    }
  }

  /** The best possible ranking: the first min(|relevant|, 10) places exist and are all relevant. */
  ghost predicate Perfect(ranked: seq<string>, relevant: set<string>) {
    var n := Min(|relevant|, 10);
    n <= |ranked| && forall i :: 0 <= i < n ==> ranked[i] in relevant
  }

  lemma {:induction false} PrefixHits(names: seq<string>, relevant: set<string>, n: nat)
    requires n <= |names| && forall i :: 0 <= i < n ==> names[i] in relevant
    ensures Hits(names, relevant) >= n
  {
    if |names| > n {
      PrefixHits(names[..|names| - 1], relevant, n);
    } else if n > 0 {
      PrefixHits(names[..n - 1], relevant, n - 1);
    }
  }

  /** A full count of hits in a packed list is a perfect ranking, and conversely. */
  lemma PerfectIsPacked(ranked: seq<string>, relevant: set<string>)
    requires Distinct(ranked)
    ensures var top, n := Top(ranked, DEPTH), Min(|relevant|, DEPTH);
            Perfect(ranked, relevant) <==> Packed(top, relevant) && Hits(top, relevant) == n
  {
    var top, n := Top(ranked, DEPTH), Min(|relevant|, DEPTH);
    HitsAreFound(top, relevant);
    HitsBound(top, relevant);
    if Perfect(ranked, relevant) {
      PrefixHits(top, relevant, n);
      assert Hits(top, relevant) == n;
      forall i | n <= i < |top| ensures top[i] !in relevant {
        if top[i] in relevant { OneMoreHit(top, relevant, n, i); }
      }
    }
  }

  lemma {:induction false} OneMoreHit(names: seq<string>, relevant: set<string>, n: nat, k: nat)
    requires n <= k < |names| && names[k] in relevant && forall i :: 0 <= i < n ==> names[i] in relevant
    ensures Hits(names, relevant) > n
    decreases |names|
  {
    var front := names[..|names| - 1];
    if k == |names| - 1 {
      PrefixHits(front, relevant, n);
    } else {
      OneMoreHit(front, relevant, n, k);
    }
  }

  /** For a ranking without duplicates nDCG lies between 0 and 1, and is 1 exactly for a perfect ranking. */
  lemma NdcgBounds(ranked: seq<string>, relevant: set<string>, gain: Gain)
    requires Decreasing(gain) && Distinct(ranked)
    ensures 0.0 <= Ndcg(ranked, relevant, gain) <= 1.0
    ensures relevant != {} ==> (Ndcg(ranked, relevant, gain) == 1.0 <==> Perfect(ranked, relevant))
    ensures relevant == {} ==> Ndcg(ranked, relevant, gain) == 0.0
  {
    var top, n := Top(ranked, DEPTH), Min(|relevant|, DEPTH);
    var dcg, ideal, h := Dcg(top, relevant, gain), Ideal(n, gain), Hits(top, relevant);
    FirstPlacesAreBest(top, relevant, gain);
    HitsAreFound(top, relevant);
    HitsBound(top, relevant);
    IdealGrows(h, n, gain);
    IdealGrows(0, n, gain);
    PerfectIsPacked(ranked, relevant);
    if ideal != 0.0 { Quotient(dcg, ideal); }
  }

  lemma Quotient(a: real, b: real)
    requires 0.0 <= a <= b && b > 0.0
    ensures 0.0 <= a / b <= 1.0 && (a / b == 1.0 <==> a == b)
  {
    var q := a / b;
    assert q * b == a;
  }

  lemma QuotientAbove(a: real, b: real)
    requires a > b > 0.0
    ensures a / b > 1.0
  {
    var q := a / b;
    assert q * b == a;
    assert (q - 1.0) * b == a - b;
    PositiveFactor(q - 1.0, b);
  }

  lemma PositiveFactor(x: real, b: real)
    requires x * b > 0.0 && b > 0.0
    ensures x > 0.0
  {
  }

  /** Duplicates break the bound: a relevant name listed twice is counted twice. */
  lemma DuplicatesExceedOne(name: string, gain: Gain)
    requires Decreasing(gain)
    ensures Ndcg([name, name], {name}, gain) > 1.0
  {
    var top := Top([name, name], DEPTH);
    assert top == [name, name] && top[..1] == [name] && [name][..0] == [];
    assert Ideal(1, gain) == Ideal(0, gain) + gain(0);
    assert Dcg([name], {name}, gain) == gain(0);
    assert Dcg(top, {name}, gain) == gain(0) + gain(1);
    QuotientAbove(gain(0) + gain(1), gain(0));
  }

  // ------------------------------------------------------- other metrics

  /** The first relevant rank is where it is, and absent exactly when nothing relevant is ranked. */
  lemma {:induction false} FirstIsFirst(ranked: seq<string>, relevant: set<string>)
    ensures var first := FirstRelevant(ranked, relevant);
            && (first.None? <==> forall n :: n in ranked ==> n !in relevant)
            && (first.Some? ==> 1 <= first.value <= |ranked| && ranked[first.value - 1] in relevant
                                && forall i :: 0 <= i < first.value - 1 ==> ranked[i] !in relevant)
  {
    if ranked != [] {
      FirstIsFirst(ranked[1..], relevant);
      assert ranked == [ranked[0]] + ranked[1..];
    }
  }

  /** The places among the first `k` that are relevant. */
  function RelevantPlaces(names: seq<string>, relevant: set<string>): set<int> {
    set i | 0 <= i < |names| && names[i] in relevant
  }

  lemma {:induction false} HitsArePlaces(names: seq<string>, relevant: set<string>)
    ensures Hits(names, relevant) == |RelevantPlaces(names, relevant)|
  {
    if names == [] {
      assert RelevantPlaces(names, relevant) == {};
    } else {
      var n := |names| - 1;
      HitsArePlaces(names[..n], relevant);
      assert RelevantPlaces(names, relevant) == RelevantPlaces(names[..n], relevant) + if names[n] in relevant then {n} else {};
    }
  }

  /**
   * What the metrics mean: precision is the share of relevant names among the first `k` places, missing
   * ones counted as irrelevant; the reciprocal rank is 1 over the rank of the first relevant name, 0
   * exactly if there is none.
   */
  lemma MetricsMean(ranked: seq<string>, relevant: set<string>, k: int, gain: Gain)
    ensures Score(ranked, relevant, k, gain).None? <==> k < 1
    ensures k >= 1 ==>
              var m := Score(ranked, relevant, k, gain).value;
              && m.precision * k as real == |RelevantPlaces(Top(ranked, k), relevant)| as real
              && (m.firstRank.Some? ==> m.firstRank.value >= 1 && m.reciprocalRank * m.firstRank.value as real == 1.0)
              && (m.firstRank.None? <==> forall n :: n in ranked ==> n !in relevant)
              && (m.firstRank.None? <==> m.reciprocalRank == 0.0)
  {
    hide Hits, FirstRelevant, Ndcg, Top, RelevantPlaces;
    if k >= 1 {
      var hits, first := Hits(Top(ranked, k), relevant), FirstRelevant(ranked, relevant);
      HitsArePlaces(Top(ranked, k), relevant);
      FirstIsFirst(ranked, relevant);
      Product(hits as real, k as real);
      if first.Some? { Inverse(first.value as real); }
    }
  }

  lemma Inverse(x: real)
    requires x >= 1.0
    ensures (1.0 / x) * x == 1.0 && 1.0 / x != 0.0
  {
    Product(1.0, x);
  }

  lemma Product(a: real, b: real)
    requires b > 0.0
    ensures (a / b) * b == a
  {
  }

  predicate Unit(x: real) {
    0.0 <= x <= 1.0
  }

  /** Every metric is between 0 and 1. */
  lemma MetricsAreUnit(ranked: seq<string>, relevant: set<string>, k: int, gain: Gain)
    requires Decreasing(gain) && Distinct(ranked) && k >= 1
    ensures var m := Score(ranked, relevant, k, gain).value; Unit(m.precision) && Unit(m.reciprocalRank) && Unit(m.ndcg)
  {
    HitsBound(Top(ranked, k), relevant);
    Quotient(Hits(Top(ranked, k), relevant) as real, k as real);
    NdcgBounds(ranked, relevant, gain);
    var first := FirstRelevant(ranked, relevant);
    FirstIsFirst(ranked, relevant);
    if first.Some? { Quotient(1.0, first.value as real); }
  }

  /** Nothing relevant ranked: every metric is 0. */
  lemma NothingFoundScoresZero(ranked: seq<string>, relevant: set<string>, k: int, gain: Gain)
    requires k >= 1 && forall n :: n in ranked ==> n !in relevant
    ensures Score(ranked, relevant, k, gain) == Some(Metrics(0.0, 0.0, 0.0, None))
  {
    FirstIsFirst(ranked, relevant);
    assert forall n :: n in Top(ranked, k) ==> n in ranked;
    assert forall n :: n in Top(ranked, DEPTH) ==> n in ranked;
    NoHits(Top(ranked, k), relevant, gain);
    NoHits(Top(ranked, DEPTH), relevant, gain);
  }

  lemma {:induction false} NoHits(names: seq<string>, relevant: set<string>, gain: Gain)
    requires forall n :: n in names ==> n !in relevant
    ensures Hits(names, relevant) == 0 && Dcg(names, relevant, gain) == 0.0
  {
    if names != [] {
      assert names[|names| - 1] in names;
      assert forall n :: n in names[..|names| - 1] ==> n in names;
      NoHits(names[..|names| - 1], relevant, gain);
    }
  }

  function Sum(values: seq<real>): real {
    if values == [] then 0.0 else values[0] + Sum(values[1..])
  }

  function Mean(values: seq<real>): real {
    if values == [] then 0.0 else Sum(values) / |values| as real
  }

  lemma {:induction false} SumJoins(values: seq<real>, v: real)
    ensures Sum(values + [v]) == Sum(values) + v
  {
    if values == [] {
      assert values + [v] == [v] && [v][1..] == [];
    } else {
      assert (values + [v])[1..] == values[1..] + [v];
      SumJoins(values[1..], v);
    }
  }

  /** One more value moves the mean as it should, whatever came before; the mean of none is 0. */
  lemma MeanMoves(values: seq<real>, v: real)
    ensures Mean([]) == 0.0
    ensures Mean(values + [v]) * (|values| + 1) as real == Mean(values) * |values| as real + v
  {
    SumJoins(values, v);
    assert |values + [v]| == |values| + 1;
    Product(Sum(values + [v]), (|values| + 1) as real);
    if values != [] { Product(Sum(values), |values| as real); }
  }

  /** A mean of metrics is a metric. */
  lemma MeanIsUnit(values: seq<real>)
    requires forall v :: v in values ==> Unit(v)
    ensures Unit(Mean(values))
  {
    if values != [] {
      SumBound(values);
      Quotient(Sum(values), |values| as real);
    }
  }

  lemma {:induction false} SumBound(values: seq<real>)
    requires forall v :: v in values ==> Unit(v)
    ensures 0.0 <= Sum(values) <= |values| as real
  {
    if values != [] {
      assert values[0] in values && forall v :: v in values[1..] ==> v in values;
      SumBound(values[1..]);
    }
  }
}
