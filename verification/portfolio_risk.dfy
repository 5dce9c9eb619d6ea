/** `RiskAssessor.portfolio_risk_analysis`: the Herfindahl-Hirschman
    concentration index of a portfolio, its three-band label and the three
    largest holdings. Holdings are kept in the insertion order of the
    source dictionary. */
module PortfolioRisk {
  import opened Wrappers
  import Rounding
  import opened SeqFacts

  datatype Holding = Holding(name: string, value: real)

  datatype ConcentrationRisk = Low | Moderate | High

  function Square(x: real): real
  {
    x * x
  }

  function SumOfSquares(xs: seq<real>): real
  {
    if |xs| == 0 then 0.0 else Square(xs[0]) + SumOfSquares(xs[1..])
  }

  function Values(hs: seq<Holding>): (vs: seq<real>)
    ensures |vs| == |hs|
    ensures forall i :: 0 <= i < |hs| ==> vs[i] == hs[i].value
  {
    seq(|hs|, i requires 0 <= i < |hs| => hs[i].value)
  }

  /** Each value as a share of `total`. */
  function Shares(vs: seq<real>, total: real): (ss: seq<real>)
    requires total != 0.0
    ensures |ss| == |vs|
    ensures forall i :: 0 <= i < |vs| ==> ss[i] == vs[i] / total
  {
    seq(|vs|, i requires 0 <= i < |vs| => vs[i] / total)
  }

  /** The index 10000 * sum of squared shares. The source divides by the
      total with numpy: an empty portfolio sums to 0 and yields 0, while a
      non-empty one whose values total 0 yields NaN or infinity, modelled
      as None. */
  function Hhi(hs: seq<Holding>): (h: Option<real>)
    ensures h.None? <==> |hs| > 0 && Sum(Values(hs)) == 0.0
    ensures |hs| == 0 ==> h == Some(0.0)
  {
    var total := Sum(Values(hs));
    if |hs| == 0 then Some(0.0)
    else if total == 0.0 then None
    else Some(10000.0 * SumOfSquares(Shares(Values(hs), total)))
  }

  /** The three-band label. A non-finite index compares false against both
      thresholds and so falls through to High. */
  function ConcentrationOf(hhi: Option<real>): (c: ConcentrationRisk)
    ensures c == Low <==> hhi.Some? && hhi.value < 1500.0
    ensures c == Moderate <==> hhi.Some? && 1500.0 <= hhi.value < 2500.0
    ensures c == High <==> hhi.None? || 2500.0 <= hhi.value
  {
    if hhi.Some? && hhi.value < 1500.0 then Low
    else if hhi.Some? && 1500.0 <= hhi.value < 2500.0 then Moderate
    else High
  }

  /** The order of the labels, Low below Moderate below High. */
  function LevelRank(c: ConcentrationRisk): nat
  {
    match c
    case Low => 0
    case Moderate => 1
    case High => 2
  }

  /** A larger index never gets a lower label, and a non-finite index gets
      the highest. */
  lemma ConcentrationMonotone(a: Option<real>, b: Option<real>)
    requires b.None? || (a.Some? && a.value <= b.value)
    ensures LevelRank(ConcentrationOf(a)) <= LevelRank(ConcentrationOf(b))
  {
  }

  lemma {:induction false} SumOfShares(vs: seq<real>, total: real)
    requires total != 0.0
    ensures Sum(Shares(vs, total)) == Sum(vs) / total
  {
    if |vs| > 0 {
      SumOfShares(vs[1..], total);
      assert Shares(vs, total)[1..] == Shares(vs[1..], total);
    }
  }

  lemma {:induction false} SumNonNegative(xs: seq<real>)
    requires forall i :: 0 <= i < |xs| ==> xs[i] >= 0.0
    ensures Sum(xs) >= 0.0
  {
    if |xs| > 0 {
      SumNonNegative(xs[1..]);
    }
  }

  /** For non-negative numbers the sum of squares is at most the square of
      the sum. */
  lemma {:induction false} SumOfSquaresAtMostSquaredSum(xs: seq<real>)
    requires forall i :: 0 <= i < |xs| ==> xs[i] >= 0.0
    ensures SumOfSquares(xs) <= Sum(xs) * Sum(xs)
  {
    if |xs| > 0 {
      var rest := xs[1..];
      SumOfSquaresAtMostSquaredSum(rest);
      SumNonNegative(rest);
      var a, s := xs[0], Sum(rest);
      assert Sum(xs) * Sum(xs) == a * a + 2.0 * a * s + s * s;
      assert a * s >= 0.0;
    }
  }

  lemma {:induction false} SumOfSquaresPositive(xs: seq<real>)
    requires forall i :: 0 <= i < |xs| ==> xs[i] >= 0.0
    requires |xs| > 0 && xs[0] > 0.0
    ensures SumOfSquares(xs) > 0.0
  {
    SumOfSquaresNonNegative(xs[1..]);
    PositiveSquare(xs[0]);
  }

  lemma PositiveSquare(a: real)
    requires a > 0.0
    ensures Square(a) > 0.0
  {
    assert 1.0 / a > 0.0;
  }

  lemma {:induction false} SumOfSquaresNonNegative(xs: seq<real>)
    ensures SumOfSquares(xs) >= 0.0
  {
    if |xs| > 0 {
      SumOfSquaresNonNegative(xs[1..]);
    }
  }

  lemma {:induction false} SumPositive(xs: seq<real>)
    requires forall i :: 0 <= i < |xs| ==> xs[i] > 0.0
    requires |xs| > 0
    ensures Sum(xs) > 0.0
  {
    SumNonNegative(xs[1..]);
  }

  lemma QuotientPositive(a: real, b: real)
    requires a > 0.0 && b > 0.0
    ensures a / b > 0.0
  {
    assert a / b * b == a;
  }

  /** With positive holdings the index lies in (0, 10000]. */
  lemma HhiBounds(hs: seq<Holding>)
    requires |hs| > 0
    requires forall i :: 0 <= i < |hs| ==> hs[i].value > 0.0
    ensures Hhi(hs).Some?
    ensures 0.0 < Hhi(hs).value <= 10000.0
  {
    var vs := Values(hs);
    SumPositive(vs);
    var total := Sum(vs);
    var ss := Shares(vs, total);
    forall i | 0 <= i < |ss|
      ensures ss[i] > 0.0
    {
      QuotientPositive(vs[i], total);
    }
    SumOfShares(vs, total);
    assert Sum(ss) == 1.0 by {
      assert total / total == 1.0;
    }
    SumOfSquaresAtMostSquaredSum(ss);
    SumOfSquaresPositive(ss);
    assert Hhi(hs) == Some(10000.0 * SumOfSquares(ss));
  }

  lemma {:induction false} SumOfSquaresOfConstant(xs: seq<real>, c: real)
    requires forall i :: 0 <= i < |xs| ==> xs[i] == c
    ensures SumOfSquares(xs) == |xs| as real * (c * c)
  {
    if |xs| > 0 {
      SumOfSquaresOfConstant(xs[1..], c);
    }
  }

  lemma {:induction false} SumOfConstant(xs: seq<real>, c: real)
    requires forall i :: 0 <= i < |xs| ==> xs[i] == c
    ensures Sum(xs) == |xs| as real * c
  {
    if |xs| > 0 {
      SumOfConstant(xs[1..], c);
    }
  }

  /** n equal non-zero holdings give an index of 10000 / n. */
  lemma HhiOfEqualHoldings(hs: seq<Holding>, v: real)
    requires |hs| > 0 && v != 0.0
    requires forall i :: 0 <= i < |hs| ==> hs[i].value == v
    ensures Hhi(hs) == Some(10000.0 / |hs| as real)
  {
    var n := |hs| as real;
    var vs := Values(hs);
    SumOfConstant(vs, v);
    var total := Sum(vs);
    EqualShare(v, n);
    assert total == n * v;
    assert total != 0.0;
    var ss := Shares(vs, total);
    assert forall i :: 0 <= i < |ss| ==> ss[i] == 1.0 / n;
    SumOfSquaresOfConstant(ss, 1.0 / n);
    assert SumOfSquares(ss) == n * ((1.0 / n) * (1.0 / n));
    SquaredSharesOfEqual(n);
    assert 10000.0 * SumOfSquares(ss) == 10000.0 / n;
    assert Hhi(hs) == Some(10000.0 * SumOfSquares(ss));
  }

  lemma EqualShare(v: real, n: real)
    requires v != 0.0 && n > 0.0
    ensures n * v != 0.0
    ensures v / (n * v) == 1.0 / n
  {
  }

  lemma SquaredSharesOfEqual(n: real)
    requires n > 0.0
    ensures 10000.0 * (n * ((1.0 / n) * (1.0 / n))) == 10000.0 / n
  {
    assert n * (1.0 / n) == 1.0;
  }

  /** Two equal holdings: the index is 5000, which the thresholds label High. */
  lemma TwoEqualHoldingsAreHighlyConcentrated()
    ensures Hhi([Holding("A", 5000.0), Holding("B", 5000.0)]) == Some(5000.0)
    ensures ConcentrationOf(Hhi([Holding("A", 5000.0), Holding("B", 5000.0)])) == High
  {
    HhiOfEqualHoldings([Holding("A", 5000.0), Holding("B", 5000.0)], 5000.0);
  }

  /** A holding paired with its position in the source dictionary. */
  datatype Ranked = Ranked(holding: Holding, position: nat)

  function Tag(hs: seq<Holding>): (t: seq<Ranked>)
    ensures |t| == |hs|
    ensures forall i :: 0 <= i < |hs| ==> t[i] == Ranked(hs[i], i)
  {
    seq(|hs|, i requires 0 <= i < |hs| => Ranked(hs[i], i))
  }

  function Untag(t: seq<Ranked>): (hs: seq<Holding>)
    ensures |hs| == |t|
    ensures forall i :: 0 <= i < |t| ==> hs[i] == t[i].holding
  {
    seq(|t|, i requires 0 <= i < |t| => t[i].holding)
  }

  /** `a` may come before `b` in the result of a stable sort by descending
      value: its value is larger, or equal and it came first. */
  predicate Precedes(a: Ranked, b: Ranked)
  {
    a.holding.value > b.holding.value
    || (a.holding.value == b.holding.value && a.position <= b.position)
  }

  predicate InRankOrder(t: seq<Ranked>)
  {
    forall i, j :: 0 <= i < j < |t| ==> Precedes(t[i], t[j])
  }

  predicate PositionsIncreasing(t: seq<Ranked>)
  {
    forall i, j :: 0 <= i < j < |t| ==> t[i].position < t[j].position
  }

  /** Inserts `x` ahead of the first element it is not smaller than. */
  function Insert(x: Ranked, t: seq<Ranked>): (r: seq<Ranked>)
    ensures multiset(r) == multiset(t) + multiset{x}
  {
    if |t| == 0 then [x]
    else if x.holding.value >= t[0].holding.value then [x] + t
    else
      assert t == [t[0]] + t[1..];
      [t[0]] + Insert(x, t[1..])
  }

  /** Inserting an element that came before every element of `t` in the
      source keeps `t` in rank order. */
  lemma {:induction false} InsertKeepsRankOrder(x: Ranked, t: seq<Ranked>)
    requires InRankOrder(t)
    requires forall k :: 0 <= k < |t| ==> x.position <= t[k].position
    ensures InRankOrder(Insert(x, t))
  {
    if |t| > 0 && x.holding.value < t[0].holding.value {
      var rest := Insert(x, t[1..]);
      InsertKeepsRankOrder(x, t[1..]);
      forall k | 0 <= k < |rest|
        ensures Precedes(t[0], rest[k])
      {
        assert rest[k] in multiset(rest);
        assert rest[k] == x || rest[k] in multiset(t[1..]);
      }
      assert Insert(x, t) == [t[0]] + rest;
    }
  }

  /** A stable sort by descending value: Python's `sorted(..., reverse=True)`
      with the value as key. */
  function SortByValue(t: seq<Ranked>): (r: seq<Ranked>)
    requires PositionsIncreasing(t)
    ensures multiset(r) == multiset(t)
    ensures InRankOrder(r)
  {
    if |t| == 0 then []
    else
      TailPositionsIncreasing(t);
      var rest := SortByValue(t[1..]);
      assert t == [t[0]] + t[1..];
      HeadComesFirst(t, rest);
      InsertKeepsRankOrder(t[0], rest);
      Insert(t[0], rest)
  }

  lemma TailPositionsIncreasing(t: seq<Ranked>)
    requires |t| > 0 && PositionsIncreasing(t)
    ensures PositionsIncreasing(t[1..])
  {
    forall i, j | 0 <= i < j < |t[1..]|
      ensures t[1..][i].position < t[1..][j].position
    {
      assert t[1..][i] == t[i + 1] && t[1..][j] == t[j + 1];
    }
  }

  /** The first entry of a position-increasing sequence came before every
      entry of any rearrangement of the rest. */
  lemma HeadComesFirst(t: seq<Ranked>, rest: seq<Ranked>)
    requires |t| > 0 && PositionsIncreasing(t)
    requires multiset(rest) == multiset(t[1..])
    ensures forall k :: 0 <= k < |rest| ==> t[0].position <= rest[k].position
  {
    forall k | 0 <= k < |rest|
      ensures t[0].position <= rest[k].position
    {
      assert rest[k] in multiset(t[1..]);
      var j :| 0 <= j < |t[1..]| && t[1..][j] == rest[k];
      assert t[1..][j] == t[j + 1];
    }
  }

  function Min(a: nat, b: nat): nat
  {
    if a <= b then a else b
  }

  /** An element of a position-increasing sequence occurs in it at most once. */
  lemma {:induction false} OccursAtMostOnce(t: seq<Ranked>, e: Ranked)
    requires PositionsIncreasing(t)
    ensures multiset(t)[e] <= 1
  {
    if |t| > 0 {
      OccursAtMostOnce(t[1..], e);
      assert t == [t[0]] + t[1..];
      if e == t[0] {
        assert e !in t[1..];
      }
    }
  }

  /** An element at two distinct indices occurs at least twice. */
  lemma OccursTwice(s: seq<Ranked>, i: nat, j: nat)
    requires i < j < |s| && s[i] == s[j]
    ensures multiset(s)[s[i]] >= 2
  {
    assert s == s[..j] + s[j..];
    assert s[i] in s[..j];
    assert s[j] in s[j..] by {
      assert s[j..][0] == s[j];
    }
  }

  /** Facts about a stable descending sort of the tagged portfolio. */
  predicate IsRankingOf(sorted: seq<Ranked>, hs: seq<Holding>)
  {
    multiset(sorted) == multiset(Tag(hs)) && InRankOrder(sorted)
  }

  lemma RankingEntriesFromSource(sorted: seq<Ranked>, hs: seq<Holding>, i: nat)
    requires IsRankingOf(sorted, hs)
    requires i < |sorted|
    ensures sorted[i].position < |hs| && hs[sorted[i].position] == sorted[i].holding
  {
    assert sorted[i] in multiset(Tag(hs));
  }

  lemma RankingPositionsDistinct(sorted: seq<Ranked>, hs: seq<Holding>, i: nat, j: nat)
    requires IsRankingOf(sorted, hs)
    requires i < j < |sorted|
    ensures sorted[i].position != sorted[j].position
  {
    RankingEntriesFromSource(sorted, hs, i);
    RankingEntriesFromSource(sorted, hs, j);
    if sorted[i].position == sorted[j].position {
      OccursTwice(sorted, i, j);
      OccursAtMostOnce(Tag(hs), sorted[i]);
      assert false;
    }
  }

  lemma RankingPrefixIsLargest(sorted: seq<Ranked>, hs: seq<Holding>, n: nat, i: nat, k: nat)
    requires IsRankingOf(sorted, hs)
    requires i < n <= |sorted| && k < |hs|
    requires Ranked(hs[k], k) !in sorted[..n]
    ensures Precedes(sorted[i], Ranked(hs[k], k))
  {
    assert Tag(hs)[k] in multiset(sorted);
    var j :| 0 <= j < |sorted| && sorted[j] == Ranked(hs[k], k);
    assert j >= n;
    assert Precedes(sorted[i], sorted[j]);
  }

  lemma RankingPrefixFromSource(sorted: seq<Ranked>, hs: seq<Holding>, n: nat)
    requires IsRankingOf(sorted, hs) && n <= |sorted|
    ensures forall i :: 0 <= i < n ==> sorted[..n][i].position < |hs| && hs[sorted[..n][i].position] == sorted[..n][i].holding
  {
    forall i | 0 <= i < n
      ensures sorted[..n][i].position < |hs| && hs[sorted[..n][i].position] == sorted[..n][i].holding
    {
      RankingEntriesFromSource(sorted, hs, i);
    }
  }

  lemma RankingPrefixStable(sorted: seq<Ranked>, hs: seq<Holding>, n: nat)
    requires IsRankingOf(sorted, hs) && n <= |sorted|
    ensures forall i, j :: 0 <= i < j < n ==> sorted[..n][i].holding.value >= sorted[..n][j].holding.value
    ensures forall i, j :: (0 <= i < j < n && sorted[..n][i].holding.value == sorted[..n][j].holding.value)
                             ==> sorted[..n][i].position < sorted[..n][j].position
    ensures forall i, j :: 0 <= i < j < n ==> sorted[..n][i].position != sorted[..n][j].position
  {
    forall i, j | 0 <= i < j < n
      ensures sorted[..n][i].holding.value >= sorted[..n][j].holding.value
      ensures sorted[..n][i].holding.value == sorted[..n][j].holding.value
              ==> sorted[..n][i].position < sorted[..n][j].position
      ensures sorted[..n][i].position != sorted[..n][j].position
    {
      assert Precedes(sorted[i], sorted[j]);
      RankingPositionsDistinct(sorted, hs, i, j);
    }
  }

  lemma RankingPrefixMaximal(sorted: seq<Ranked>, hs: seq<Holding>, n: nat)
    requires IsRankingOf(sorted, hs) && n <= |sorted|
    ensures forall i, k :: (0 <= i < n && 0 <= k < |hs| && Ranked(hs[k], k) !in sorted[..n])
                             ==> Precedes(sorted[..n][i], Ranked(hs[k], k))
  {
    forall i, k | 0 <= i < n && 0 <= k < |hs| && Ranked(hs[k], k) !in sorted[..n]
      ensures Precedes(sorted[..n][i], Ranked(hs[k], k))
    {
      RankingPrefixIsLargest(sorted, hs, n, i, k);
    }
  }

  /** The first three entries of the stable descending sort, with their
      source positions: each is an entry of the portfolio, they are ordered
      by value with ties in source order, and every entry kept precedes
      every entry left out (a larger value, or an equal value earlier in
      the portfolio). */
  function TopRanked(hs: seq<Holding>): (top: seq<Ranked>)
    ensures |top| == Min(3, |hs|)
    ensures forall i :: 0 <= i < |top| ==> top[i].position < |hs| && hs[top[i].position] == top[i].holding
    ensures forall i, j :: 0 <= i < j < |top| ==> top[i].holding.value >= top[j].holding.value
    ensures forall i, j :: (0 <= i < j < |top| && top[i].holding.value == top[j].holding.value)
                             ==> top[i].position < top[j].position
    ensures forall i, k :: (0 <= i < |top| && 0 <= k < |hs| && Ranked(hs[k], k) !in top)
                             ==> Precedes(top[i], Ranked(hs[k], k))
    ensures forall i, j :: 0 <= i < j < |top| ==> top[i].position != top[j].position
  {
    var sorted := SortByValue(Tag(hs));
    var n := Min(3, |hs|);
    RankingPrefixFromSource(sorted, hs, n);
    RankingPrefixStable(sorted, hs, n);
    RankingPrefixMaximal(sorted, hs, n);
    sorted[..n]
  }

  /** The `top_holdings` entries: name and value of the three largest
      holdings, in non-increasing value order. Each is the holding at the
      position `TopRanked` selects, so no entry of the portfolio is listed
      twice and ties at the cut-off keep the earlier holding; a holding
      larger than one kept is kept too. */
  function TopHoldings(hs: seq<Holding>): (top: seq<Holding>)
    ensures |top| == Min(3, |hs|)
    ensures forall i :: 0 <= i < |top| ==> top[i] == hs[TopRanked(hs)[i].position]
    ensures forall i, j :: 0 <= i < j < |top| ==> top[i].value >= top[j].value
    ensures forall i, k :: (0 <= i < |top| && 0 <= k < |hs| && hs[k].value > top[i].value) ==> hs[k] in top
  {
    var ranked := TopRanked(hs);
    var top := Untag(ranked);
    forall i, k | 0 <= i < |top| && 0 <= k < |hs| && hs[k].value > top[i].value
      ensures hs[k] in top
    {
      var m := KeptPosition(hs, i, k);
      assert top[m] == hs[k];
    }
    top
  }

  /** A holding larger than a kept one is kept: the index where it is. */
  function KeptPosition(hs: seq<Holding>, i: nat, k: nat): (m: nat)
    requires i < |TopRanked(hs)| && k < |hs|
    requires hs[k].value > TopRanked(hs)[i].holding.value
    ensures m < |TopRanked(hs)| && TopRanked(hs)[m] == Ranked(hs[k], k)
  {
    var ranked := TopRanked(hs);
    assert Ranked(hs[k], k) in ranked;
    var m :| 0 <= m < |ranked| && ranked[m] == Ranked(hs[k], k);
    m
  }

  /** With all values equal the stable sort keeps the first three holdings. */
  lemma TiesKeepEarlierHoldings(hs: seq<Holding>)
    requires forall i, j :: 0 <= i < |hs| && 0 <= j < |hs| ==> hs[i].value == hs[j].value
    ensures TopHoldings(hs) == hs[..Min(3, |hs|)]
  {
    var r := TopRanked(hs);
    forall j, k | 0 <= j < |r| && 0 <= k < |hs| && k !in PositionSet(r)
      ensures r[j].position <= k
    {
      assert Ranked(hs[k], k) !in r;
    }
    forall i | 0 <= i < |r|
      ensures r[i].position == i
    {
      PositionsFromZero(r, |hs|, i);
    }
  }

  function PositionSet(r: seq<Ranked>): set<nat>
  {
    set j | 0 <= j < |r| :: r[j].position
  }

  /** Increasing positions below n that come before every position left out
      are exactly 0, 1, 2, ... */
  lemma {:induction false} PositionsFromZero(r: seq<Ranked>, n: nat, i: nat)
    requires i < |r|
    requires forall j :: 0 <= j < |r| ==> r[j].position < n
    requires forall a, b :: 0 <= a < b < |r| ==> r[a].position < r[b].position
    requires forall j, k :: 0 <= j < |r| && 0 <= k < n && k !in PositionSet(r) ==> r[j].position <= k
    ensures r[i].position == i
    decreases i
  {
    if i > 0 {
      PositionsFromZero(r, n, i - 1);
    }
    assert forall j :: 0 <= j < i ==> r[j].position < i;
    assert r[i].position >= i;
    assert i < n ==> (i !in PositionSet(r) ==> r[i].position <= i);
  }

  /** Holdings are keyed by name, so no holding is listed twice. */
  lemma TopHoldingsDistinct(hs: seq<Holding>)
    requires forall i, j :: 0 <= i < j < |hs| ==> hs[i].name != hs[j].name
    ensures forall i, j :: 0 <= i < j < |TopHoldings(hs)| ==> TopHoldings(hs)[i] != TopHoldings(hs)[j]
  {
    var top, r := TopHoldings(hs), TopRanked(hs);
    forall i, j | 0 <= i < j < |top|
      ensures top[i] != top[j]
    {
      var p, q := r[i].position, r[j].position;
      assert p != q && top[i] == hs[p] && top[j] == hs[q];
      if p < q {
        assert hs[p].name != hs[q].name;
      } else {
        assert hs[q].name != hs[p].name;
      }
    }
  }

  datatype PortfolioReport = PortfolioReport(
    hhiIndex: Option<real>,
    concentrationRisk: ConcentrationRisk,
    topHoldings: seq<Holding>)

  /** The index as reported: rounded to two decimals, a non-finite index
      staying non-finite. */
  function ShownIndex(hhi: Option<real>): (shown: Option<real>)
    ensures shown.Some? <==> hhi.Some?
    ensures shown.Some? ==> shown.value == Rounding.RoundTo(hhi.value, 2)
    ensures shown.Some? ==> Rounding.IsWhole(shown.value * 100.0)
    ensures shown.Some? ==> -0.005 <= shown.value - hhi.value <= 0.005
  {
    assert Rounding.Pow10(2) == 100.0;
    if hhi.Some? then Some(Rounding.RoundTo(hhi.value, 2)) else None
  }

  /** The analysis report: the index rounded to two decimals (a non-finite
      index stays non-finite), the label of the UNROUNDED index, and the top
      holdings. */
  function PortfolioRiskAnalysis(hs: seq<Holding>): (r: PortfolioReport)
    ensures r.hhiIndex.Some? <==> Hhi(hs).Some?
    ensures r.hhiIndex.Some? ==> r.hhiIndex.value == Rounding.RoundTo(Hhi(hs).value, 2)
    ensures r.hhiIndex.Some? ==> Rounding.IsWhole(r.hhiIndex.value * 100.0)
    ensures r.hhiIndex.Some? ==> -0.005 <= r.hhiIndex.value - Hhi(hs).value <= 0.005
    ensures r.concentrationRisk == ConcentrationOf(Hhi(hs))
    ensures r.topHoldings == TopHoldings(hs)
  {
    var hhi := Hhi(hs);
    PortfolioReport(ShownIndex(hhi), ConcentrationOf(hhi), TopHoldings(hs))
  }
}
