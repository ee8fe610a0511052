/** Non-linear aggregation of the five factor scores into the final university score:
    peer adjustment against a population of other universities, a weighted base score,
    a synergy bonus for strength in three or more factors, a penalty per weak factor,
    and clamping to 0-10 before rescaling to 1000. */
module Aggregation {
  import opened Series
  import opened Normalization
  import opened Weights

  /** Adjusted scores above this count as high-scoring for the synergy bonus. */
  const HighThreshold := 7.0
  /** Adjusted scores below this count as failing for the penalty. */
  const FailThreshold := 3.0
  /** Penalty per failing factor. */
  const PenaltyPerFactor := 0.2
  /** The top of the published scale. */
  const MaxScore := 1000.0

  /** Every intermediate quantity of one aggregation, as the results panel lists them. */
  datatype Breakdown = Breakdown(adjusted: map<Factor, real>, base: real, bonus: real,
                                 penalty: real, final10: real, final1000: real)

  /** Peer-adjusted score: 0.7 times the raw score plus 0.3 times the raw score's
      percentile among the peers with the raw score itself appended. */
  function PeerAdjust(raw: real, peers: seq<real>): (r: real)
    ensures 0.7 * raw < r <= 0.7 * raw + 3.0
  {
    var rank := PercentileScore(raw, peers + [raw]) / 10.0;
    assert raw in peers + [raw] by {
      assert (peers + [raw])[|peers|] == raw;
    }
    PercentileOfMemberPositive(raw, peers + [raw]);
    PercentileInRange(raw, peers + [raw]);
    0.7 * raw + 0.3 * rank * 10.0
  }

  /** A raw score on the 0-10 scale stays on it after peer adjustment. */
  lemma PeerAdjustInScale(raw: real, peers: seq<real>)
    requires 0.0 <= raw <= 10.0
    ensures 0.0 < PeerAdjust(raw, peers) <= 10.0
  {
  }

  /** Ten times the mid-rank count of raw among the peers with raw itself appended:
      the appended entry counts as one more equal value. */
  function OwnMidRank(raw: real, peers: seq<real>): real
  {
    10.0 * (CountLess(peers, raw) as real + 0.5 * CountEqual(peers, raw) as real + 0.5)
  }

  /** The raw score's percentile among the peers with itself appended, in counts over the peers alone. */
  lemma PercentileAmongPeers(raw: real, peers: seq<real>)
    ensures PercentileScore(raw, peers + [raw]) == OwnMidRank(raw, peers) / (|peers| as real + 1.0)
  {
    var s := peers + [raw];
    CountsOfAppend(peers, raw, raw);
    OwnEntryCounted(PercentileScore(raw, s) * |s| as real, CountLess(s, raw) as real, CountEqual(s, raw) as real,
                    CountLess(peers, raw) as real, CountEqual(peers, raw) as real);
    ProductToQuotient(PercentileScore(raw, s), |s| as real, OwnMidRank(raw, peers));
  }

  lemma OwnEntryCounted(scaled: real, less: real, equal: real, peerLess: real, peerEqual: real)
    requires scaled == 10.0 * (less + 0.5 * equal)
    requires less == peerLess && equal == peerEqual + 1.0
    ensures scaled == 10.0 * (peerLess + 0.5 * peerEqual + 0.5)
  {
  }

  lemma ProductToQuotient(a: real, n: real, an: real)
    requires n > 0.0 && a * n == an
    ensures a == an / n
  {
  }

  /** Against a fixed population, a higher raw score has at least as high a percentile
      among the peers with itself appended. */
  lemma OwnPercentileMonotone(raw1: real, raw2: real, peers: seq<real>)
    requires raw1 <= raw2
    ensures PercentileScore(raw1, peers + [raw1]) <= PercentileScore(raw2, peers + [raw2])
  {
    MidRankCountMonotone(peers, raw1, raw2);
    PercentileAmongPeers(raw1, peers);
    PercentileAmongPeers(raw2, peers);
    QuotientMonotone(OwnMidRank(raw1, peers), OwnMidRank(raw2, peers), |peers| as real + 1.0);
  }

  /** Against a fixed population, a higher raw score gets a strictly higher adjusted score. */
  lemma PeerAdjustMonotone(raw1: real, raw2: real, peers: seq<real>)
    requires raw1 < raw2
    ensures PeerAdjust(raw1, peers) < PeerAdjust(raw2, peers)
  {
    OwnPercentileMonotone(raw1, raw2, peers);
  }

  /** With no other universities, the raw score ranks exactly in the middle. */
  lemma PeerAdjustWithoutPeers(raw: real)
    ensures PeerAdjust(raw, []) == 0.7 * raw + 1.5
  {
    assert [] + [raw] == [raw];
    PercentileAllEqual(raw, [raw]);
  }

  /** The peer-adjusted scores of the five factors, each against its own population. */
  function AdjustedScores(raw: map<Factor, real>, peers: map<Factor, seq<real>>): (adj: map<Factor, real>)
    requires Complete(raw) && Complete(peers)
    ensures Complete(adj)
  {
    map[QTF := PeerAdjust(raw[QTF], peers[QTF]),
        TM := PeerAdjust(raw[TM], peers[TM]),
        PS := PeerAdjust(raw[PS], peers[PS]),
        CC := PeerAdjust(raw[CC], peers[CC]),
        RO := PeerAdjust(raw[RO], peers[RO])]
  }

  /** Each factor is adjusted against its own population only. */
  lemma AdjustedAt(raw: map<Factor, real>, peers: map<Factor, seq<real>>, f: Factor)
    requires Complete(raw) && Complete(peers)
    ensures f in raw && f in peers && f in AdjustedScores(raw, peers)
    ensures AdjustedScores(raw, peers)[f] == PeerAdjust(raw[f], peers[f])
  {
  }

  /** Every value of a complete mapping lies in [lo, hi]. */
  predicate AllBetween(m: map<Factor, real>, lo: real, hi: real)
    requires Complete(m)
  {
    lo <= m[QTF] <= hi && lo <= m[TM] <= hi && lo <= m[PS] <= hi && lo <= m[CC] <= hi && lo <= m[RO] <= hi
  }

  lemma AllBetweenValues(m: map<Factor, real>, lo: real, hi: real)
    requires Complete(m) && AllBetween(m, lo, hi)
    ensures forall i :: 0 <= i < |Values(m)| ==> lo <= Values(m)[i] <= hi
  {
    forall i | 0 <= i < |Values(m)|
      ensures lo <= Values(m)[i] <= hi
    {
      assert Values(m)[i] == m[Order[i]];
    }
  }

  /** Raw factor scores on the 0-10 scale give adjusted scores on the 0-10 scale. */
  lemma AdjustedInScale(raw: map<Factor, real>, peers: map<Factor, seq<real>>)
    requires Complete(raw) && Complete(peers) && AllBetween(raw, 0.0, 10.0)
    ensures AllBetween(AdjustedScores(raw, peers), 0.0, 10.0)
  {
  }

  /** Base score: the weighted sum of the adjusted scores under the global weights. */
  /** The base score: the weighted sum of the adjusted scores, in factor order. */
  function BaseScore(w: map<Factor, real>, adj: map<Factor, real>): real
    requires Complete(w) && Complete(adj)
  {
    Dot(Values(w), Values(adj))
  }

  /** Under a valid weight set the base score lies between the lowest and highest bounds
      of the adjusted scores. */
  lemma BaseBetween(w: map<Factor, real>, adj: map<Factor, real>, lo: real, hi: real)
    requires ValidWeights(w) && Complete(adj) && AllBetween(adj, lo, hi)
    ensures lo <= BaseScore(w, adj) <= hi
  {
    AllBetweenValues(adj, lo, hi);
    ConvexCombinationBetween(Values(w), Values(adj), lo, hi);
  }

  /** The base score, written out factor by factor as the source sums it. */
  lemma BaseScoreWrittenOut(w: map<Factor, real>, adj: map<Factor, real>)
    requires Complete(w) && Complete(adj)
    ensures BaseScore(w, adj) == w[QTF] * adj[QTF] + w[TM] * adj[TM] + w[PS] * adj[PS]
                               + w[CC] * adj[CC] + w[RO] * adj[RO]
  {
    DotOfFive(w[QTF], w[TM], w[PS], w[CC], w[RO], adj[QTF], adj[TM], adj[PS], adj[CC], adj[RO]);
  }

  /** Under non-negative weights the base score lies between lo and hi times the total
      weight, whether or not the weights sum to one. */
  lemma BaseBetweenTotal(w: map<Factor, real>, adj: map<Factor, real>, lo: real, hi: real)
    requires NonNegativeWeights(w) && Complete(adj) && AllBetween(adj, lo, hi)
    ensures lo * Sum(Values(w)) <= BaseScore(w, adj) <= hi * Sum(Values(w))
  {
    AllBetweenValues(adj, lo, hi);
    DotBetween(Values(w), Values(adj), lo, hi);
  }

  /** Raw scores on the 0-10 scale and non-negative weights keep the base score of the
      whole aggregation between 0 and ten times the total weight. */
  lemma EvaluatedBaseBetween(raw: map<Factor, real>, peers: map<Factor, seq<real>>, w: map<Factor, real>)
    requires Complete(raw) && Complete(peers) && AllBetween(raw, 0.0, 10.0) && NonNegativeWeights(w)
    ensures 0.0 * Sum(Values(w)) <= Evaluate(raw, peers, w).base <= 10.0 * Sum(Values(w))
  {
    var adj := AdjustedScores(raw, peers);
    AdjustedInScale(raw, peers);
    BaseBetweenTotal(w, adj, 0.0, 10.0);
    var s := Sum(Values(w));
    var b := BaseScore(w, adj);
    assert 0.0 * s <= b <= 10.0 * s;
    assert Evaluate(raw, peers, w).base == b;
  }

  /** The adjusted scores above the high threshold, in their original order. */
  function HighScoring(s: seq<real>): (r: seq<real>)
    ensures forall i :: 0 <= i < |r| ==> r[i] > HighThreshold
    ensures |r| == CountGreater(s, HighThreshold)
    ensures multiset(r) <= multiset(s)
  {
    if s == [] then []
    else
      assert s == [s[0]] + s[1..];
      var rest := HighScoring(s[1..]);
      if s[0] > HighThreshold then [s[0]] + rest else rest
  }

  /** No high score is left out. */
  lemma {:induction false} HighScoringComplete(s: seq<real>)
    ensures forall i :: 0 <= i < |s| && s[i] > HighThreshold ==> s[i] in HighScoring(s)
  {
    if s != [] {
      HighScoringComplete(s[1..]);
      assert forall i :: 1 <= i < |s| ==> s[i] == s[1..][i - 1];
    }
  }

  /** Half the amount by which the mean of the three largest high scores exceeds the
      threshold, when at least three scores are high; otherwise nothing. A negative bonus
      is floored at zero, which the guard on high scores makes unreachable. */
  function SynergyBonus(s: seq<real>): (b: real)
    ensures b >= 0.0
    ensures CountGreater(s, HighThreshold) < 3 ==> b == 0.0
    ensures CountGreater(s, HighThreshold) >= 3 ==> b > 0.0
  {
    var high := HighScoring(s);
    if |high| >= 3 then
      TopThreeAboveThreshold(high);
      var top := SortDescending(high)[..3];
      var bonus := 0.5 * (Mean(top) - HighThreshold);
      if bonus < 0.0 then 0.0 else bonus
    else 0.0
  }

  /** The three largest high scores average above the threshold and at most the largest of them. */
  lemma TopThreeAboveThreshold(high: seq<real>)
    requires |high| >= 3 && forall i :: 0 <= i < |high| ==> high[i] > HighThreshold
    ensures |SortDescending(high)| == |high|
    ensures HighThreshold < Mean(SortDescending(high)[..3]) <= SortDescending(high)[0]
  {
    TopOfSortIsLargest(high, 3);
    var sorted := SortDescending(high);
    var top := sorted[..3];
    forall i | 0 <= i < 3
      ensures HighThreshold < top[i] <= sorted[0]
    {
      assert top[i] in multiset(top);
      assert top[i] in multiset(high);
    }
    MeanBetween(top, HighThreshold, sorted[0]);
  }

  /** The bonus is exactly half the excess of the mean of the three largest high scores. */
  lemma SynergyBonusOfTopThree(s: seq<real>)
    requires CountGreater(s, HighThreshold) >= 3
    ensures |SortDescending(HighScoring(s))| >= 3
    ensures SynergyBonus(s) == 0.5 * (Mean(SortDescending(HighScoring(s))[..3]) - HighThreshold)
  {
    TopThreeAboveThreshold(HighScoring(s));
  }

  /** Scores of at most 10 give a bonus of at most 1.5. */
  lemma SynergyBonusAtMost(s: seq<real>)
    requires forall i :: 0 <= i < |s| ==> s[i] <= 10.0
    ensures SynergyBonus(s) <= 1.5
  {
    var high := HighScoring(s);
    if |high| >= 3 {
      TopThreeAboveThreshold(high);
      var sorted := SortDescending(high);
      assert sorted[0] in multiset(high) by {
        assert sorted[0] in multiset(sorted);
      }
      assert sorted[0] in multiset(s);
    }
  }

  /** 0.2 for every adjusted score below the failing threshold. */
  function Penalty(s: seq<real>): (p: real)
    ensures 0.0 <= p <= PenaltyPerFactor * |s| as real
    ensures p == 0.0 <==> forall i :: 0 <= i < |s| ==> s[i] >= FailThreshold
  {
    CountLessBounds(s, FailThreshold);
    PenaltyPerFactor * CountLess(s, FailThreshold) as real
  }

  lemma {:induction false} CountLessBounds(s: seq<real>, v: real)
    ensures CountLess(s, v) <= |s|
    ensures CountLess(s, v) == 0 <==> forall i :: 0 <= i < |s| ==> s[i] >= v
  {
    if s != [] {
      CountLessBounds(s[1..], v);
      assert forall i :: 1 <= i < |s| ==> s[i] == s[1..][i - 1];
    }
  }

  /** max(lo, min(hi, x)). */
  function Clamp(x: real, lo: real, hi: real): (r: real)
    requires lo <= hi
    ensures lo <= r <= hi
    ensures lo <= x <= hi ==> r == x
    ensures x < lo ==> r == lo
    ensures x > hi ==> r == hi
  {
    var upper := if hi < x then hi else x;
    if lo > upper then lo else upper
  }

  /** A 0-10 score as a share of the 1000-point scale. */
  function Rescale(final10: real): (r: real)
    ensures r == 100.0 * final10
  {
    (final10 / 10.0) * MaxScore
  }

  /** The aggregation steps after peer adjustment: base score, synergy bonus, penalty,
      the clamped 0-10 score and the 1000-point score. */
  function Combine(adj: map<Factor, real>, w: map<Factor, real>): (b: Breakdown)
    requires Complete(adj) && Complete(w)
    ensures b.adjusted == adj
    ensures b.base == BaseScore(w, adj)
    ensures b.bonus == SynergyBonus(Values(adj)) && b.penalty == Penalty(Values(adj))
    ensures b.final10 == Clamp(b.base + b.bonus - b.penalty, 0.0, 10.0)
    ensures 0.0 <= b.final10 <= 10.0 && 0.0 <= b.final1000 <= MaxScore
    ensures b.final1000 == 100.0 * b.final10
  {
    var base := BaseScore(w, adj);
    var bonus := SynergyBonus(Values(adj));
    var penalty := Penalty(Values(adj));
    var final10 := Clamp(base + bonus - penalty, 0.0, 10.0);
    Breakdown(adj, base, bonus, penalty, final10, Rescale(final10))
  }

  /** The whole aggregation as a function of the raw scores, the populations and the weights. */
  function Evaluate(raw: map<Factor, real>, peers: map<Factor, seq<real>>, w: map<Factor, real>): (b: Breakdown)
    requires Complete(raw) && Complete(peers) && Complete(w)
    ensures 0.0 <= b.final1000 <= MaxScore
  {
    Combine(AdjustedScores(raw, peers), w)
  }

  /** The documented formula, 100 times base plus bonus minus penalty, holds whenever that
      total is on the 0-10 scale; outside it the clamp pins the score to 0 or 1000. */
  lemma FinalFollowsDocumentedFormula(raw: map<Factor, real>, peers: map<Factor, seq<real>>, w: map<Factor, real>)
    requires Complete(raw) && Complete(peers) && Complete(w)
    ensures var b := Evaluate(raw, peers, w);
      var total := b.base + b.bonus - b.penalty;
      && (0.0 <= total <= 10.0 ==> b.final1000 == 100.0 * total)
      && (total > 10.0 ==> b.final1000 == MaxScore)
      && (total < 0.0 ==> b.final1000 == 0.0)
  {
  }

  /** Without bonus, penalty or clamping the final score is the base score: fewer than three
      adjusted scores above 7, none below 3, and a base score on the 0-10 scale (which
      BaseBetween gives for a valid weight set and adjusted scores on the scale). */
  lemma PlainScore(adj: map<Factor, real>, w: map<Factor, real>)
    requires Complete(adj) && Complete(w) && 0.0 <= BaseScore(w, adj) <= 10.0
    requires CountGreater(Values(adj), HighThreshold) < 3
    requires forall i :: 0 <= i < |Values(adj)| ==> Values(adj)[i] >= FailThreshold
    ensures Combine(adj, w).final10 == Combine(adj, w).base
  {
    var b := Combine(adj, w);
    ClampOfPlainTotal(b.base, b.bonus, b.penalty, b.final10);
  }

  lemma ClampOfPlainTotal(base: real, bonus: real, penalty: real, final10: real)
    requires 0.0 <= base <= 10.0 && bonus == 0.0 && penalty == 0.0
    requires final10 == Clamp(base + bonus - penalty, 0.0, 10.0)
    ensures final10 == base
  {
  }

  /** When every adjusted score equals c, a valid weight set gives base score c. */
  lemma UniformBase(w: map<Factor, real>, adj: map<Factor, real>, c: real)
    requires ValidWeights(w) && Complete(adj) && AllBetween(adj, c, c)
    ensures BaseScore(w, adj) == c
  {
    BaseBetween(w, adj, c, c);
  }

  /** With the Research-focused row as the table lists it, the weights total 0.9, so a
      university whose adjusted scores all equal c gets base score 0.9 * c: a perfect
      university reaches a base of 9 rather than 10. */
  lemma ResearchAsWrittenShrinksBase(adj: map<Factor, real>, c: real)
    requires Complete(adj) && AllBetween(adj, c, c)
    ensures BaseScore(PresetAsWritten(ResearchFocused), adj) == 0.9 * c
  {
    BaseScoreWrittenOut(PresetAsWritten(ResearchFocused), adj);
  }

  /** The corrected Research-focused weights give a perfect university a base of 10. */
  lemma ResearchCorrectedKeepsBase(adj: map<Factor, real>, c: real)
    requires Complete(adj) && AllBetween(adj, c, c)
    ensures BaseScore(Preset(ResearchFocused), adj) == c
  {
    PresetValid(ResearchFocused);
    UniformBase(Preset(ResearchFocused), adj, c);
  }

  /** Adjusted scores of 5 on every factor score 450 under the Research-focused row as
      written and 500 under the corrected row: no bonus or penalty hides the difference. */
  lemma ResearchRowsAtFive(adj: map<Factor, real>)
    requires Complete(adj) && AllBetween(adj, 5.0, 5.0)
    ensures Combine(adj, PresetAsWritten(ResearchFocused)).final1000 == 450.0
    ensures Combine(adj, Preset(ResearchFocused)).final1000 == 500.0
  {
    assert Values(adj) == [5.0, 5.0, 5.0, 5.0, 5.0];
    assert CountGreater(Values(adj), HighThreshold) == 0 by {
      assert CountGreater([5.0], HighThreshold) == 0;
      assert CountGreater([5.0, 5.0, 5.0, 5.0], HighThreshold) == 0 by {
        assert [5.0, 5.0, 5.0, 5.0][1..] == [5.0, 5.0, 5.0];
        assert [5.0, 5.0, 5.0][1..] == [5.0, 5.0];
        assert [5.0, 5.0][1..] == [5.0];
      }
      assert [5.0, 5.0, 5.0, 5.0, 5.0][1..] == [5.0, 5.0, 5.0, 5.0];
    }
    ResearchAsWrittenShrinksBase(adj, 5.0);
    PlainScore(adj, PresetAsWritten(ResearchFocused));
    ResearchCorrectedKeepsBase(adj, 5.0);
    PlainScore(adj, Preset(ResearchFocused));
  }

  /** A mapping holding the adjusted score at each factor of Order, and nothing else,
      is the adjusted-score mapping. */
  lemma FilledInOrderIsAdjusted(m: map<Factor, real>, raw: map<Factor, real>, peers: map<Factor, seq<real>>)
    requires Complete(raw) && Complete(peers)
    requires forall f :: f in m <==> f in Order
    requires forall j :: 0 <= j < |Order| ==> m[Order[j]] == PeerAdjust(raw[Order[j]], peers[Order[j]])
    ensures m == AdjustedScores(raw, peers)
  {
    var adj := AdjustedScores(raw, peers);
    assert m.Keys == adj.Keys by {
      OrderListsEachFactorOnce(QTF);
    }
    forall f | f in m
      ensures m[f] == adj[f]
    {
      OrderListsEachFactorOnce(f);
      var j :| 0 <= j < |Order| && Order[j] == f;
      AdjustedAt(raw, peers, f);
    }
  }

  /** A breakdown whose parts are computed from the adjusted scores as the source computes
      them is the one Combine gives. */
  lemma CombineFromParts(adj: map<Factor, real>, w: map<Factor, real>, b: Breakdown)
    requires Complete(adj) && Complete(w)
    requires b.adjusted == adj && b.base == BaseScore(w, adj)
    requires b.bonus == SynergyBonus(Values(adj))
    requires b.penalty == PenaltyPerFactor * CountLess(Values(adj), FailThreshold) as real
    requires b.final10 == Clamp(b.base + b.bonus - b.penalty, 0.0, 10.0)
    requires b.final1000 == (b.final10 / 10.0) * MaxScore
    ensures b == Combine(adj, w)
  {
  }

  /** Visits the factors in order, adjusting each raw score against its own population. */
  method AdjustEachFactor(raw: map<Factor, real>, peers: map<Factor, seq<real>>)
    returns (adjusted: map<Factor, real>)
    requires Complete(raw) && Complete(peers)
    ensures adjusted == AdjustedScores(raw, peers)
  {
    adjusted := map[];
    for i := 0 to |Order|
      invariant forall f :: f in adjusted <==> f in Order[..i]
      invariant forall j :: 0 <= j < i ==> adjusted[Order[j]] == PeerAdjust(raw[Order[j]], peers[Order[j]])
    {
      var f := Order[i];
      adjusted := adjusted[f := PeerAdjust(raw[f], peers[f])];
    }
    assert Order[..|Order|] == Order;
    FilledInOrderIsAdjusted(adjusted, raw, peers);
  }

  /** The synergy step: collects the high scores, and when there are at least three,
      takes half the excess of the mean of the top three, floored at zero. */
  method ComputeSynergyBonus(values: seq<real>) returns (bonus: real)
    ensures bonus == SynergyBonus(values)
  {
    var high := HighScoring(values);
    bonus := 0.0;
    if |high| >= 3 {
      TopThreeAboveThreshold(high);
      var avgTop3 := Mean(SortDescending(high)[..3]);
      bonus := 0.5 * (avgTop3 - HighThreshold);
      if bonus < 0.0 {
        bonus := 0.0;
      }
      SynergyBonusOfTopThree(values);
    }
  }

  /** From the adjusted scores: the base score, the synergy bonus, the penalty, the clamped
      0-10 score and the 1000-point score. */
  method CombineAdjusted(adjusted: map<Factor, real>, weights: map<Factor, real>) returns (b: Breakdown)
    requires Complete(adjusted) && Complete(weights)
    ensures b == Combine(adjusted, weights)
  {
    var baseScore := BaseScore(weights, adjusted);
    var values := Values(adjusted);
    var bonus := ComputeSynergyBonus(values);
    var penalty := PenaltyPerFactor * CountLess(values, FailThreshold) as real;
    var final10 := baseScore + bonus - penalty;
    final10 := Clamp(final10, 0.0, 10.0);
    var final1000 := (final10 / 10.0) * MaxScore;
    b := Breakdown(adjusted, baseScore, bonus, penalty, final10, final1000);
    CombineFromParts(adjusted, weights, b);
  }

  /** Aggregates the raw factor scores the way the results step does: adjusts each factor
      against its population in factor order, then combines the adjusted scores. */
  method Aggregate(raw: map<Factor, real>, peers: map<Factor, seq<real>>, weights: map<Factor, real>)
    returns (b: Breakdown)
    requires Complete(raw) && Complete(peers) && Complete(weights)
    ensures b == Evaluate(raw, peers, weights)
    ensures 0.0 <= b.final1000 <= MaxScore
  {
    var adjusted := AdjustEachFactor(raw, peers);
    b := CombineAdjusted(adjusted, weights);
  }
}
