/** One press of "Calculate University Score": the five factor calculators on the submitted
    metrics, then aggregation under the selected global weights. The random reference data
    of the source are a parameter. */
module Scoring {
  import opened Factors
  import opened Weights
  import opened Aggregation
  import opened Series

  /** The submitted metrics of one university, grouped by factor. */
  datatype Submission = Submission(
    hIndex: real, clarityRating: real, approachability: real,
    lecture: real, discussion: real, practical: real,
    placementRate: real, employerReputation: real, partnerships: real, alumniSalary: real, ventures: real,
    inclusionRating: real, representation: real, engagement: real, retention: real, cultural: real,
    expenditure: real, phds: real, fwci: real, labRating: real, funding: real, mentorshipRating: real)

  /** The reference populations: four sub-metric populations and one population of
      overall scores per factor. */
  datatype ReferenceData = ReferenceData(
    approachability: seq<real>, placementRate: seq<real>, alumniSalary: seq<real>,
    researchOutput: seq<real>, factorScores: map<Factor, seq<real>>)

  /** The five raw factor scores of a submission. */
  function RawFactorScores(u: Submission, ref: ReferenceData): (raw: map<Factor, real>)
    ensures Complete(raw)
  {
    map[QTF := Qtf(u.hIndex, u.clarityRating, u.approachability, ref.approachability).score,
        TM := Tm(u.lecture, u.discussion, u.practical).score,
        PS := Ps(u.placementRate, u.employerReputation, u.partnerships, u.alumniSalary, u.ventures,
                 ref.placementRate, ref.alumniSalary).score,
        CC := Cc(u.inclusionRating, u.representation, u.engagement, u.retention, u.cultural).score,
        RO := Ro(u.expenditure, u.phds, u.fwci, u.labRating, u.funding, u.mentorshipRating,
                 ref.researchOutput).score]
  }

  /** Every min-max scaled input inside its reference range, every Likert rating in 1-5 and
      every pass-through input on the 0-10 scale. */
  predicate WithinScalingRanges(u: Submission)
  {
    && HIndexMin <= u.hIndex <= HIndexMax && 1.0 <= u.clarityRating <= 5.0
    && InScale(u.lecture) && InScale(u.discussion) && InScale(u.practical)
    && 1.0 <= u.employerReputation <= 5.0
    && 0.0 <= u.partnerships <= PartnershipsMax && 0.0 <= u.ventures <= VenturesMax
    && 1.0 <= u.inclusionRating <= 5.0
    && InScale(u.representation) && InScale(u.engagement) && InScale(u.retention) && InScale(u.cultural)
    && ExpenditureMin <= u.expenditure <= ExpenditureMax && PhdMin <= u.phds <= PhdMax
    && FundingMin <= u.funding <= FundingMax
    && 1.0 <= u.labRating <= 5.0 && 1.0 <= u.mentorshipRating <= 5.0
  }

  /** Inputs within the scaling ranges give raw factor scores on the 0-10 scale. */
  lemma RawScoresInScale(u: Submission, ref: ReferenceData)
    requires WithinScalingRanges(u)
    ensures AllBetween(RawFactorScores(u, ref), 0.0, 10.0)
  {
    QtfInScale(u.hIndex, u.clarityRating, u.approachability, ref.approachability);
    TmInScale(u.lecture, u.discussion, u.practical);
    PsInScale(u.placementRate, u.employerReputation, u.partnerships, u.alumniSalary, u.ventures,
              ref.placementRate, ref.alumniSalary);
    CcInScale(u.inclusionRating, u.representation, u.engagement, u.retention, u.cultural);
    RoInScale(u.expenditure, u.phds, u.fwci, u.labRating, u.funding, u.mentorshipRating, ref.researchOutput);
  }

  /** With inputs within the scaling ranges the base score lies between 0 and ten times
      the selected weights' total: on the 0-10 scale for every scheme, at most 9 under the
      Research-focused row as written, and 0 when every custom slider is at zero. Only bonus
      and penalty can push the total outside the scale. */
  lemma BaseScoreInScale(u: Submission, ref: ReferenceData, scheme: Scheme)
    requires Complete(ref.factorScores) && WithinScalingRanges(u)
    requires scheme.Custom? ==> scheme.percent.NonNegative()
    ensures 0.0 <= Evaluate(RawFactorScores(u, ref), ref.factorScores, SchemeWeights(scheme)).base
               <= 10.0 * SchemeTotal(scheme)
    ensures Evaluate(RawFactorScores(u, ref), ref.factorScores, SchemeWeights(scheme)).base <= 10.0
  {
    var raw := RawFactorScores(u, ref);
    var w := SchemeWeights(scheme);
    RawScoresInScale(u, ref);
    SchemeWeightsValid(scheme);
    EvaluatedBaseBetween(raw, ref.factorScores, w);
    BaseUnderTotal(Evaluate(raw, ref.factorScores, w).base, Sum(Values(w)), SchemeTotal(scheme));
  }

  lemma BaseUnderTotal(base: real, sum: real, total: real)
    requires 0.0 * sum <= base <= 10.0 * sum && sum == total && total <= 1.0
    ensures 0.0 <= base <= 10.0 * total && base <= 10.0
  {
  }

  /** Computes the selected weights, the five raw factor scores and the aggregate. */
  method CalculateUniversityScore(u: Submission, ref: ReferenceData, scheme: Scheme)
    returns (b: Breakdown, renormalized: bool)
    requires Complete(ref.factorScores)
    ensures b == Evaluate(RawFactorScores(u, ref), ref.factorScores, SchemeWeights(scheme))
    ensures renormalized <==> scheme.Custom? && scheme.percent.Total() != 100
    ensures 0.0 <= b.final1000 <= MaxScore
  {
    var weights;
    weights, renormalized := CurrentWeights(scheme);
    var qtf := Qtf(u.hIndex, u.clarityRating, u.approachability, ref.approachability);
    var tm := Tm(u.lecture, u.discussion, u.practical);
    var ps := Ps(u.placementRate, u.employerReputation, u.partnerships, u.alumniSalary, u.ventures,
                 ref.placementRate, ref.alumniSalary);
    var cc := Cc(u.inclusionRating, u.representation, u.engagement, u.retention, u.cultural);
    var ro := Ro(u.expenditure, u.phds, u.fwci, u.labRating, u.funding, u.mentorshipRating, ref.researchOutput);
    var raw := map[QTF := qtf.score, TM := tm.score, PS := ps.score, CC := cc.score, RO := ro.score];
    b := Aggregate(raw, ref.factorScores, weights);
  }
}
