/** The five factor calculators. Each normalizes its sub-metrics to the 0-10 scale,
    combines them with fixed local weights, and returns the factor score together with
    the named sub-metric scores it used. The reference populations that the source
    draws at random are parameters here. */
module Factors {
  import opened Series
  import opened Normalization

  // Fixed reference ranges for min-max scaling.
  const HIndexMin := 1.0
  const HIndexMax := 50.0
  const ExpenditureMin := 1000.0
  const ExpenditureMax := 50000.0
  const PhdMin := 10.0
  const PhdMax := 500.0
  const FundingMin := 0.0
  const FundingMax := 10000.0
  const PartnershipsMax := 100.0
  const VenturesMax := 20.0

  // Local weights of each factor, in the order of its sub-metrics.
  const QtfWeights: seq<real> := [0.40, 0.30, 0.30]
  const TmWeights: seq<real> := [0.30, 0.40, 0.30]
  const PsWeights: seq<real> := [0.30, 0.20, 0.20, 0.15, 0.15]
  const CcWeights: seq<real> := [0.30, 0.20, 0.20, 0.15, 0.15]
  const RoWeights: seq<real> := [0.20, 0.15, 0.25, 0.15, 0.15, 0.10]

  /** The keys of the factors' sub-score dictionaries, one constructor per key text, so
      distinct sub-metrics are reported under distinct keys. */
  datatype SubMetric =
    | Expertise | Clarity | Approachability
    | LectureEffectiveness | DiscussionBased | PracticalSessions
    | PlacementRate | EmployerReputation | IndustryPartnerships | AlumniSalaryProgression | EntrepreneurialSuccess
    | InclusionIndex | RepresentationQuotient | StudentEngagementRate | RetentionOfDiverseGroups | CulturalCompetencyCompletion
    | ResearchExpenditure | PhdAttainment | ResearchOutput | LabAccessibility | FundingOpportunities | MentorshipPrograms

  /** One entry of a factor's sub-score dictionary. */
  datatype SubScore = SubScore(metric: SubMetric, value: real)

  /** A factor score and the sub-metric scores, in display order, that produced it. */
  datatype FactorResult = FactorResult(score: real, subScores: seq<SubScore>)

  /** The keys of a sub-score list, in order. */
  function Metrics(subs: seq<SubScore>): seq<SubMetric>
  {
    seq(|subs|, i requires 0 <= i < |subs| => subs[i].metric)
  }

  /** The values of a sub-score list, in order. */
  function SubValues(subs: seq<SubScore>): seq<real>
  {
    seq(|subs|, i requires 0 <= i < |subs| => subs[i].value)
  }

  predicate InScale(v: real)
  {
    0.0 <= v <= 10.0
  }

  /** Every factor's local weights are non-negative and sum to one. */
  lemma LocalWeightsConvex()
    ensures IsConvex(QtfWeights) && IsConvex(TmWeights) && IsConvex(PsWeights)
    ensures IsConvex(CcWeights) && IsConvex(RoWeights)
  {
    SumOfThree(0.40, 0.30, 0.30);
    SumOfThree(0.30, 0.40, 0.30);
    SumOfFive(0.30, 0.20, 0.20, 0.15, 0.15);
    SumOfSix(0.20, 0.15, 0.25, 0.15, 0.15, 0.10);
  }

  /** A factor whose sub-scores all lie in the 0-10 scale scores within it. */
  lemma FactorInScale(weights: seq<real>, r: FactorResult)
    requires IsConvex(weights) && |weights| == |r.subScores|
    requires r.score == Dot(weights, SubValues(r.subScores))
    requires forall i :: 0 <= i < |r.subScores| ==> InScale(r.subScores[i].value)
    ensures InScale(r.score)
  {
    ConvexCombinationBetween(weights, SubValues(r.subScores), 0.0, 10.0);
  }

  /** A weighted sum over a three-entry sub-score list, written out. */
  lemma WeightedThree(w: seq<real>, subs: seq<SubScore>)
    requires |w| == 3 && |subs| == 3
    ensures Dot(w, SubValues(subs)) == w[0] * subs[0].value + w[1] * subs[1].value + w[2] * subs[2].value
  {
    assert w == [w[0], w[1], w[2]];
    assert SubValues(subs) == [subs[0].value, subs[1].value, subs[2].value];
    DotOfThree(w[0], w[1], w[2], subs[0].value, subs[1].value, subs[2].value);
  }

  /** A weighted sum over a five-entry sub-score list, written out. */
  lemma WeightedFive(w: seq<real>, subs: seq<SubScore>)
    requires |w| == 5 && |subs| == 5
    ensures Dot(w, SubValues(subs)) == w[0] * subs[0].value + w[1] * subs[1].value + w[2] * subs[2].value
                                      + w[3] * subs[3].value + w[4] * subs[4].value
  {
    assert w == [w[0], w[1], w[2], w[3], w[4]];
    assert SubValues(subs) == [subs[0].value, subs[1].value, subs[2].value, subs[3].value, subs[4].value];
    DotOfFive(w[0], w[1], w[2], w[3], w[4],
              subs[0].value, subs[1].value, subs[2].value, subs[3].value, subs[4].value);
  }

  /** A weighted sum over a six-entry sub-score list, written out. */
  lemma WeightedSix(w: seq<real>, subs: seq<SubScore>)
    requires |w| == 6 && |subs| == 6
    ensures Dot(w, SubValues(subs)) == w[0] * subs[0].value + w[1] * subs[1].value + w[2] * subs[2].value
                                      + w[3] * subs[3].value + w[4] * subs[4].value + w[5] * subs[5].value
  {
    assert w == [w[0], w[1], w[2], w[3], w[4], w[5]];
    assert SubValues(subs) == [subs[0].value, subs[1].value, subs[2].value, subs[3].value, subs[4].value, subs[5].value];
    DotOfSix(w[0], w[1], w[2], w[3], w[4], w[5],
             subs[0].value, subs[1].value, subs[2].value, subs[3].value, subs[4].value, subs[5].value);
  }

  /** Each factor's score formula is the weighted sum of its sub-scores under its local weights. */
  lemma QtfWeighted(a: real, b: real, c: real)
    ensures Dot(QtfWeights, SubValues([SubScore(Expertise, a), SubScore(Clarity, b), SubScore(Approachability, c)]))
         == 0.40 * a + 0.30 * b + 0.30 * c
  {
    WeightedThree(QtfWeights, [SubScore(Expertise, a), SubScore(Clarity, b), SubScore(Approachability, c)]);
  }

  lemma TmWeighted(a: real, b: real, c: real)
    ensures Dot(TmWeights, SubValues([SubScore(LectureEffectiveness, a), SubScore(DiscussionBased, b),
                                      SubScore(PracticalSessions, c)]))
         == 0.30 * a + 0.40 * b + 0.30 * c
  {
    WeightedThree(TmWeights, [SubScore(LectureEffectiveness, a), SubScore(DiscussionBased, b),
                              SubScore(PracticalSessions, c)]);
  }

  lemma PsWeighted(a: real, b: real, c: real, d: real, e: real)
    ensures Dot(PsWeights, SubValues([SubScore(PlacementRate, a), SubScore(EmployerReputation, b),
                                      SubScore(IndustryPartnerships, c), SubScore(AlumniSalaryProgression, d),
                                      SubScore(EntrepreneurialSuccess, e)]))
         == 0.30 * a + 0.20 * b + 0.20 * c + 0.15 * d + 0.15 * e
  {
    WeightedFive(PsWeights, [SubScore(PlacementRate, a), SubScore(EmployerReputation, b),
                             SubScore(IndustryPartnerships, c), SubScore(AlumniSalaryProgression, d),
                             SubScore(EntrepreneurialSuccess, e)]);
  }

  lemma CcWeighted(a: real, b: real, c: real, d: real, e: real)
    ensures Dot(CcWeights, SubValues([SubScore(InclusionIndex, a), SubScore(RepresentationQuotient, b),
                                      SubScore(StudentEngagementRate, c), SubScore(RetentionOfDiverseGroups, d),
                                      SubScore(CulturalCompetencyCompletion, e)]))
         == 0.30 * a + 0.20 * b + 0.20 * c + 0.15 * d + 0.15 * e
  {
    WeightedFive(CcWeights, [SubScore(InclusionIndex, a), SubScore(RepresentationQuotient, b),
                             SubScore(StudentEngagementRate, c), SubScore(RetentionOfDiverseGroups, d),
                             SubScore(CulturalCompetencyCompletion, e)]);
  }

  lemma RoWeighted(a: real, b: real, c: real, d: real, e: real, f: real)
    ensures Dot(RoWeights, SubValues([SubScore(ResearchExpenditure, a), SubScore(PhdAttainment, b),
                                      SubScore(ResearchOutput, c), SubScore(LabAccessibility, d),
                                      SubScore(FundingOpportunities, e), SubScore(MentorshipPrograms, f)]))
         == 0.20 * a + 0.15 * b + 0.25 * c + 0.15 * d + 0.15 * e + 0.10 * f
  {
    WeightedSix(RoWeights, [SubScore(ResearchExpenditure, a), SubScore(PhdAttainment, b),
                            SubScore(ResearchOutput, c), SubScore(LabAccessibility, d),
                            SubScore(FundingOpportunities, e), SubScore(MentorshipPrograms, f)]);
  }

  /** Quality of Teaching Faculty. */
  function Qtf(hIndex: real, clarityRating: real, approachability: real,
               approachabilityPeers: seq<real>): (r: FactorResult)
    ensures Metrics(r.subScores) == [Expertise, Clarity, Approachability]
    ensures r.score == Dot(QtfWeights, SubValues(r.subScores))
  {
    var expertise := MinMaxScale(hIndex, HIndexMin, HIndexMax);
    var clarity := SurveyAdjust(clarityRating);
    var approach := PercentileScore(approachability, approachabilityPeers);
    var subs := [SubScore(Expertise, expertise),
                 SubScore(Clarity, clarity),
                 SubScore(Approachability, approach)];
    QtfWeighted(expertise, clarity, approach);
    FactorResult(0.40 * expertise + 0.30 * clarity + 0.30 * approach, subs)
  }

  /** Teaching Methods: the three inputs are already on the 0-10 scale and pass through. */
  function Tm(lecture: real, discussion: real, practical: real): (r: FactorResult)
    ensures Metrics(r.subScores) == [LectureEffectiveness, DiscussionBased, PracticalSessions]
    ensures SubValues(r.subScores) == [lecture, discussion, practical]
    ensures r.score == Dot(TmWeights, SubValues(r.subScores))
  {
    var subs := [SubScore(LectureEffectiveness, lecture),
                 SubScore(DiscussionBased, discussion),
                 SubScore(PracticalSessions, practical)];
    assert SubValues(subs) == [lecture, discussion, practical];
    TmWeighted(lecture, discussion, practical);
    FactorResult(0.30 * lecture + 0.40 * discussion + 0.30 * practical, subs)
  }

  /** Placement Services. */
  function Ps(placementRate: real, employerReputation: real, partnerships: real,
              alumniSalary: real, ventures: real,
              placementPeers: seq<real>, salaryPeers: seq<real>): (r: FactorResult)
    ensures Metrics(r.subScores)
         == [PlacementRate, EmployerReputation, IndustryPartnerships, AlumniSalaryProgression, EntrepreneurialSuccess]
    ensures r.score == Dot(PsWeights, SubValues(r.subScores))
  {
    var placement := PercentileScore(placementRate, placementPeers);
    var employer := SurveyAdjust(employerReputation);
    var industry := MinMaxScale(partnerships, 0.0, PartnershipsMax);
    var salary := PercentileScore(alumniSalary, salaryPeers);
    var venture := MinMaxScale(ventures, 0.0, VenturesMax);
    var subs := [SubScore(PlacementRate, placement),
                 SubScore(EmployerReputation, employer),
                 SubScore(IndustryPartnerships, industry),
                 SubScore(AlumniSalaryProgression, salary),
                 SubScore(EntrepreneurialSuccess, venture)];
    PsWeighted(placement, employer, industry, salary, venture);
    FactorResult(0.30 * placement + 0.20 * employer + 0.20 * industry + 0.15 * salary + 0.15 * venture, subs)
  }

  /** Campus Culture: the inclusion rating is survey-adjusted, the other four pass through. */
  function Cc(inclusionRating: real, representation: real, engagement: real,
              retention: real, cultural: real): (r: FactorResult)
    ensures Metrics(r.subScores)
         == [InclusionIndex, RepresentationQuotient, StudentEngagementRate, RetentionOfDiverseGroups, CulturalCompetencyCompletion]
    ensures SubValues(r.subScores)[1..] == [representation, engagement, retention, cultural]
    ensures r.score == Dot(CcWeights, SubValues(r.subScores))
  {
    var inclusion := SurveyAdjust(inclusionRating);
    var subs := [SubScore(InclusionIndex, inclusion),
                 SubScore(RepresentationQuotient, representation),
                 SubScore(StudentEngagementRate, engagement),
                 SubScore(RetentionOfDiverseGroups, retention),
                 SubScore(CulturalCompetencyCompletion, cultural)];
    assert SubValues(subs) == [inclusion, representation, engagement, retention, cultural];
    CcWeighted(inclusion, representation, engagement, retention, cultural);
    FactorResult(0.30 * inclusion + 0.20 * representation + 0.20 * engagement + 0.15 * retention + 0.15 * cultural, subs)
  }

  /** Research Opportunities. */
  function Ro(expenditure: real, phds: real, fwci: real, labRating: real,
              funding: real, mentorshipRating: real, fwciPeers: seq<real>): (r: FactorResult)
    ensures Metrics(r.subScores)
         == [ResearchExpenditure, PhdAttainment, ResearchOutput, LabAccessibility, FundingOpportunities, MentorshipPrograms]
    ensures r.score == Dot(RoWeights, SubValues(r.subScores))
  {
    var expense := MinMaxScale(expenditure, ExpenditureMin, ExpenditureMax);
    var phd := MinMaxScale(phds, PhdMin, PhdMax);
    var output := PercentileScore(fwci, fwciPeers);
    var lab := SurveyAdjust(labRating);
    var fund := MinMaxScale(funding, FundingMin, FundingMax);
    var mentor := SurveyAdjust(mentorshipRating);
    var subs := [SubScore(ResearchExpenditure, expense),
                 SubScore(PhdAttainment, phd),
                 SubScore(ResearchOutput, output),
                 SubScore(LabAccessibility, lab),
                 SubScore(FundingOpportunities, fund),
                 SubScore(MentorshipPrograms, mentor)];
    RoWeighted(expense, phd, output, lab, fund, mentor);
    FactorResult(0.20 * expense + 0.15 * phd + 0.25 * output + 0.15 * lab + 0.15 * fund + 0.10 * mentor, subs)
  }

  /** QTF stays on the 0-10 scale when the h-index lies in its reference range and the
      clarity rating in 1-5; the approachability percentile is always in range. */
  lemma QtfInScale(hIndex: real, clarityRating: real, approachability: real, peers: seq<real>)
    requires HIndexMin <= hIndex <= HIndexMax && 1.0 <= clarityRating <= 5.0
    ensures InScale(Qtf(hIndex, clarityRating, approachability, peers).score)
  {
    PercentileInRange(approachability, peers);
    LocalWeightsConvex();
    FactorInScale(QtfWeights, Qtf(hIndex, clarityRating, approachability, peers));
  }

  lemma TmInScale(lecture: real, discussion: real, practical: real)
    requires InScale(lecture) && InScale(discussion) && InScale(practical)
    ensures InScale(Tm(lecture, discussion, practical).score)
  {
    LocalWeightsConvex();
    FactorInScale(TmWeights, Tm(lecture, discussion, practical));
  }

  lemma PsInScale(placementRate: real, employerReputation: real, partnerships: real,
                  alumniSalary: real, ventures: real, placementPeers: seq<real>, salaryPeers: seq<real>)
    requires 1.0 <= employerReputation <= 5.0
    requires 0.0 <= partnerships <= PartnershipsMax && 0.0 <= ventures <= VenturesMax
    ensures InScale(Ps(placementRate, employerReputation, partnerships, alumniSalary, ventures,
                       placementPeers, salaryPeers).score)
  {
    PercentileInRange(placementRate, placementPeers);
    PercentileInRange(alumniSalary, salaryPeers);
    LocalWeightsConvex();
    FactorInScale(PsWeights, Ps(placementRate, employerReputation, partnerships, alumniSalary, ventures,
                                placementPeers, salaryPeers));
  }

  lemma CcInScale(inclusionRating: real, representation: real, engagement: real,
                  retention: real, cultural: real)
    requires 1.0 <= inclusionRating <= 5.0
    requires InScale(representation) && InScale(engagement) && InScale(retention) && InScale(cultural)
    ensures InScale(Cc(inclusionRating, representation, engagement, retention, cultural).score)
  {
    var r := Cc(inclusionRating, representation, engagement, retention, cultural);
    assert SubValues(r.subScores)[1..][0] == r.subScores[1].value;
    LocalWeightsConvex();
    FactorInScale(CcWeights, r);
  }

  lemma RoInScale(expenditure: real, phds: real, fwci: real, labRating: real,
                  funding: real, mentorshipRating: real, fwciPeers: seq<real>)
    requires ExpenditureMin <= expenditure <= ExpenditureMax && PhdMin <= phds <= PhdMax
    requires FundingMin <= funding <= FundingMax
    requires 1.0 <= labRating <= 5.0 && 1.0 <= mentorshipRating <= 5.0
    ensures InScale(Ro(expenditure, phds, fwci, labRating, funding, mentorshipRating, fwciPeers).score)
  {
    PercentileInRange(fwci, fwciPeers);
    LocalWeightsConvex();
    FactorInScale(RoWeights, Ro(expenditure, phds, fwci, labRating, funding, mentorshipRating, fwciPeers));
  }

  /** The documented QTF example: an h-index of 25 scores 10 * 24 / 49 and a clarity
      rating of 4 scores 7.5, whatever the approachability population. */
  lemma QtfExample(approachability: real, peers: seq<real>)
    ensures Qtf(25.0, 4.0, approachability, peers).subScores[0].value == 240.0 / 49.0
    ensures Qtf(25.0, 4.0, approachability, peers).subScores[1].value == 7.5
  {
  }

  /** The scaling ranges are narrower than what the input form accepts, and nothing clamps:
      at the form's largest research inputs the RO factor leaves the 0-10 scale. */
  lemma RoLeavesScaleAtFormMaximum(fwci: real, fwciPeers: seq<real>)
    ensures Ro(100000.0, 1000.0, fwci, 5.0, 20000.0, 5.0, fwciPeers).score > 10.0
  {
    PercentileInRange(fwci, fwciPeers);
  }

  /** Likewise 50 student ventures, which the form accepts, scale to 25 against a maximum of 20. */
  lemma VentureScoreAtFormMaximum(placementRate: real, employerReputation: real, partnerships: real,
                                  alumniSalary: real, placementPeers: seq<real>, salaryPeers: seq<real>)
    ensures Ps(placementRate, employerReputation, partnerships, alumniSalary, 50.0,
               placementPeers, salaryPeers).subScores[4].value == 25.0
  {
  }
}
