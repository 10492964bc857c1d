/** The quality-assurance agent of the outer layer (agents/outer_team_agents.py,
    `QualityAssuranceAgent`): five weighted criteria, a score for one team
    output, and a report over several assessments. */
module QualityAssurance {
  import opened Wrappers
  import opened Text
  import opened Dict
  import OuterAgentBase

  datatype Criterion = Criterion(description: string, weight: real, measurement: string)

  /** The criteria table, in its insertion order. */
  const StandardCriteria: seq<(string, Criterion)> := [
    ("completeness", Criterion("All required elements are present", 0.25, "percentage_of_requirements_met")),
    ("accuracy", Criterion("Information is correct and validated", 0.25, "error_rate_percentage")),
    ("consistency", Criterion("Consistent style, format, and messaging", 0.20, "consistency_score")),
    ("clarity", Criterion("Clear, understandable communication", 0.15, "readability_score")),
    ("alignment", Criterion("Aligned with project objectives", 0.15, "objective_alignment_score"))
  ]

  /** The score below which an issue is recorded, and the passing score. */
  const IssueThreshold: real := 80.0
  const PassingScore: real := 80.0

  /** `min(100, len(output) / 10)`. */
  function Completeness(outputLength: nat): (c: real)
    ensures 0.0 <= c <= 100.0
    ensures c < 100.0 ==> c == outputLength as real / 10.0
  {
    if outputLength as real / 10.0 < 100.0 then outputLength as real / 10.0 else 100.0
  }

  /** The mock score of one criterion: measured for completeness, fixed for the
      others, 85 for a name it does not know. */
  function CriterionScore(name: string, outputLength: nat): real {
    if name == "completeness" then Completeness(outputLength)
    else if name == "accuracy" then 85.0
    else if name == "consistency" then 90.0
    else if name == "clarity" then 80.0
    else if name == "alignment" then 88.0
    else 85.0
  }

  datatype Issue = LowScore(criterion: string, score: real)

  datatype Assessment = Assessment(
    team: string,
    timestamp: nat,
    scores: seq<(string, real)>,
    overallScore: real,
    issues: seq<Issue>,
    recommendations: seq<string>)

  function Scores(criteria: seq<(string, Criterion)>, outputLength: nat): (r: seq<(string, real)>)
    ensures |r| == |criteria|
    ensures forall k :: 0 <= k < |criteria| ==> r[k] == (criteria[k].0, CriterionScore(criteria[k].0, outputLength))
  {
    seq(|criteria|, k requires 0 <= k < |criteria| => (criteria[k].0, CriterionScore(criteria[k].0, outputLength)))
  }

  function Issues(criteria: seq<(string, Criterion)>, outputLength: nat): seq<Issue> {
    if criteria == [] then []
    else
      var last := criteria[|criteria| - 1];
      var score := CriterionScore(last.0, outputLength);
      Issues(criteria[..|criteria| - 1], outputLength) + if score < IssueThreshold then [LowScore(last.0, score)] else []
  }

  /** `f"Improve {criterion}: {description}"`. */
  function RecommendationText(criterion: string, description: string): string {
    "Improve " + criterion + ": " + description
  }

  function Recommendations(criteria: seq<(string, Criterion)>, outputLength: nat): seq<string> {
    if criteria == [] then []
    else
      var last := criteria[|criteria| - 1];
      var score := CriterionScore(last.0, outputLength);
      Recommendations(criteria[..|criteria| - 1], outputLength) +
        if score < IssueThreshold then [RecommendationText(last.0, last.1.description)] else []
  }

  function WeightedSum(criteria: seq<(string, Criterion)>, outputLength: nat): real {
    if criteria == [] then 0.0
    else
      var last := criteria[|criteria| - 1];
      WeightedSum(criteria[..|criteria| - 1], outputLength) + CriterionScore(last.0, outputLength) * last.1.weight
  }

  /** Every criterion scoring below the issue threshold gives one issue and
      one recommendation. */
  lemma {:induction false} IssuesPairRecommendations(criteria: seq<(string, Criterion)>, outputLength: nat)
    ensures |Issues(criteria, outputLength)| == |Recommendations(criteria, outputLength)| <= |criteria|
  {
    if criteria != [] {
      IssuesPairRecommendations(criteria[..|criteria| - 1], outputLength);
    }
  }

  /** The assessment of one output: a score per criterion, in the criteria's
      order, and an issue paired with a recommendation for each low score. */
  function AssessmentOf(criteria: seq<(string, Criterion)>, team: string, output: string, timestamp: nat): (r: Assessment)
    ensures r.team == team && r.timestamp == timestamp
    ensures |r.scores| == |criteria|
    ensures |r.issues| == |r.recommendations| <= |criteria|
  {
    IssuesPairRecommendations(criteria, |output|);
    Assessment(team, timestamp, Scores(criteria, |output|), WeightedSum(criteria, |output|),
               Issues(criteria, |output|), Recommendations(criteria, |output|))
  }

  function TotalWeight(criteria: seq<(string, Criterion)>): real {
    if criteria == [] then 0.0 else TotalWeight(criteria[..|criteria| - 1]) + criteria[|criteria| - 1].1.weight
  }

  /** The five weights add up to one, so the overall score is a weighted mean. */
  lemma WeightsSumToOne()
    ensures TotalWeight(StandardCriteria) == 1.0
  {
    var c := StandardCriteria;
    assert c[..1][..0] == [] && c[..2][..1] == c[..1] && c[..3][..2] == c[..2] && c[..4][..3] == c[..3]
        && c[..5][..4] == c[..4] && c[..5] == c;
    assert TotalWeight(c[..1]) == 0.25;
    assert TotalWeight(c[..2]) == 0.50;
    assert TotalWeight(c[..3]) == 0.70;
    assert TotalWeight(c[..4]) == 0.85;
  }

  /** With the standard criteria, the overall score is fixed by the completeness
      score alone, only completeness can fall below 80, and an issue comes with
      exactly one recommendation. */
  lemma {:induction false} StandardAssessment(team: string, output: string, timestamp: nat)
    ensures var a := AssessmentOf(StandardCriteria, team, output, timestamp);
            var c := Completeness(|output|);
            a.overallScore == 0.25 * c + 64.45 &&
            a.issues == (if c < 80.0 then [LowScore("completeness", c)] else []) &&
            a.recommendations == (if c < 80.0 then [RecommendationText("completeness", "All required elements are present")] else [])
  {
    var c := StandardCriteria;
    var n := |output|;
    var cm := Completeness(n);
    assert c[..5] == c;
    assert c[..1][..0] == [] && c[..2][..1] == c[..1] && c[..3][..2] == c[..2] && c[..4][..3] == c[..3]
        && c[..5][..4] == c[..4];
    assert c[..1][0] == c[0] && c[..2][1] == c[1] && c[..3][2] == c[2] && c[..4][3] == c[3] && c[..5][4] == c[4];
    assert CriterionScore(c[0].0, n) == cm;
    assert CriterionScore(c[1].0, n) == 85.0 && CriterionScore(c[2].0, n) == 90.0;
    assert CriterionScore(c[3].0, n) == 80.0 && CriterionScore(c[4].0, n) == 88.0;
    assert WeightedSum(c[..1], n) == cm * 0.25;
    assert WeightedSum(c[..2], n) == cm * 0.25 + 85.0 * 0.25;
    assert WeightedSum(c[..3], n) == cm * 0.25 + 85.0 * 0.25 + 90.0 * 0.20;
    assert WeightedSum(c[..4], n) == cm * 0.25 + 85.0 * 0.25 + 90.0 * 0.20 + 80.0 * 0.15;
    assert WeightedSum(c[..5], n) == cm * 0.25 + 85.0 * 0.25 + 90.0 * 0.20 + 80.0 * 0.15 + 88.0 * 0.15;
    var issues := if cm < 80.0 then [LowScore("completeness", cm)] else [];
    assert Issues(c[..1], n) == issues;
    assert Issues(c[..2], n) == issues;
    assert Issues(c[..3], n) == issues;
    assert Issues(c[..4], n) == issues;
    assert Issues(c[..5], n) == issues;
    var recs := if cm < 80.0 then [RecommendationText("completeness", "All required elements are present")] else [];
    assert Recommendations(c[..1], n) == recs;
    assert Recommendations(c[..2], n) == recs;
    assert Recommendations(c[..3], n) == recs;
    assert Recommendations(c[..4], n) == recs;
    assert Recommendations(c[..5], n) == recs;
  }

  /** The overall score lies between 64.45 (empty output) and 89.45 (at least
      a thousand characters), and reaches the passing score exactly for outputs
      of at least 622 characters. */
  lemma {:induction false} OverallScoreRange(team: string, output: string, timestamp: nat)
    ensures var a := AssessmentOf(StandardCriteria, team, output, timestamp);
            64.45 <= a.overallScore <= 89.45 &&
            (a.overallScore >= PassingScore <==> |output| >= 622) &&
            (a.issues != [] <==> |output| < 800)
  {
    StandardAssessment(team, output, timestamp);
  }

  // ---------------------------------------------------------------------
  // The report over several assessments
  // ---------------------------------------------------------------------

  datatype QualityStatus = Pass | NeedsImprovement

  function StatusOf(score: real): (s: QualityStatus)
    ensures s == Pass <==> score >= PassingScore
  {
    if score >= PassingScore then Pass else NeedsImprovement
  }

  datatype TeamQualityLine = TeamQualityLine(
    team: string,
    overallScore: real,
    scores: seq<(string, real)>,
    issueCount: nat,
    status: QualityStatus)

  datatype QualityReport = QualityReport(
    teamLines: seq<TeamQualityLine>,
    averageScore: real,
    teamsPassing: nat,
    teamsNeedingImprovement: nat,
    totalIssues: nat,
    criticalIssues: seq<Issue>,
    recommendations: seq<string>)

  function SumScores(assessments: seq<(string, Assessment)>): real {
    if assessments == [] then 0.0
    else SumScores(assessments[..|assessments| - 1]) + assessments[|assessments| - 1].1.overallScore
  }

  function CountPassing(assessments: seq<(string, Assessment)>): (n: nat)
    ensures n <= |assessments|
  {
    if assessments == [] then 0
    else CountPassing(assessments[..|assessments| - 1]) +
         if assessments[|assessments| - 1].1.overallScore >= PassingScore then 1 else 0
  }

  function CountFailing(assessments: seq<(string, Assessment)>): (n: nat)
    ensures n <= |assessments|
  {
    if assessments == [] then 0
    else CountFailing(assessments[..|assessments| - 1]) +
         if assessments[|assessments| - 1].1.overallScore < PassingScore then 1 else 0
  }

  function AllIssues(assessments: seq<(string, Assessment)>): seq<Issue> {
    if assessments == [] then []
    else AllIssues(assessments[..|assessments| - 1]) + assessments[|assessments| - 1].1.issues
  }

  function AllRecommendations(assessments: seq<(string, Assessment)>): seq<string> {
    if assessments == [] then []
    else AllRecommendations(assessments[..|assessments| - 1]) + assessments[|assessments| - 1].1.recommendations
  }

  function LineOf(team: string, a: Assessment): TeamQualityLine {
    TeamQualityLine(team, a.overallScore, a.scores, |a.issues|, StatusOf(a.overallScore))
  }

  /** `sum(scores) / len(scores) if scores else 0`. */
  function Average(assessments: seq<(string, Assessment)>): real {
    if assessments == [] then 0.0 else SumScores(assessments) / |assessments| as real
  }

  /** The report as the code evidently means it: the ten first issues and the
      ten first distinct recommendations in order of first occurrence. */
  function QualityReportOf(assessments: seq<(string, Assessment)>): (r: QualityReport)
    ensures |r.teamLines| == |assessments|
    ensures r.teamsPassing + r.teamsNeedingImprovement == |assessments|
    ensures |r.criticalIssues| <= 10 && |r.recommendations| <= 10
  {
    PassingPlusFailing(assessments);
    QualityReport(
      seq(|assessments|, k requires 0 <= k < |assessments| => LineOf(assessments[k].0, assessments[k].1)),
      Average(assessments),
      CountPassing(assessments),
      CountFailing(assessments),
      |AllIssues(assessments)|,
      Take(AllIssues(assessments), 10),
      Take(Distinct(AllRecommendations(assessments)), 10))
  }

  /** Every team either passes or needs improvement; the average is the mean
      of the overall scores, 0 without teams; the listed issues are the first
      ten in team order (all of them when fewer); the recommendations are ten
      distinct ones from the assessments, or every one when there are at most
      ten different ones. */
  lemma {:induction false} QualityReportProperties(assessments: seq<(string, Assessment)>)
    ensures var r := QualityReportOf(assessments);
            r.teamsPassing + r.teamsNeedingImprovement == |assessments| &&
            |r.teamLines| == |assessments| &&
            (forall k :: 0 <= k < |assessments| ==>
               r.teamLines[k].team == assessments[k].0 &&
               (r.teamLines[k].status == Pass <==> assessments[k].1.overallScore >= 80.0)) &&
            r.totalIssues == |AllIssues(assessments)| &&
            r.averageScore == (if assessments == [] then 0.0 else SumScores(assessments) / |assessments| as real) &&
            |r.criticalIssues| == (if |AllIssues(assessments)| < 10 then |AllIssues(assessments)| else 10) &&
            r.criticalIssues == AllIssues(assessments)[..|r.criticalIssues|] &&
            |r.recommendations| ==
              (if |Distinct(AllRecommendations(assessments))| < 10 then |Distinct(AllRecommendations(assessments))| else 10) &&
            (forall i, j :: 0 <= i < j < |r.recommendations| ==> r.recommendations[i] != r.recommendations[j]) &&
            (forall x :: x in r.recommendations ==> x in AllRecommendations(assessments)) &&
            (|Distinct(AllRecommendations(assessments))| <= 10 ==>
               forall x :: x in AllRecommendations(assessments) ==> x in r.recommendations)
  {
    PassingPlusFailing(assessments);
    var all := AllRecommendations(assessments);
    DistinctProperties(all);
    var d := Distinct(all);
    var r := QualityReportOf(assessments);
    assert forall x :: x in r.recommendations ==> x in d;
    assert r.recommendations == d[..|r.recommendations|];
    forall i, j | 0 <= i < j < |r.recommendations| ensures r.recommendations[i] != r.recommendations[j] {
      assert r.recommendations[i] == d[i] && r.recommendations[j] == d[j];
      assert d[i] != d[j];
    }
    if |d| <= 10 {
      assert r.recommendations == d;
    }
  }

  lemma {:induction false} PassingPlusFailing(assessments: seq<(string, Assessment)>)
    ensures CountPassing(assessments) + CountFailing(assessments) == |assessments|
  {
    if assessments != [] {
      PassingPlusFailing(assessments[..|assessments| - 1]);
    }
  }

  // ---------------------------------------------------------------------
  // The report as written
  // ---------------------------------------------------------------------

  /** Python's subscript on a `set`: sets are not subscriptable. */
  function SliceSet<T>(s: set<T>, n: nat): Result<seq<T>> {
    Err("TypeError", "'set' object is not subscriptable")
  }

  /** `create_quality_report` as written: it gathers the same figures, then
      slices `set(all_recommendations)`, which raises before the report is
      returned. */
  function CreateQualityReportAsWritten(assessments: seq<(string, Assessment)>): (r: Result<QualityReport>)
    ensures r.Err? ==> r.exception == "TypeError"
    ensures r.Ok? ==> r.value.teamLines == QualityReportOf(assessments).teamLines
  {
    var report := QualityReportOf(assessments);
    var unique := set x | x in AllRecommendations(assessments);
    match SliceSet(unique, 10)
    case Err(c, e) => Err(c, e)
    case Ok(top) => Ok(report.(recommendations := top))
  }

  /** No input gets a report back: every call ends in the TypeError. */
  lemma {:induction false} QualityReportAsWrittenAlwaysFails(assessments: seq<(string, Assessment)>)
    ensures CreateQualityReportAsWritten(assessments) == Err("TypeError", "'set' object is not subscriptable")
  {
  }

  /** The agent's assessments once each of `assessed` has been stored in turn
      under its team and the time `timestamp`. */
  function StoreAssessments(m: map<(string, nat), Assessment>, assessed: seq<(string, Assessment)>, timestamp: nat)
    : map<(string, nat), Assessment>
  {
    if assessed == [] then m
    else
      var last := assessed[|assessed| - 1];
      StoreAssessments(m, assessed[..|assessed| - 1], timestamp)[(last.0, timestamp) := last.1]
  }

  /** After storing, the keys are the old ones and each assessed team at
      `timestamp`; with distinct teams each such key holds its team's
      assessment, and every other key keeps what it held. */
  lemma {:induction false} StoreAssessmentsLookup(m: map<(string, nat), Assessment>,
                                                  assessed: seq<(string, Assessment)>, timestamp: nat,
                                                  key: (string, nat))
    ensures key in StoreAssessments(m, assessed, timestamp) <==>
              key in m || (key.1 == timestamp && key.0 in Keys(assessed))
    ensures !(key.1 == timestamp && key.0 in Keys(assessed)) && key in m ==>
              StoreAssessments(m, assessed, timestamp)[key] == m[key]
    ensures UniqueKeys(assessed) ==>
              forall k :: 0 <= k < |assessed| && key == (assessed[k].0, timestamp) ==>
                StoreAssessments(m, assessed, timestamp)[key] == assessed[k].1
  {
    if assessed != [] {
      var init := assessed[..|assessed| - 1];
      var last := assessed[|assessed| - 1];
      assert Keys(assessed) == Keys(init) + [last.0];
      StoreAssessmentsLookup(m, init, timestamp, key);
      if UniqueKeys(assessed) {
        assert UniqueKeys(init);
        forall k | 0 <= k < |assessed| && key == (assessed[k].0, timestamp)
          ensures StoreAssessments(m, assessed, timestamp)[key] == assessed[k].1
        {
          if k < |init| {
            assert init[k] == assessed[k];
            assert assessed[k].0 != last.0;
          }
        }
      }
    }
  }

  // ---------------------------------------------------------------------
  // The agent
  // ---------------------------------------------------------------------

  class QualityAssuranceAgent {
    const base: OuterAgentBase.BaseOuterAgent
    var qualityCriteria: seq<(string, Criterion)>
    var qualityAssessments: map<(string, nat), Assessment>

    /** The criteria are either not yet established or the standard table. */
    ghost predicate Valid()
      reads this
    {
      qualityCriteria == [] || qualityCriteria == StandardCriteria
    }

    constructor ()
      ensures Valid() && qualityCriteria == [] && qualityAssessments == map[]
      ensures base.name == "QualityAssurance" && base.Valid() && fresh(base)
    {
      base := new OuterAgentBase.BaseOuterAgent("QualityAssurance");
      qualityCriteria := [];
      qualityAssessments := map[];
    }

    /** `establish_quality_criteria`: the fixed table, whatever the project. */
    method EstablishQualityCriteria() returns (criteria: seq<(string, Criterion)>)
      modifies this
      ensures criteria == StandardCriteria && qualityCriteria == criteria
      ensures qualityAssessments == old(qualityAssessments)
      ensures Valid()
    {
      criteria := StandardCriteria;
      qualityCriteria := criteria;
    }

    /** The first loop of `assess_team_output`: a score per criterion, and an
        issue and a recommendation for each score under the threshold. */
    static method ScoreCriteria(criteria: seq<(string, Criterion)>, n: nat)
      returns (scores: seq<(string, real)>, issues: seq<Issue>, recommendations: seq<string>)
      ensures scores == Scores(criteria, n)
      ensures issues == Issues(criteria, n)
      ensures recommendations == Recommendations(criteria, n)
    {
      scores, issues, recommendations := [], [], [];
      var i := 0;
      while i < |criteria|
        invariant 0 <= i <= |criteria|
        invariant scores == Scores(criteria[..i], n)
        invariant issues == Issues(criteria[..i], n)
        invariant recommendations == Recommendations(criteria[..i], n)
      {
        var (name, details) := criteria[i];
        assert criteria[..i + 1][..i] == criteria[..i];
        var score := CriterionScore(name, n);
        scores := scores + [(name, score)];
        if score < IssueThreshold {
          issues := issues + [LowScore(name, score)];
          recommendations := recommendations + [RecommendationText(name, details.description)];
        }
        i := i + 1;
      }
      assert criteria[..i] == criteria;
    }

    /** The second loop of `assess_team_output`: the weighted sum of the
        scores. */
    static method WeightedTotal(criteria: seq<(string, Criterion)>, n: nat) returns (total: real)
      ensures total == WeightedSum(criteria, n)
    {
      total := 0.0;
      var j := 0;
      while j < |criteria|
        invariant 0 <= j <= |criteria|
        invariant total == WeightedSum(criteria[..j], n)
      {
        assert criteria[..j + 1][..j] == criteria[..j];
        total := total + CriterionScore(criteria[j].0, n) * criteria[j].1.weight;
        j := j + 1;
      }
      assert criteria[..j] == criteria;
    }

    /** `assess_team_output`: the criteria are established on first use; each
        is scored, an issue and a recommendation are recorded for a score below
        80, and the overall score is the weighted sum. The assessment is stored
        under the team and the time. */
    method AssessTeamOutput(team: string, output: string, timestamp: nat) returns (a: Assessment)
      requires Valid()
      modifies this
      ensures Valid() && qualityCriteria == StandardCriteria
      ensures a == AssessmentOf(StandardCriteria, team, output, timestamp)
      ensures a.overallScore == 0.25 * Completeness(|output|) + 64.45
      ensures qualityAssessments == old(qualityAssessments)[(team, timestamp) := a]
    {
      if qualityCriteria == [] {
        var _ := EstablishQualityCriteria();
      }
      var criteria := qualityCriteria;
      var scores, issues, recommendations := ScoreCriteria(criteria, |output|);
      var total := WeightedTotal(criteria, |output|);
      a := Assessment(team, timestamp, scores, total, issues, recommendations);
      StandardAssessment(team, output, timestamp);
      qualityAssessments := qualityAssessments[(team, timestamp) := a];
    }

    /** `create_quality_report` with the recommendation list taken as the ten
        first distinct recommendations. */
    method CreateQualityReport(assessments: seq<(string, Assessment)>) returns (r: QualityReport)
      ensures r == QualityReportOf(assessments)
    {
      var lines: seq<TeamQualityLine> := [];
      var sum := 0.0;
      var passing := 0;
      var failing := 0;
      var issues: seq<Issue> := [];
      var recs: seq<string> := [];
      var i := 0;
      while i < |assessments|
        invariant 0 <= i <= |assessments|
        invariant lines == seq(i, k requires 0 <= k < i => LineOf(assessments[k].0, assessments[k].1))
        invariant sum == SumScores(assessments[..i])
        invariant passing == CountPassing(assessments[..i]) && failing == CountFailing(assessments[..i])
        invariant issues == AllIssues(assessments[..i])
        invariant recs == AllRecommendations(assessments[..i])
      {
        var (team, a) := assessments[i];
        assert assessments[..i + 1][..i] == assessments[..i];
        sum := sum + a.overallScore;
        issues := issues + a.issues;
        recs := recs + a.recommendations;
        lines := lines + [LineOf(team, a)];
        if a.overallScore >= PassingScore { passing := passing + 1; }
        if a.overallScore < PassingScore { failing := failing + 1; }
        i := i + 1;
      }
      assert assessments[..i] == assessments;
      var average := if |assessments| > 0 then sum / |assessments| as real else 0.0;
      r := QualityReport(lines, average, passing, failing, |issues|, Take(issues, 10), Take(Distinct(recs), 10));
    }
  }
}
