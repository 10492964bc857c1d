/** The top-level Society of Mind coordinator (som_framework/coordination.py,
    `SoMCoordinator`): it runs every inner team on its own requirements, hands
    their outputs to the outer coordinator, assembles the final deliverable,
    measures the run, and keeps a project history and cumulative system
    counters. */
module Coordination {
  import opened Wrappers
  import opened Text
  import opened Dict
  import opened Ratio
  import IT = InnerTeams
  import OT = OuterTeams
  import QA = QualityAssurance

  // ---------------------------------------------------------------------
  // Inputs
  // ---------------------------------------------------------------------

  /** The project requirements: as the outer coordinator reads them, and
      their `json.dumps` rendering, which is given rather than computed. */
  datatype WorkflowRequest = WorkflowRequest(requirements: OT.ProjectRequirements, json: string)

  /** The instants `datetime.now()` returns during one run: the start, the
      inner teams' runs, the coordination run, the deliverable's date and the
      end. */
  datatype Clock = Clock(start: nat, teams: nat, coordination: nat, generated: nat, finish: nat)

  // ---------------------------------------------------------------------
  // _generate_team_requirements and _execute_inner_teams_phase
  // ---------------------------------------------------------------------

  /** The heading of each known team's requirements. */
  const RequirementHeadings: seq<(string, string)> := [
    ("research_analysis", "RESEARCH & ANALYSIS TEAM REQUIREMENTS"),
    ("creative_design", "CREATIVE & DESIGN TEAM REQUIREMENTS"),
    ("technical_implementation", "TECHNICAL IMPLEMENTATION TEAM REQUIREMENTS")
  ]

  /** A known team's requirements: its heading and the project context (the
      objectives, deliverables and focus areas that follow are not
      modelled). */
  function RequirementText(heading: string, context: string): string {
    "\n" + heading + "\n\nProject Context: " + context + "\n"
  }

  /** `team_requirements.get(team_name, str(project_requirements))`. */
  function TeamRequirement(team: string, request: WorkflowRequest): string {
    match Lookup(RequirementHeadings, team)
    case Some(heading) => RequirementText(heading, request.json)
    case None => request.requirements.rendered
  }

  /** The three known teams get their own requirements, which carry the
      project context; any other team gets `str(requirements)`. */
  lemma TeamRequirementChoice(team: string, request: WorkflowRequest)
    ensures team == "research_analysis" ==>
              TeamRequirement(team, request) == RequirementText("RESEARCH & ANALYSIS TEAM REQUIREMENTS", request.json)
    ensures team == "creative_design" ==>
              TeamRequirement(team, request) == RequirementText("CREATIVE & DESIGN TEAM REQUIREMENTS", request.json)
    ensures team == "technical_implementation" ==>
              TeamRequirement(team, request) ==
                RequirementText("TECHNICAL IMPLEMENTATION TEAM REQUIREMENTS", request.json)
    ensures team !in Keys(RequirementHeadings) ==> TeamRequirement(team, request) == request.requirements.rendered
    ensures team in Keys(RequirementHeadings) ==> Contains(TeamRequirement(team, request), request.json)
  {
    if team in Keys(RequirementHeadings) {
      var heading := Lookup(RequirementHeadings, team).value;
      var prefix := "\n" + heading + "\n\nProject Context: ";
      assert TeamRequirement(team, request) == prefix + request.json + "\n";
      assert (prefix + request.json + "\n")[|prefix|..|prefix| + |request.json|] == request.json;
      ContainsAt(prefix + request.json + "\n", request.json, |prefix|);
    }
  }

  /** What one team contributes: the error text when its run raises with the
      message `failures` names for it, its output otherwise. */
  function TeamResult(team: string, agents: seq<string>, request: WorkflowRequest,
                      failures: seq<(string, string)>): string {
    match Lookup(failures, team)
    case Some(message) => IT.ErrorText(team, message)
    case None => IT.TeamOutput(team, TeamRequirement(team, request), agents)
  }

  /** The inner results, team by team in the orchestrator's order. */
  function InnerResultsOf(teams: seq<(string, seq<string>)>, request: WorkflowRequest,
                          failures: seq<(string, string)>): (r: seq<(string, string)>)
    ensures |r| == |teams|
  {
    if teams == [] then []
    else
      var last := teams[|teams| - 1];
      InnerResultsOf(teams[..|teams| - 1], request, failures) + [(last.0, TeamResult(last.0, last.1, request, failures))]
  }

  /** The records the orchestrator logs during the inner phase: one per team
      whose run did not raise. */
  function InnerLogOf(teams: seq<(string, seq<string>)>, request: WorkflowRequest,
                      failures: seq<(string, string)>, timestamp: nat): (r: seq<IT.ExecutionRecord>)
    ensures |r| <= |teams|
  {
    if teams == [] then []
    else
      var last := teams[|teams| - 1];
      var requirement := TeamRequirement(last.0, request);
      InnerLogOf(teams[..|teams| - 1], request, failures, timestamp) +
        (if Lookup(failures, last.0).None?
         then [IT.ExecutionRecord(timestamp, last.0, requirement, |last.1|, |IT.TeamOutput(last.0, requirement, last.1)|, true)]
         else [])
  }

  /** Every team of the orchestrator contributes once, under its own name and
      in its own place. */
  lemma {:induction false} InnerResultsEntries(teams: seq<(string, seq<string>)>, request: WorkflowRequest,
                                               failures: seq<(string, string)>, k: nat)
    requires k < |teams|
    ensures InnerResultsOf(teams, request, failures)[k] ==
              (teams[k].0, TeamResult(teams[k].0, teams[k].1, request, failures))
  {
    if k < |teams| - 1 {
      InnerResultsEntries(teams[..|teams| - 1], request, failures, k);
    }
  }

  /** The inner results are keyed by exactly the orchestrator's teams, in
      order. */
  lemma {:induction false} InnerResultsKeys(teams: seq<(string, seq<string>)>, request: WorkflowRequest,
                                            failures: seq<(string, string)>)
    ensures Keys(InnerResultsOf(teams, request, failures)) == Keys(teams)
  {
    forall k | 0 <= k < |teams| ensures Keys(InnerResultsOf(teams, request, failures))[k] == Keys(teams)[k] {
      InnerResultsEntries(teams, request, failures, k);
    }
  }

  /** Without failures every team is logged once, in order, with its
      requirement, its number of agents and the length of its result. */
  lemma {:induction false} InnerLogWithoutFailures(teams: seq<(string, seq<string>)>, request: WorkflowRequest,
                                                   timestamp: nat)
    ensures var log := InnerLogOf(teams, request, [], timestamp);
            var results := InnerResultsOf(teams, request, []);
            |log| == |teams| &&
            forall k :: 0 <= k < |teams| ==>
              log[k] == IT.ExecutionRecord(timestamp, teams[k].0, TeamRequirement(teams[k].0, request),
                                           |teams[k].1|, |results[k].1|, true)
  {
    if teams != [] {
      var init := teams[..|teams| - 1];
      InnerLogWithoutFailures(init, request, timestamp);
      var results := InnerResultsOf(teams, request, []);
      forall k | 0 <= k < |teams|
        ensures InnerLogOf(teams, request, [], timestamp)[k] ==
                  IT.ExecutionRecord(timestamp, teams[k].0, TeamRequirement(teams[k].0, request),
                                     |teams[k].1|, |results[k].1|, true)
      {
        InnerResultsEntries(teams, request, [], k);
        if k < |teams| - 1 {
          InnerResultsEntries(init, request, [], k);
        }
      }
    }
  }

  // ---------------------------------------------------------------------
  // create_final_deliverable
  // ---------------------------------------------------------------------

  /** `'-' * 50` and `'=' * 80`. */
  function Rule(): (r: string) ensures |r| == 50 { seq(50, _ => '-') }
  function Banner(): (r: string) ensures |r| == 80 { seq(80, _ => '=') }

  /** `text[:limit]` followed by "..." exactly when the text is longer. */
  function Snippet(text: string, limit: nat): (r: string)
    ensures |text| <= limit ==> r == text
    ensures |text| > limit ==> |r| == limit + 3 && r[..limit] == text[..limit] && r[limit..] == "..."
  {
    Take(text, limit) + (if |text| > limit then "..." else "")
  }

  /** `name.replace('_', ' ')`. */
  function Spaced(name: string): string {
    ReplaceChar(name, '_', ' ')
  }

  function DeliverableHead(scenario: string, generated: nat, context: string): string {
    "\n" + Banner() + "\nFINAL PROJECT DELIVERABLE\n" + Banner() + "\n\nProject: " + Title(Spaced(scenario)) +
    "\nGenerated: " + NatToString(generated) + "\nSoM Framework Version: 1.0\n\nPROJECT OVERVIEW:\n" + context +
    "\n\nINTEGRATED TEAM CONTRIBUTIONS:\n"
  }

  /** One team's contribution: its name and its output cut to 1000
      characters. */
  function ContributionBlock(team: string, output: string): string {
    "\n\n" + Upper(Spaced(team)) + " TEAM CONTRIBUTION:\n" + Rule() + "\n" + Snippet(output, 1000) + "\n"
  }

  function Contributions(results: seq<(string, string)>): string {
    if results == [] then ""
    else
      var last := results[|results| - 1];
      Contributions(results[..|results| - 1]) + ContributionBlock(last.0, last.1)
  }

  function InsightsHeading(): string {
    "\n\nCOORDINATION AND INTEGRATION INSIGHTS:\n" + Rule() + "\n"
  }

  /** The integration plan, cut to 500 characters. */
  function PlanSection(plan: string): string {
    "\nIntegration Strategy:\n" + Snippet(plan, 500) + "\n"
  }

  const RecommendationsHeading: string := "\nStrategic Recommendations:\n"

  /** `f"{i}. {rec}\n"`. */
  function NumberedLine(i: nat, rec: string): string {
    NatToString(i) + ". " + rec + "\n"
  }

  /** The recommendations numbered from 1. */
  function Numbered(recs: seq<string>): string {
    if recs == [] then "" else Numbered(recs[..|recs| - 1]) + NumberedLine(|recs|, recs[|recs| - 1])
  }

  /** `f"{score:.1f}"`, rounding half up (a double's binary rounding is not
      modelled). */
  function OneDecimal(x: real): (r: string)
    ensures |r| >= 3 && r[|r| - 2] == '.' && '0' <= r[|r| - 1] <= '9'
    ensures 0.0 <= x ==> forall k :: 0 <= k < |r| - 2 ==> '0' <= r[k] <= '9'
  {
    var n := (x * 10.0 + 0.5).Floor;
    var m: nat := if n < 0 then -n else n;
    (if n < 0 then "-" else "") + NatToString(m / 10) + "." + [DigitChar(m % 10)]
  }

  const Approved: string := "\U{2705} APPROVED"
  const NeedsReview: string := "\U{26A0}\U{FE0F} NEEDS REVIEW"

  /** The mark a team's score earns. */
  function Verdict(score: real): (v: string)
    ensures v == Approved <==> score >= 80.0
  {
    if score >= 80.0 then Approved else NeedsReview
  }

  function QualityLine(team: string, score: real): string {
    Title(Spaced(team)) + ": " + OneDecimal(score) + "/100 " + Verdict(score) + "\n"
  }

  function QualityLines(assessments: seq<(string, QA.Assessment)>): string {
    if assessments == [] then ""
    else
      var last := assessments[|assessments| - 1];
      QualityLines(assessments[..|assessments| - 1]) + QualityLine(last.0, last.1.overallScore)
  }

  /** The quality summary, present only when some team was assessed. */
  function QualitySection(assessments: seq<(string, QA.Assessment)>): string {
    if assessments == [] then ""
    else "\n\nQUALITY ASSESSMENT SUMMARY:\n" + Rule() + "\n" + QualityLines(assessments)
  }

  /** The oversight summary with the number of human interventions, the next
      steps and the closing banner (their bullet lists are not modelled). */
  function DeliverableTail(interventions: nat): string {
    "\n\nHUMAN OVERSIGHT SUMMARY:\n" + Rule() + "\nTotal human interventions: " + NatToString(interventions) +
    "\n\n" + Banner() + "\nEND OF DELIVERABLE\n" + Banner() + "\n"
  }

  /** The deliverable's sections in order: the head, every team's
      contribution, the insights heading, the integration plan, the
      recommendations heading, at most ten numbered recommendations, the
      quality summary and the tail. */
  function Sections(scenario: string, request: WorkflowRequest, generated: nat,
                    results: seq<(string, string)>, c: OT.CoordinationResult): (r: seq<string>)
    ensures |r| == 8
  {
    [DeliverableHead(scenario, generated, request.json), Contributions(results), InsightsHeading(),
     PlanSection(OT.IntegrationPlanText(c.integrationPlan)), RecommendationsHeading,
     Numbered(Take(c.finalRecommendations, 10)), QualitySection(c.individualAssessments), DeliverableTail(0)]
  }

  /** The parts written one after the other. */
  function Concat(parts: seq<string>): string {
    if parts == [] then "" else Concat(parts[..|parts| - 1]) + parts[|parts| - 1]
  }

  /** What a part contains, the whole contains. */
  lemma {:induction false} ConcatContains(parts: seq<string>, i: nat, sub: string)
    requires i < |parts| && Contains(parts[i], sub)
    ensures Contains(Concat(parts), sub)
  {
    var init := parts[..|parts| - 1];
    if i == |parts| - 1 {
      ContainsInConcat(Concat(init), parts[i], sub);
    } else {
      ConcatContains(init, i, sub);
      ContainsInConcat(Concat(init), parts[|parts| - 1], sub);
    }
  }

  function DeliverableOf(scenario: string, request: WorkflowRequest, generated: nat,
                         results: seq<(string, string)>, c: OT.CoordinationResult): string {
    Concat(Sections(scenario, request, generated, results, c))
  }

  /** Every team's contribution block appears in the contributions. */
  lemma {:induction false} ContributionsContain(results: seq<(string, string)>, k: nat)
    requires k < |results|
    ensures Contains(Contributions(results), ContributionBlock(results[k].0, results[k].1))
  {
    var init := results[..|results| - 1];
    var block := ContributionBlock(results[k].0, results[k].1);
    if k == |results| - 1 {
      ContainsSelf(block);
      ContainsInConcat(Contributions(init), block, block);
    } else {
      ContributionsContain(init, k);
      ContainsInConcat(Contributions(init), ContributionBlock(results[|results| - 1].0, results[|results| - 1].1), block);
    }
  }

  /** The i-th recommendation (from 1) appears on its own numbered line. */
  lemma {:induction false} NumberedContain(recs: seq<string>, i: nat)
    requires i < |recs|
    ensures Contains(Numbered(recs), NumberedLine(i + 1, recs[i]))
  {
    var init := recs[..|recs| - 1];
    var line := NumberedLine(i + 1, recs[i]);
    if i == |recs| - 1 {
      ContainsSelf(line);
      ContainsInConcat(Numbered(init), line, line);
    } else {
      NumberedContain(init, i);
      ContainsInConcat(Numbered(init), NumberedLine(|recs|, recs[|recs| - 1]), line);
    }
  }

  /** Every assessed team appears on its own quality line. */
  lemma {:induction false} QualityLinesContain(assessments: seq<(string, QA.Assessment)>, k: nat)
    requires k < |assessments|
    ensures Contains(QualityLines(assessments), QualityLine(assessments[k].0, assessments[k].1.overallScore))
  {
    var init := assessments[..|assessments| - 1];
    var line := QualityLine(assessments[k].0, assessments[k].1.overallScore);
    var lastLine := QualityLine(assessments[|assessments| - 1].0, assessments[|assessments| - 1].1.overallScore);
    if k == |assessments| - 1 {
      ContainsSelf(line);
      ContainsInConcat(QualityLines(init), line, line);
    } else {
      QualityLinesContain(init, k);
      ContainsInConcat(QualityLines(init), lastLine, line);
    }
  }

  /** The deliverable shows every team's output cut to 1000 characters. */
  lemma {:induction false} DeliverableShowsContributions(scenario: string, request: WorkflowRequest, generated: nat,
                                                         results: seq<(string, string)>, c: OT.CoordinationResult,
                                                         k: nat)
    requires k < |results|
    ensures Contains(DeliverableOf(scenario, request, generated, results, c),
                     ContributionBlock(results[k].0, results[k].1))
  {
    ContributionsContain(results, k);
    ConcatContains(Sections(scenario, request, generated, results, c), 1, ContributionBlock(results[k].0, results[k].1));
  }

  /** The deliverable numbers the first ten recommendations (or all of them,
      when there are fewer) from 1. */
  lemma {:induction false} DeliverableNumbersRecommendations(scenario: string, request: WorkflowRequest,
                                                             generated: nat, results: seq<(string, string)>,
                                                             c: OT.CoordinationResult, i: nat)
    requires i < |c.finalRecommendations| && i < 10
    ensures Contains(DeliverableOf(scenario, request, generated, results, c),
                     NumberedLine(i + 1, c.finalRecommendations[i]))
  {
    var recs := Take(c.finalRecommendations, 10);
    assert recs[i] == c.finalRecommendations[i];
    NumberedContain(recs, i);
    ConcatContains(Sections(scenario, request, generated, results, c), 5, NumberedLine(i + 1, recs[i]));
  }

  /** The deliverable shows every assessed team's score with its mark, which
      is APPROVED exactly for a score of at least 80. */
  lemma {:induction false} DeliverableMarksQuality(scenario: string, request: WorkflowRequest, generated: nat,
                                                   results: seq<(string, string)>, c: OT.CoordinationResult, k: nat)
    requires k < |c.individualAssessments|
    ensures var a := c.individualAssessments[k];
            Contains(DeliverableOf(scenario, request, generated, results, c), QualityLine(a.0, a.1.overallScore)) &&
            (Verdict(a.1.overallScore) == Approved <==> a.1.overallScore >= 80.0)
  {
    var a := c.individualAssessments[k];
    var line := QualityLine(a.0, a.1.overallScore);
    var heading := "\n\nQUALITY ASSESSMENT SUMMARY:\n" + Rule() + "\n";
    QualityLinesContain(c.individualAssessments, k);
    ContainsInConcat(heading, QualityLines(c.individualAssessments), line);
    ConcatContains(Sections(scenario, request, generated, results, c), 6, line);
  }

  /** With the assessments of a coordination run, a team is marked APPROVED
      exactly when its output has at least 622 characters. */
  lemma {:induction false} ApprovedIffLongEnough(results: seq<(string, string)>, timestamp: nat, k: nat)
    requires k < |results|
    ensures var a := OT.AssessmentsOf(results, timestamp)[k];
            a.0 == results[k].0 && (Verdict(a.1.overallScore) == Approved <==> |results[k].1| >= 622)
  {
    OT.AssessmentsOfEntries(results, timestamp, k);
    QA.OverallScoreRange(results[k].0, results[k].1, timestamp);
  }

  // ---------------------------------------------------------------------
  // _analyze_workflow_performance
  // ---------------------------------------------------------------------

  datatype Efficiency = Efficiency(
    averageTimePerTeam: real,
    averageQualityScore: real,
    humanInterventionRate: real,
    deliverableEfficiency: real)

  datatype PerformanceMetrics = PerformanceMetrics(
    executionTimeSeconds: int,
    teamsExecuted: nat,
    coordinationSuccess: bool,
    humanInterventionsCount: nat,
    deliverableLength: nat,
    qualityScores: seq<(string, real)>,
    /** Empty (`{}`) when no team ran. */
    efficiency: Option<Efficiency>)

  /** One run as `workflow_result` holds it. The outer results are empty
      (`{}`) until the coordination returns; the end time and the error are
      absent until they are set. The list of human interventions is created
      empty and never filled, so it is not a field. */
  datatype WorkflowResult = WorkflowResult(
    scenario: string,
    startTime: nat,
    request: WorkflowRequest,
    innerTeamResults: seq<(string, string)>,
    outerCoordinationResults: Option<OT.CoordinationResult>,
    finalDeliverable: string,
    performanceMetrics: Option<PerformanceMetrics>,
    success: bool,
    endTime: Option<nat>,
    error: Option<string>)

  /** Each assessed team with its overall score. */
  function QualityScores(assessments: seq<(string, QA.Assessment)>): (r: seq<(string, real)>)
    ensures |r| == |assessments|
    ensures forall k :: 0 <= k < |r| ==> r[k] == (assessments[k].0, assessments[k].1.overallScore)
  {
    seq(|assessments|, k requires 0 <= k < |assessments| => (assessments[k].0, assessments[k].1.overallScore))
  }

  function SumScores(scores: seq<(string, real)>): real {
    if scores == [] then 0.0 else SumScores(scores[..|scores| - 1]) + scores[|scores| - 1].1
  }

  /** `_analyze_workflow_performance`: reading the end time raises a
      `KeyError` when it is not set yet; otherwise the duration, the counts,
      the quality scores and, when some team ran, the efficiency figures. */
  function AnalyzeWorkflowPerformance(w: WorkflowResult): (r: Result<PerformanceMetrics>)
    ensures r.Err? <==> w.endTime.None?
    ensures r.Err? ==> r.exception == "KeyError" && r.message == "'end_time'"
    ensures r.Ok? ==>
              r.value.executionTimeSeconds == w.endTime.value - w.startTime &&
              r.value.teamsExecuted == |w.innerTeamResults| && r.value.coordinationSuccess == w.success &&
              r.value.humanInterventionsCount == 0 && r.value.deliverableLength == |w.finalDeliverable| &&
              (r.value.efficiency.Some? <==> w.innerTeamResults != [])
    ensures r.Ok? ==>
              r.value.qualityScores ==
                if w.outerCoordinationResults.Some?
                then QualityScores(w.outerCoordinationResults.value.individualAssessments) else []
    ensures r.Ok? && r.value.efficiency.Some? ==>
              var e := r.value.efficiency.value;
              var duration := r.value.executionTimeSeconds;
              var scores := r.value.qualityScores;
              e.averageTimePerTeam == duration as real / |w.innerTeamResults| as real &&
              e.averageQualityScore == (if scores == [] then 0.0 else SumScores(scores) / |scores| as real) &&
              e.humanInterventionRate == 0.0 &&
              e.deliverableEfficiency == (if duration > 0 then |w.finalDeliverable| as real / duration as real else 0.0)
  {
    match w.endTime
    case None => Err("KeyError", "'end_time'")
    case Some(finish) =>
      var duration := finish - w.startTime;
      var teams := |w.innerTeamResults|;
      var scores := if w.outerCoordinationResults.Some?
                    then QualityScores(w.outerCoordinationResults.value.individualAssessments) else [];
      var efficiency :=
        if teams > 0 then
          Some(Efficiency(duration as real / teams as real,
                          if scores != [] then SumScores(scores) / |scores| as real else 0.0,
                          0.0 / teams as real,
                          if duration > 0 then |w.finalDeliverable| as real / duration as real else 0.0))
        else None;
      Ok(PerformanceMetrics(duration, teams, w.success, 0, |w.finalDeliverable|, scores, efficiency))
  }

  /** A sum of scores between two bounds lies between the bounds times the
      count. */
  lemma {:induction false} SumScoresBounds(scores: seq<(string, real)>, lo: real, hi: real)
    requires forall k :: 0 <= k < |scores| ==> lo <= scores[k].1 <= hi
    ensures |scores| as real * lo <= SumScores(scores) <= |scores| as real * hi
  {
    if scores != [] {
      var init := scores[..|scores| - 1];
      assert forall k :: 0 <= k < |init| ==> init[k] == scores[k];
      SumScoresBounds(init, lo, hi);
    }
  }

  /** With the assessments of a coordination run, the average quality score
      lies between 64.45 and 89.45. */
  lemma {:induction false} AverageQualityBounds(results: seq<(string, string)>, timestamp: nat)
    requires results != []
    ensures var scores := QualityScores(OT.AssessmentsOf(results, timestamp));
            64.45 <= SumScores(scores) / |scores| as real <= 89.45
  {
    var scores := QualityScores(OT.AssessmentsOf(results, timestamp));
    OT.AssessmentsOfScores(results, timestamp);
    SumScoresBounds(scores, 64.45, 89.45);
    MeanBetween(SumScores(scores), |scores|, 64.45, 89.45);
  }

  /** The efficiency figures of a run whose outer coordination assessed the
      teams it was given: the average quality score lies between 64.45 and
      89.45. */
  lemma {:induction false} WorkflowAverageQuality(w: WorkflowResult, results: seq<(string, string)>, timestamp: nat)
    requires w.endTime.Some? && w.innerTeamResults != [] && results != []
    requires w.outerCoordinationResults.Some?
    requires w.outerCoordinationResults.value.individualAssessments == OT.AssessmentsOf(results, timestamp)
    ensures var r := AnalyzeWorkflowPerformance(w);
            r.Ok? && r.value.efficiency.Some? &&
            64.45 <= r.value.efficiency.value.averageQualityScore <= 89.45
  {
    AverageQualityBounds(results, timestamp);
  }

  // ---------------------------------------------------------------------
  // _update_system_state
  // ---------------------------------------------------------------------

  datatype SystemPerformance = SystemPerformance(
    totalExecutionTime: int,
    totalTeamsExecuted: nat,
    totalHumanInterventions: nat,
    averageQualityScore: real,
    averageExecutionTime: real,
    averageTeamsPerProject: real,
    averageInterventionsPerProject: real)

  /** The totals the update starts from when none are recorded yet. */
  const ZeroPerformance: SystemPerformance := SystemPerformance(0, 0, 0, 0.0, 0.0, 0.0, 0.0)

  /** `performance.get(key, 0)` for the three figures the update reads. */
  function ExecutionTimeOf(m: Option<PerformanceMetrics>): int {
    if m.Some? then m.value.executionTimeSeconds else 0
  }
  function TeamsExecutedOf(m: Option<PerformanceMetrics>): nat {
    if m.Some? then m.value.teamsExecuted else 0
  }
  function InterventionsOf(m: Option<PerformanceMetrics>): nat {
    if m.Some? then m.value.humanInterventionsCount else 0
  }

  /** Every running average is its total over the number of projects. */
  predicate AveragesConsistent(p: SystemPerformance, projects: nat) {
    projects > 0 &&
    p.averageExecutionTime == p.totalExecutionTime as real / projects as real &&
    p.averageTeamsPerProject == p.totalTeamsExecuted as real / projects as real &&
    p.averageInterventionsPerProject == p.totalHumanInterventions as real / projects as real
  }

  /** The totals after one more run, and the averages over `projects`. */
  function Accumulate(p: SystemPerformance, m: Option<PerformanceMetrics>, projects: nat): (r: SystemPerformance)
    requires projects > 0
    ensures AveragesConsistent(r, projects)
    ensures r.totalExecutionTime == p.totalExecutionTime + ExecutionTimeOf(m)
    ensures r.totalTeamsExecuted == p.totalTeamsExecuted + TeamsExecutedOf(m)
    ensures r.totalHumanInterventions == p.totalHumanInterventions + InterventionsOf(m)
    ensures r.averageQualityScore == p.averageQualityScore
  {
    var time := p.totalExecutionTime + ExecutionTimeOf(m);
    var teams := p.totalTeamsExecuted + TeamsExecutedOf(m);
    var interventions := p.totalHumanInterventions + InterventionsOf(m);
    SystemPerformance(time, teams, interventions, p.averageQualityScore,
                      time as real / projects as real, teams as real / projects as real,
                      interventions as real / projects as real)
  }

  /** One more team extends the inner results and the log by its own run. */
  lemma {:induction false} InnerStep(teams: seq<(string, seq<string>)>, i: nat, request: WorkflowRequest,
                                     failures: seq<(string, string)>, timestamp: nat,
                                     team: string, agents: seq<string>)
    requires i < |teams| && teams[i] == (team, agents)
    ensures InnerResultsOf(teams[..i + 1], request, failures) ==
              InnerResultsOf(teams[..i], request, failures) + [(team, TeamResult(team, agents, request, failures))]
    ensures var requirement := TeamRequirement(team, request);
            InnerLogOf(teams[..i + 1], request, failures, timestamp) ==
              InnerLogOf(teams[..i], request, failures, timestamp) +
              (if Lookup(failures, team).None?
               then [IT.ExecutionRecord(timestamp, team, requirement, |agents|,
                                        |IT.TeamOutput(team, requirement, agents)|, true)]
               else [])
  {
    assert teams[..i + 1][..i] == teams[..i];
  }

  // ---------------------------------------------------------------------
  // execute_complete_som_workflow on values
  // ---------------------------------------------------------------------

  /** The result as it stands once the inner phase has run. */
  function Started(scenario: string, request: WorkflowRequest, inner: seq<(string, string)>, clock: Clock)
    : WorkflowResult
  {
    WorkflowResult(scenario, clock.start, request, inner, None, "", None, false, None, None)
  }

  /** The `except` branch: the message of what was raised, a failure, and the
      end time. */
  function Failed(w: WorkflowResult, message: string, clock: Clock): (r: WorkflowResult)
    ensures !r.success && r.error == Some(message) && r.endTime == Some(clock.finish)
    ensures r.innerTeamResults == w.innerTeamResults && r.scenario == w.scenario
    ensures r.performanceMetrics == w.performanceMetrics
  {
    w.(error := Some(message), success := false, endTime := Some(clock.finish))
  }

  /** Phases 3 and 4 as the source orders them: the performance analysis
      reads the end time, which is set only afterwards, so the run always
      ends in the `except` branch with a `KeyError`. */
  function LaterPhasesAsWritten(w: WorkflowResult, c: OT.CoordinationResult, clock: Clock): (r: WorkflowResult)
    requires w.endTime.None?
    ensures !r.success && r.error == Some("'end_time'") && r.performanceMetrics == w.performanceMetrics
  {
    var delivered := w.(finalDeliverable := DeliverableOf(w.scenario, w.request, clock.generated, w.innerTeamResults, c));
    var metrics := AnalyzeWorkflowPerformance(delivered);
    Failed(delivered, metrics.message, clock)
  }

  /** Phases 3 and 4 with the end time set before the analysis reads it: the
      deliverable, the metrics, and success. */
  function LaterPhases(w: WorkflowResult, c: OT.CoordinationResult, clock: Clock): (r: WorkflowResult)
    ensures r.success && r.error.None? == w.error.None? && r.endTime == Some(clock.finish)
    ensures r.finalDeliverable == DeliverableOf(w.scenario, w.request, clock.generated, w.innerTeamResults, c)
    ensures r.performanceMetrics.Some?
    ensures r.performanceMetrics.value.teamsExecuted == |w.innerTeamResults|
    ensures r.performanceMetrics.value.deliverableLength == |r.finalDeliverable|
  {
    var delivered := w.(finalDeliverable := DeliverableOf(w.scenario, w.request, clock.generated, w.innerTeamResults, c),
                        endTime := Some(clock.finish));
    var metrics := AnalyzeWorkflowPerformance(delivered);
    delivered.(performanceMetrics := Some(metrics.value), success := true)
  }

  /** The result of one run, from the inner results and the outcome of the
      outer coordination. */
  function WorkflowOf(scenario: string, request: WorkflowRequest, inner: seq<(string, string)>,
                      outcome: Result<OT.CoordinationResult>, clock: Clock): WorkflowResult
  {
    var started := Started(scenario, request, inner, clock);
    match outcome
    case Err(_, message) => Failed(started, message, clock)
    case Ok(c) => LaterPhases(started.(outerCoordinationResults := Some(c)), c, clock)
  }

  /** A run succeeds exactly when the outer coordination does; either way it
      ends with an end time, and it carries an error message exactly when it
      fails. The metrics it records report `coordination_success` as false,
      since they are taken before success is set. */
  lemma {:induction false} WorkflowOutcome(scenario: string, request: WorkflowRequest, inner: seq<(string, string)>,
                                           outcome: Result<OT.CoordinationResult>, clock: Clock)
    ensures var w := WorkflowOf(scenario, request, inner, outcome, clock);
            (w.success <==> outcome.Ok?) && (w.error.Some? <==> !w.success) && w.endTime == Some(clock.finish) &&
            w.innerTeamResults == inner && w.scenario == scenario && w.startTime == clock.start &&
            (w.performanceMetrics.Some? <==> w.success) &&
            (w.performanceMetrics.Some? ==> !w.performanceMetrics.value.coordinationSuccess)
    ensures var w := WorkflowOf(scenario, request, inner, outcome, clock);
            outcome.Err? ==> w.error == Some(outcome.message)
    ensures var w := WorkflowOf(scenario, request, inner, outcome, clock);
            outcome.Ok? ==>
              w.outerCoordinationResults == Some(outcome.value) &&
              w.finalDeliverable == DeliverableOf(scenario, request, clock.generated, inner, outcome.value)
  {
  }

  /** With team names free of '$', a run of the inner results through the
      outer coordination succeeds exactly when the project budget is not
      given as text; a failed run records the text of the comparison's
      TypeError, `str(e)`. */
  lemma {:induction false} WorkflowSucceedsIff(scenario: string, request: WorkflowRequest,
                                               inner: seq<(string, string)>, coordinationReply: string,
                                               allocationReply: string, clock: Clock)
    requires forall k :: 0 <= k < |inner| ==> '$' !in inner[k].0
    ensures var outcome := OT.CoordinationOutcome(inner, request.requirements, coordinationReply, allocationReply,
                                                  clock.coordination);
            WorkflowOf(scenario, request, inner, outcome, clock).success <==>
              !(request.requirements.budget.Some? && request.requirements.budget.value.BudgetText?)
    ensures var outcome := OT.CoordinationOutcome(inner, request.requirements, coordinationReply, allocationReply,
                                                  clock.coordination);
            var w := WorkflowOf(scenario, request, inner, outcome, clock);
            !w.success ==> w.error == Some(OT.ComparisonMessage)
  {
    OT.CoordinationOutcomeFails(inner, request.requirements, coordinationReply, allocationReply, clock.coordination);
  }

  // ---------------------------------------------------------------------
  // get_system_status
  // ---------------------------------------------------------------------

  datatype SystemStatus = SystemStatus(
    totalProjects: nat,
    successfulProjects: nat,
    systemPerformance: Option<SystemPerformance>,
    projectHistoryCount: nat,
    successRate: real,
    innerOrchestratorMetrics: IT.PerformanceMetrics,
    outerCoordinatorStatus: OT.ProjectStatusSummary,
    lastProject: Option<string>)

  // ---------------------------------------------------------------------
  // The coordinator
  // ---------------------------------------------------------------------

  class SoMCoordinator {
    const innerOrchestrator: IT.InnerTeamOrchestrator
    const outerCoordinator: OT.OuterTeamCoordinator
    var totalProjects: nat
    var successfulProjects: nat
    /** Empty (`{}`) until the totals are first recorded. */
    var systemPerformance: Option<SystemPerformance>
    var projectHistory: seq<WorkflowResult>

    /** Both coordinators are consistent, the teams are listed once, no more
        projects succeeded than ran, and recorded averages match their
        totals. */
    ghost predicate Valid()
      reads this, innerOrchestrator, outerCoordinator, outerCoordinator.qualityAssurance
    {
      innerOrchestrator.Valid() && outerCoordinator.Valid() && UniqueKeys(innerOrchestrator.innerTeamAgents) &&
      successfulProjects <= totalProjects &&
      (systemPerformance.Some? ==> AveragesConsistent(systemPerformance.value, totalProjects))
    }

    constructor (innerOrchestrator: IT.InnerTeamOrchestrator, outerCoordinator: OT.OuterTeamCoordinator)
      requires innerOrchestrator.Valid() && outerCoordinator.Valid() && UniqueKeys(innerOrchestrator.innerTeamAgents)
      ensures Valid()
      ensures this.innerOrchestrator == innerOrchestrator && this.outerCoordinator == outerCoordinator
      ensures totalProjects == 0 && successfulProjects == 0 && systemPerformance == None && projectHistory == []
    {
      this.innerOrchestrator := innerOrchestrator;
      this.outerCoordinator := outerCoordinator;
      totalProjects := 0;
      successfulProjects := 0;
      systemPerformance := None;
      projectHistory := [];
    }

    /** `_execute_inner_teams_phase`: each team of the orchestrator runs, in
        order, on its own requirements. */
    method ExecuteInnerTeamsPhase(request: WorkflowRequest, failures: seq<(string, string)>, timestamp: nat)
      returns (results: seq<(string, string)>)
      requires innerOrchestrator.Valid()
      modifies innerOrchestrator
      ensures innerOrchestrator.Valid() && innerOrchestrator.teamWorkflows == old(innerOrchestrator.teamWorkflows)
      ensures results == InnerResultsOf(innerOrchestrator.innerTeamAgents, request, failures)
      ensures innerOrchestrator.executionHistory ==
                old(innerOrchestrator.executionHistory) +
                InnerLogOf(innerOrchestrator.innerTeamAgents, request, failures, timestamp)
    {
      var teams := innerOrchestrator.innerTeamAgents;
      results := [];
      var i := 0;
      while i < |teams|
        invariant 0 <= i <= |teams|
        invariant innerOrchestrator.Valid() && innerOrchestrator.teamWorkflows == old(innerOrchestrator.teamWorkflows)
        invariant results == InnerResultsOf(teams[..i], request, failures)
        invariant innerOrchestrator.executionHistory ==
                    old(innerOrchestrator.executionHistory) + InnerLogOf(teams[..i], request, failures, timestamp)
      {
        var (team, agents) := teams[i];
        var requirement := TeamRequirement(team, request);
        var failure := Lookup(failures, team);
        ghost var before := innerOrchestrator.executionHistory;
        ghost var entry := if failure.None?
                           then [IT.ExecutionRecord(timestamp, team, requirement, |agents|,
                                                    |IT.TeamOutput(team, requirement, agents)|, true)]
                           else [];
        var output := innerOrchestrator.ExecuteTeamWorkflow(team, requirement, agents, failure, timestamp);
        assert innerOrchestrator.executionHistory == before + entry;
        InnerStep(teams, i, request, failures, timestamp, team, agents);
        AppendAssoc(old(innerOrchestrator.executionHistory), InnerLogOf(teams[..i], request, failures, timestamp), entry);
        assert output == TeamResult(team, agents, request, failures);
        results := results + [(team, output)];
        i := i + 1;
      }
      assert teams[..i] == teams;
    }

    /** `create_final_deliverable`: the sections written one after the
        other, the contributions, recommendations and quality lines each by
        its own loop. */
    static method CreateFinalDeliverable(scenario: string, request: WorkflowRequest, generated: nat,
                                         results: seq<(string, string)>, c: OT.CoordinationResult)
      returns (d: string)
      ensures d == DeliverableOf(scenario, request, generated, results, c)
    {
      var contributions := WriteContributions(results);
      var numbered := WriteNumbered(Take(c.finalRecommendations, 10));
      var quality := "";
      if c.individualAssessments != [] {
        var lines := WriteQualityLines(c.individualAssessments);
        quality := "\n\nQUALITY ASSESSMENT SUMMARY:\n" + Rule() + "\n" + lines;
      }
      var parts := [DeliverableHead(scenario, generated, request.json), contributions, InsightsHeading(),
                    PlanSection(OT.IntegrationPlanText(c.integrationPlan)), RecommendationsHeading, numbered,
                    quality, DeliverableTail(0)];
      assert parts == Sections(scenario, request, generated, results, c);
      d := Concat(parts);
    }

    static method WriteContributions(results: seq<(string, string)>) returns (r: string)
      ensures r == Contributions(results)
    {
      r := "";
      var i := 0;
      while i < |results|
        invariant 0 <= i <= |results| && r == Contributions(results[..i])
      {
        assert results[..i + 1][..i] == results[..i];
        r := r + ContributionBlock(results[i].0, results[i].1);
        i := i + 1;
      }
      assert results[..i] == results;
    }

    static method WriteNumbered(recs: seq<string>) returns (r: string)
      ensures r == Numbered(recs)
    {
      r := "";
      var i := 0;
      while i < |recs|
        invariant 0 <= i <= |recs| && r == Numbered(recs[..i])
      {
        assert recs[..i + 1][..i] == recs[..i];
        r := r + NumberedLine(i + 1, recs[i]);
        i := i + 1;
      }
      assert recs[..i] == recs;
    }

    static method WriteQualityLines(assessments: seq<(string, QA.Assessment)>) returns (r: string)
      ensures r == QualityLines(assessments)
    {
      r := "";
      var i := 0;
      while i < |assessments|
        invariant 0 <= i <= |assessments| && r == QualityLines(assessments[..i])
      {
        assert assessments[..i + 1][..i] == assessments[..i];
        r := r + QualityLine(assessments[i].0, assessments[i].1.overallScore);
        i := i + 1;
      }
      assert assessments[..i] == assessments;
    }

    /** `_update_system_state` with the totals starting from zero when none are
        recorded: the run is counted, a success too, the totals grow by the
        run's figures and the averages are taken over all runs. */
    method UpdateSystemState(w: WorkflowResult)
      requires Valid()
      modifies this
      ensures Valid()
      ensures totalProjects == old(totalProjects) + 1
      ensures successfulProjects == old(successfulProjects) + (if w.success then 1 else 0)
      ensures systemPerformance ==
                Some(Accumulate(old(systemPerformance).GetOr(ZeroPerformance), w.performanceMetrics, totalProjects))
      ensures projectHistory == old(projectHistory)
    {
      totalProjects := totalProjects + 1;
      if w.success {
        successfulProjects := successfulProjects + 1;
      }
      var performance := systemPerformance.GetOr(ZeroPerformance);
      systemPerformance := Some(Accumulate(performance, w.performanceMetrics, totalProjects));
    }

    /** `_update_system_state` as the source initialises the state: the run is
        counted first, then the totals are read from the empty dictionary,
        which raises a `KeyError`; with totals recorded it behaves as
        `UpdateSystemState`. */
    method UpdateSystemStateAsWritten(w: WorkflowResult) returns (error: Option<string>)
      requires Valid()
      modifies this
      ensures Valid()
      ensures totalProjects == old(totalProjects) + 1
      ensures successfulProjects == old(successfulProjects) + (if w.success then 1 else 0)
      ensures error.Some? <==> old(systemPerformance).None?
      ensures error.Some? ==> error.value == "'total_execution_time'" && systemPerformance == None
      ensures error.None? ==>
                systemPerformance == Some(Accumulate(old(systemPerformance).value, w.performanceMetrics, totalProjects))
    {
      totalProjects := totalProjects + 1;
      if w.success {
        successfulProjects := successfulProjects + 1;
      }
      if systemPerformance.None? {
        return Some("'total_execution_time'");
      }
      systemPerformance := Some(Accumulate(systemPerformance.value, w.performanceMetrics, totalProjects));
      error := None;
    }

    /** Phases 1 and 2: the inner teams run, then the outer coordination. */
    method RunTeamPhases(request: WorkflowRequest, failures: seq<(string, string)>,
                         coordinationReply: string, allocationReply: string, clock: Clock)
      returns (inner: seq<(string, string)>, outcome: Result<OT.CoordinationResult>)
      requires innerOrchestrator.Valid() && outerCoordinator.Valid() && UniqueKeys(innerOrchestrator.innerTeamAgents)
      modifies innerOrchestrator, outerCoordinator, outerCoordinator.teamCoordinator, outerCoordinator.userProxy,
               outerCoordinator.userProxy.proxy, outerCoordinator.qualityAssurance
      ensures innerOrchestrator.Valid() && outerCoordinator.Valid()
      ensures innerOrchestrator.teamWorkflows == old(innerOrchestrator.teamWorkflows)
      ensures inner == InnerResultsOf(innerOrchestrator.innerTeamAgents, request, failures)
      ensures innerOrchestrator.executionHistory ==
                old(innerOrchestrator.executionHistory) +
                InnerLogOf(innerOrchestrator.innerTeamAgents, request, failures, clock.teams)
      ensures outcome == OT.CoordinationOutcome(inner, request.requirements, coordinationReply, allocationReply,
                                                clock.coordination)
      ensures outerCoordinator.Recorded(outcome, inner, clock.coordination,
                                        old(outerCoordinator.coordinationHistory), old(outerCoordinator.activeTeams),
                                        old(outerCoordinator.completedTeams),
                                        old(outerCoordinator.resourceAllocations), old(outerCoordinator.qualityStatus))
      ensures outerCoordinator.pendingDecisions == old(outerCoordinator.pendingDecisions)
    {
      inner := ExecuteInnerTeamsPhase(request, failures, clock.teams);
      assert UniqueKeys(inner) by {
        InnerResultsKeys(innerOrchestrator.innerTeamAgents, request, failures);
      }
      assert unchanged(outerCoordinator);
      ghost var history := innerOrchestrator.executionHistory;
      outcome := Coordinate(inner, request, coordinationReply, allocationReply, clock);
      assert innerOrchestrator.executionHistory == history;
    }

    /** Phase 2: the outer coordination over the inner results. */
    method Coordinate(inner: seq<(string, string)>, request: WorkflowRequest,
                      coordinationReply: string, allocationReply: string, clock: Clock)
      returns (outcome: Result<OT.CoordinationResult>)
      requires outerCoordinator.Valid() && UniqueKeys(inner)
      modifies outerCoordinator, outerCoordinator.teamCoordinator, outerCoordinator.userProxy,
               outerCoordinator.userProxy.proxy, outerCoordinator.qualityAssurance
      ensures outerCoordinator.Valid()
      ensures outcome == OT.CoordinationOutcome(inner, request.requirements, coordinationReply, allocationReply,
                                                clock.coordination)
      ensures outerCoordinator.Recorded(outcome, inner, clock.coordination,
                                        old(outerCoordinator.coordinationHistory), old(outerCoordinator.activeTeams),
                                        old(outerCoordinator.completedTeams),
                                        old(outerCoordinator.resourceAllocations), old(outerCoordinator.qualityStatus))
      ensures outerCoordinator.pendingDecisions == old(outerCoordinator.pendingDecisions)
    {
      outcome := outerCoordinator.CoordinateProjectExecution(inner, request.requirements, coordinationReply,
                                                             allocationReply, clock.coordination, clock.coordination);
    }

    /** The end of `execute_complete_som_workflow`: a successful run updates
        the system state, and every run joins the project history. */
    method RecordWorkflow(w: WorkflowResult)
      requires Valid()
      modifies this
      ensures Valid()
      ensures projectHistory == old(projectHistory) + [w]
      ensures totalProjects == old(totalProjects) + (if w.success then 1 else 0)
      ensures successfulProjects == old(successfulProjects) + (if w.success then 1 else 0)
      ensures systemPerformance ==
                if w.success
                then Some(Accumulate(old(systemPerformance).GetOr(ZeroPerformance), w.performanceMetrics, totalProjects))
                else old(systemPerformance)
    {
      if w.success {
        UpdateSystemState(w);
      }
      projectHistory := projectHistory + [w];
    }

    /** `execute_complete_som_workflow` with the end time set before the
        performance analysis reads it: the inner teams run, then the outer
        coordination; the run's result follows from both, is recorded in
        the history whatever its outcome, and is counted only when it
        succeeds. */
    method ExecuteCompleteSomWorkflow(scenario: string, request: WorkflowRequest, failures: seq<(string, string)>,
                                      coordinationReply: string, allocationReply: string, clock: Clock)
      returns (w: WorkflowResult)
      requires Valid()
      modifies this, innerOrchestrator, outerCoordinator, outerCoordinator.teamCoordinator,
               outerCoordinator.userProxy, outerCoordinator.userProxy.proxy, outerCoordinator.qualityAssurance
      ensures Valid()
      ensures var inner := InnerResultsOf(innerOrchestrator.innerTeamAgents, request, failures);
              w == WorkflowOf(scenario, request, inner,
                              OT.CoordinationOutcome(inner, request.requirements, coordinationReply, allocationReply,
                                                     clock.coordination),
                              clock)
      ensures innerOrchestrator.executionHistory ==
                old(innerOrchestrator.executionHistory) +
                InnerLogOf(innerOrchestrator.innerTeamAgents, request, failures, clock.teams)
      ensures w.outerCoordinationResults.Some? ==>
                outerCoordinator.coordinationHistory ==
                  old(outerCoordinator.coordinationHistory) + [w.outerCoordinationResults.value]
      ensures w.outerCoordinationResults.None? ==>
                outerCoordinator.coordinationHistory == old(outerCoordinator.coordinationHistory)
      ensures var inner := InnerResultsOf(innerOrchestrator.innerTeamAgents, request, failures);
              outerCoordinator.Recorded(OT.CoordinationOutcome(inner, request.requirements, coordinationReply,
                                                               allocationReply, clock.coordination),
                                        inner, clock.coordination,
                                        old(outerCoordinator.coordinationHistory), old(outerCoordinator.activeTeams),
                                        old(outerCoordinator.completedTeams),
                                        old(outerCoordinator.resourceAllocations), old(outerCoordinator.qualityStatus))
      ensures outerCoordinator.pendingDecisions == old(outerCoordinator.pendingDecisions)
      ensures innerOrchestrator.teamWorkflows == old(innerOrchestrator.teamWorkflows)
      ensures projectHistory == old(projectHistory) + [w]
      ensures totalProjects == old(totalProjects) + (if w.success then 1 else 0)
      ensures successfulProjects == old(successfulProjects) + (if w.success then 1 else 0)
      ensures systemPerformance ==
                if w.success
                then Some(Accumulate(old(systemPerformance).GetOr(ZeroPerformance), w.performanceMetrics, totalProjects))
                else old(systemPerformance)
    {
      var inner, outcome := RunTeamPhases(request, failures, coordinationReply, allocationReply, clock);
      w := WorkflowOf(scenario, request, inner, outcome, clock);
      assert w.outerCoordinationResults.Some? <==> outcome.Ok?;
      RecordWorkflow(w);
    }

    /** `execute_complete_som_workflow` as written: the outer coordination
        always raises when it builds the quality report, so every run is
        recorded as failed with that error and no counter moves. */
    method ExecuteCompleteSomWorkflowAsWritten(scenario: string, request: WorkflowRequest,
                                               failures: seq<(string, string)>, coordinationReply: string,
                                               allocationReply: string, clock: Clock)
      returns (w: WorkflowResult)
      requires Valid()
      modifies this, innerOrchestrator, outerCoordinator.teamCoordinator, outerCoordinator.userProxy,
               outerCoordinator.userProxy.proxy, outerCoordinator.qualityAssurance
      ensures Valid()
      ensures w == Failed(Started(scenario, request, InnerResultsOf(innerOrchestrator.innerTeamAgents, request, failures),
                                  clock),
                          "'set' object is not subscriptable", clock)
      ensures innerOrchestrator.executionHistory ==
                old(innerOrchestrator.executionHistory) +
                InnerLogOf(innerOrchestrator.innerTeamAgents, request, failures, clock.teams)
      ensures projectHistory == old(projectHistory) + [w]
      ensures totalProjects == old(totalProjects) && successfulProjects == old(successfulProjects)
      ensures systemPerformance == old(systemPerformance)
    {
      var inner, outcome := RunTeamPhasesAsWritten(request, failures, coordinationReply, allocationReply, clock);
      w := Started(scenario, request, inner, clock);
      w := Failed(w, outcome.message, clock);
      projectHistory := projectHistory + [w];
    }

    /** Phases 1 and 2 as written: the inner teams run, then the outer
        coordination raises in its third step. */
    method RunTeamPhasesAsWritten(request: WorkflowRequest, failures: seq<(string, string)>,
                                  coordinationReply: string, allocationReply: string, clock: Clock)
      returns (inner: seq<(string, string)>, outcome: Result<OT.CoordinationResult>)
      requires Valid()
      modifies innerOrchestrator, outerCoordinator.teamCoordinator, outerCoordinator.userProxy,
               outerCoordinator.userProxy.proxy, outerCoordinator.qualityAssurance
      ensures Valid()
      ensures inner == InnerResultsOf(innerOrchestrator.innerTeamAgents, request, failures)
      ensures innerOrchestrator.executionHistory ==
                old(innerOrchestrator.executionHistory) +
                InnerLogOf(innerOrchestrator.innerTeamAgents, request, failures, clock.teams)
      ensures outcome == Err("TypeError", "'set' object is not subscriptable")
      ensures unchanged(this)
    {
      inner := ExecuteInnerTeamsPhase(request, failures, clock.teams);
      assert UniqueKeys(inner) by {
        InnerResultsKeys(innerOrchestrator.innerTeamAgents, request, failures);
      }
      outcome := CoordinateAsWritten(inner, request, coordinationReply, allocationReply, clock);
    }

    /** Phase 2 as written, on the inner results. */
    method CoordinateAsWritten(inner: seq<(string, string)>, request: WorkflowRequest,
                               coordinationReply: string, allocationReply: string, clock: Clock)
      returns (outcome: Result<OT.CoordinationResult>)
      requires outerCoordinator.Valid() && UniqueKeys(inner)
      modifies outerCoordinator.teamCoordinator, outerCoordinator.userProxy, outerCoordinator.userProxy.proxy,
               outerCoordinator.qualityAssurance
      ensures outerCoordinator.Valid()
      ensures outcome == Err("TypeError", "'set' object is not subscriptable")
      ensures outerCoordinator.PlanningLogged(inner, coordinationReply, allocationReply, clock.coordination)
      ensures outerCoordinator.Assessed(inner, clock.coordination)
      ensures unchanged(this, innerOrchestrator)
    {
      outcome := outerCoordinator.CoordinateProjectExecutionAsWritten(inner, request.requirements,
                                                                     coordinationReply, allocationReply,
                                                                     clock.coordination);
    }

    /** `get_system_status`: the counters, the number of runs on record, the
        success rate over at least one project, both coordinators' figures
        and the last run's scenario. */
    method GetSystemStatus() returns (s: SystemStatus)
      ensures s.totalProjects == totalProjects && s.successfulProjects == successfulProjects
      ensures s.systemPerformance == systemPerformance && s.projectHistoryCount == |projectHistory|
      ensures s.successRate == RateOf(successfulProjects, totalProjects)
      ensures Valid() ==> 0.0 <= s.successRate <= 1.0
      ensures s.innerOrchestratorMetrics == IT.MetricsOf(innerOrchestrator.executionHistory)
      ensures s.outerCoordinatorStatus == outerCoordinator.StatusSummary()
      ensures s.lastProject.Some? <==> projectHistory != []
      ensures s.lastProject.Some? ==> s.lastProject.value == projectHistory[|projectHistory| - 1].scenario
    {
      var inner := innerOrchestrator.GetTeamPerformanceMetrics();
      s := SystemStatus(totalProjects, successfulProjects, systemPerformance, |projectHistory|,
                        RateOf(successfulProjects, totalProjects), inner, outerCoordinator.StatusSummary(),
                        if projectHistory == [] then None else Some(projectHistory[|projectHistory| - 1].scenario));
    }
  }
}
