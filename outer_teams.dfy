/** The outer coordinator (som_framework/outer_teams.py,
    `OuterTeamCoordinator`): it turns the inner teams' outputs into resource
    requests, runs the four coordination steps through the outer agents and
    the project director, derives the final recommendations, and keeps the
    project state (active and completed teams, the allocation on record and a
    quality status per team). */
module OuterTeams {
  import opened Wrappers
  import opened Text
  import opened Dict
  import RM = ResourceManagement
  import QA = QualityAssurance
  import TC = TeamCoordination
  import UP = UserProxy

  // ---------------------------------------------------------------------
  // _generate_resource_requests and _get_personnel_requirements
  // ---------------------------------------------------------------------

  const BaseBudgets: seq<(string, nat)> :=
    [("research_analysis", 75000), ("creative_design", 100000), ("technical_implementation", 200000)]
  const BaseTimelines: seq<(string, nat)> :=
    [("research_analysis", 4), ("creative_design", 6), ("technical_implementation", 10)]
  const Priorities: seq<(string, string)> :=
    [("research_analysis", "high"), ("creative_design", "medium"), ("technical_implementation", "high")]
  const PersonnelMap: seq<(string, seq<string>)> := [
    ("research_analysis", ["Senior Researcher", "Data Analyst", "Research Coordinator"]),
    ("creative_design", ["Creative Director", "Content Strategist", "Visual Designer"]),
    ("technical_implementation", ["Tech Lead", "Senior Developer", "QA Engineer", "DevOps Engineer"])
  ]

  function BaseBudget(team: string): nat { Lookup(BaseBudgets, team).GetOr(50000) }
  function BaseWeeks(team: string): nat { Lookup(BaseTimelines, team).GetOr(4) }
  function PriorityFor(team: string): string { Lookup(Priorities, team).GetOr("medium") }

  /** `_get_personnel_requirements`. */
  function PersonnelRequirements(team: string): seq<string> {
    Lookup(PersonnelMap, team).GetOr(["Team Lead", "Specialist"])
  }

  /** The three tables and their defaults, team by team. */
  lemma {:induction false} RequestTables(team: string)
    ensures team == "research_analysis" ==>
              BaseBudget(team) == 75000 && BaseWeeks(team) == 4 && PriorityFor(team) == "high" &&
              |PersonnelRequirements(team)| == 3
    ensures team == "creative_design" ==>
              BaseBudget(team) == 100000 && BaseWeeks(team) == 6 && PriorityFor(team) == "medium" &&
              |PersonnelRequirements(team)| == 3
    ensures team == "technical_implementation" ==>
              BaseBudget(team) == 200000 && BaseWeeks(team) == 10 && PriorityFor(team) == "high" &&
              |PersonnelRequirements(team)| == 4
    ensures team !in ["research_analysis", "creative_design", "technical_implementation"] ==>
              BaseBudget(team) == 50000 && BaseWeeks(team) == 4 && PriorityFor(team) == "medium" &&
              PersonnelRequirements(team) == ["Team Lead", "Specialist"]
  {
    var names := ["research_analysis", "creative_design", "technical_implementation"];
    assert Keys(BaseBudgets) == names && Keys(BaseTimelines) == names;
    assert Keys(Priorities) == names && Keys(PersonnelMap) == names;
  }

  /** `min(2.0, len(team_output) / 1000)`. */
  function ComplexityFactor(outputLength: nat): (c: real)
    ensures 0.0 <= c <= 2.0 && c <= outputLength as real / 1000.0
    ensures c == 2.0 || c == outputLength as real / 1000.0
  {
    if outputLength as real / 1000.0 < 2.0 then outputLength as real / 1000.0 else 2.0
  }

  /** `int(base * factor)` over the exact product: truncation, which is the
      floor of a product that is not negative. */
  function Scaled(base: nat, factor: real): (n: nat)
    requires 0.0 <= factor
    ensures n as real <= base as real * factor < n as real + 1.0
  {
    var x := base as real * factor;
    assert 0.0 <= x;
    x.Floor
  }

  function RequestDescription(team: string): string {
    "Resources for " + ReplaceChar(team, '_', ' ') + " implementation"
  }

  /** The request for one team; the justification text is not modelled. */
  function RequestFor(team: string, output: string): RM.ResourceRequest {
    var factor := ComplexityFactor(|output|);
    RM.ResourceRequest(
      Some(Scaled(BaseBudget(team), factor)),
      Some(Scaled(BaseWeeks(team), factor)),
      Some(PersonnelRequirements(team)),
      Some(PriorityFor(team)),
      Some(RequestDescription(team)))
  }

  /** `_generate_resource_requests`: one request per team, in the teams' order. */
  function GenerateResourceRequests(results: seq<(string, string)>): (r: seq<(string, RM.ResourceRequest)>)
    ensures Keys(r) == Keys(results)
    ensures forall k :: 0 <= k < |results| ==> r[k].1 == RequestFor(results[k].0, results[k].1)
  {
    if results == [] then []
    else [(results[0].0, RequestFor(results[0].0, results[0].1))] + GenerateResourceRequests(results[1..])
  }

  lemma {:induction false} MulMonotone(a: real, x: real, y: real)
    requires 0.0 <= a && x <= y
    ensures a * x <= a * y
  {
    assert a * y - a * x == a * (y - x);
  }

  /** Scaling by a factor of at most 2 at most doubles, and exactly doubles
      at 2. */
  lemma {:induction false} ScaledBounds(base: nat, factor: real)
    requires 0.0 <= factor <= 2.0
    ensures Scaled(base, factor) <= 2 * base
    ensures factor == 2.0 ==> Scaled(base, factor) == 2 * base
  {
    var n := Scaled(base, factor);
    MulMonotone(base as real, factor, 2.0);
    assert n as real < (2 * base) as real + 1.0;
  }

  /** A request never asks for more than twice its base budget and timeline,
      reaches exactly twice from 2000 characters on, and carries every field
      with the table's priority and personnel. */
  lemma {:induction false} RequestBounds(team: string, output: string)
    ensures var r := RequestFor(team, output);
            0 <= RM.BudgetOf(r) <= 2 * BaseBudget(team) && 0 <= RM.TimeOf(r) <= 2 * BaseWeeks(team)
    ensures var r := RequestFor(team, output);
            |output| >= 2000 ==> RM.BudgetOf(r) == 2 * BaseBudget(team) && RM.TimeOf(r) == 2 * BaseWeeks(team)
    ensures var r := RequestFor(team, output);
            RM.PriorityOf(r) == PriorityFor(team) && RM.PriorityOf(r) in ["high", "medium"] &&
            RM.PersonnelOf(r) == PersonnelRequirements(team) && r.description.Some?
  {
    var factor := ComplexityFactor(|output|);
    ScaledBounds(BaseBudget(team), factor);
    ScaledBounds(BaseWeeks(team), factor);
    if |output| >= 2000 {
      assert |output| as real / 1000.0 >= 2.0;
    }
    RequestTables(team);
  }

  lemma {:induction false} ScaledMonotone(base: nat, f1: real, f2: real)
    requires 0.0 <= f1 <= f2
    ensures Scaled(base, f1) <= Scaled(base, f2)
  {
    var n1 := Scaled(base, f1);
    var n2 := Scaled(base, f2);
    var p1 := base as real * f1;
    var p2 := base as real * f2;
    assert p1 <= p2 by {
      MulMonotone(base as real, f1, f2);
    }
    assert n1 as real <= p1;
    assert p2 < n2 as real + 1.0;
    assert (n1 as int - n2 as int) as real < 1.0;
  }

  /** A longer output never asks for less budget or time. */
  lemma {:induction false} RequestMonotone(team: string, shorter: string, longer: string)
    requires |shorter| <= |longer|
    ensures RM.BudgetOf(RequestFor(team, shorter)) <= RM.BudgetOf(RequestFor(team, longer))
    ensures RM.TimeOf(RequestFor(team, shorter)) <= RM.TimeOf(RequestFor(team, longer))
  {
    var f1 := ComplexityFactor(|shorter|);
    var f2 := ComplexityFactor(|longer|);
    assert |shorter| as real / 1000.0 <= |longer| as real / 1000.0;
    ScaledMonotone(BaseBudget(team), f1, f2);
    ScaledMonotone(BaseWeeks(team), f1, f2);
  }

  // ---------------------------------------------------------------------
  // The allocation plan as text, and the budget read back from it
  // ---------------------------------------------------------------------

  /** `{n:,}`, without the thousands separators (the only reader of the text
      below removes them). */
  function Amount(n: int): (r: string)
    ensures '$' !in r
  {
    if n < 0 then "-" + NatToString(-n) else NatToString(n)
  }

  function AllocationStatusText(s: RM.AllocationStatus): string {
    if s.Approved? then "APPROVED" else "REQUIRES_HUMAN_DECISION"
  }

  const PriorityLabel: string := ":\n- Priority: "
  const BudgetLabel: string := "\n- Budget Request: "
  const TimeLabel: string := "\n- Time Request: "
  const StatusLabel: string := " weeks\n- Status: "

  /** A plan line up to its `$`, and what follows it. */
  function LineHead(l: RM.AllocationLine): string {
    "\n" + Upper(l.team) + PriorityLabel + l.priority + BudgetLabel
  }

  function LineTail(l: RM.AllocationLine): string {
    Amount(l.budget) + TimeLabel + Amount(l.timeWeeks) + StatusLabel + AllocationStatusText(l.status) + "\n"
  }

  function LinesText(lines: seq<RM.AllocationLine>): string {
    if lines == [] then "" else LineHead(lines[0]) + "$" + LineTail(lines[0]) + LinesText(lines[1..])
  }

  const PlanTitle: string := "RESOURCE ALLOCATION PLAN\n"
  const PlanHead: string := PlanTitle + "RESOURCE ANALYSIS:\n" + "- Total Budget Requested: "
  const AvailableBudgetLabel: string := "\n- Available Budget: "
  const TotalTimeLabel: string := "\n- Total Time Requested: "
  const AvailableTimelineLabel: string := " weeks\n- Available Timeline: "
  const AllocationHeading: string := " weeks\n" + "PRIORITY-BASED ALLOCATION:\n"
  const PlanTrailer: string := "\nCONFLICT RESOLUTION NEEDED:\n" + "HUMAN DECISIONS REQUIRED:\n"

  function AnalysisTail(plan: RM.AllocationPlan): string {
    Amount(plan.availableBudget) + TotalTimeLabel + Amount(plan.analysis.totalTimeRequested) +
    AvailableTimelineLabel + Amount(plan.availableTimeline) + AllocationHeading
  }

  /** `create_allocation_plan`'s text: the figures of the analysis, then one
      block per line in allocation order. */
  function AllocationPlanText(plan: RM.AllocationPlan): string {
    PlanHead + "$" + (Amount(plan.analysis.totalBudgetRequested) + AvailableBudgetLabel + "$" +
    (AnalysisTail(plan) + (LinesText(plan.lines) + PlanTrailer)))
  }

  /** `piece.replace(",", "").replace(":", "").strip().isdigit()`. */
  predicate IsBareNumber(piece: string) {
    IsDigits(Strip(RemoveChar(RemoveChar(piece, ','), ':')))
  }

  /** The sum over the `$`-pieces of the plan that are bare numbers of
      `piece.get("budget", 0)`: `get` is not a string method, so the first
      such piece raises, and without one the sum is empty. */
  function PlanBudgetTotal(planText: string): (r: Result<int>)
    ensures r.Ok? ==> r.value == 0
    ensures r.Err? <==> exists p :: p in Split(planText, '$') && IsBareNumber(p)
  {
    if exists p :: p in Split(planText, '$') && IsBareNumber(p)
    then Err("AttributeError", "'str' object has no attribute 'get'")
    else Ok(0)
  }

  /** A piece with a letter in it is not a bare number. */
  lemma {:induction false} LetterNotBare(piece: string)
    requires HasLetter(piece)
    ensures !IsBareNumber(piece)
  {
    var i :| 0 <= i < |piece| && IsLetterAscii(piece[i]);
    var c := piece[i];
    var q := RemoveChar(RemoveChar(piece, ','), ':');
    assert c in q;
    StripKeeps(q, c);
  }

  /** Every `$`-piece of the text has a letter in it. */
  predicate Worded(s: string) {
    forall p :: p in Split(s, '$') ==> HasLetter(p)
  }

  lemma {:induction false} WordedFree(s: string)
    requires '$' !in s && HasLetter(s)
    ensures Worded(s)
  {
    SplitFree(s, '$');
  }

  lemma {:induction false} WordedPrepend(c: string, b: string)
    requires '$' !in c && Worded(b)
    ensures Worded(c + b)
  {
    SplitPrepend(c, b, '$');
    var parts := Split(b, '$');
    assert parts[0] in parts;
    HasLetterIn(c, parts[0], "");
    assert c + parts[0] + "" == c + parts[0];
    forall p | p in Split(c + b, '$') ensures HasLetter(p) {
      if p != c + parts[0] {
        assert p in parts[1..];
      }
    }
  }

  lemma {:induction false} WordedPiece(a: string, b: string)
    requires '$' !in a && HasLetter(a) && Worded(b)
    ensures Worded(a + "$" + b)
  {
    SplitAtSeparator(a, b, '$');
  }

  lemma {:induction false} UpperDollarFree(s: string)
    requires '$' !in s
    ensures '$' !in Upper(s)
  {
    forall i | 0 <= i < |s| ensures Upper(s)[i] != '$' {
      assert s[i] != '$';
    }
  }

  /** No team name or priority of the plan holds a `$`. */
  predicate DollarFreeLines(lines: seq<RM.AllocationLine>) {
    forall k :: 0 <= k < |lines| ==> '$' !in lines[k].team && '$' !in lines[k].priority
  }

  lemma TrailerWorded()
    ensures Worded(PlanTrailer)
  {
    var first := "\nCONFLICT RESOLUTION NEEDED:\n";
    assert '$' !in first && '$' !in "HUMAN DECISIONS REQUIRED:\n";
    assert IsLetterAscii(first[1]);
    HasLetterIn("", first, "HUMAN DECISIONS REQUIRED:\n");
    assert "" + first + "HUMAN DECISIONS REQUIRED:\n" == PlanTrailer;
    WordedFree(PlanTrailer);
  }

  lemma {:induction false} LineTailFree(l: RM.AllocationLine)
    ensures '$' !in LineTail(l)
  {
    assert '$' !in TimeLabel && '$' !in StatusLabel;
    assert '$' !in AllocationStatusText(l.status);
  }

  lemma {:induction false} LineHeadWorded(l: RM.AllocationLine)
    requires '$' !in l.team && '$' !in l.priority
    ensures '$' !in LineHead(l) && HasLetter(LineHead(l))
  {
    UpperDollarFree(l.team);
    assert '$' !in PriorityLabel && '$' !in BudgetLabel;
    assert IsLetterAscii(BudgetLabel[3]);
    HasLetterIn("\n" + Upper(l.team) + PriorityLabel + l.priority, BudgetLabel, "");
    assert "\n" + Upper(l.team) + PriorityLabel + l.priority + BudgetLabel + "" == LineHead(l);
  }

  lemma {:induction false} DollarFreeTail(lines: seq<RM.AllocationLine>)
    requires lines != [] && DollarFreeLines(lines)
    ensures DollarFreeLines(lines[1..])
  {
    forall k | 0 <= k < |lines[1..]| ensures '$' !in lines[1..][k].team && '$' !in lines[1..][k].priority {
      assert lines[1..][k] == lines[k + 1];
    }
  }

  lemma ConcatRegroup(a: string, b: string, c: string, d: string)
    ensures a + b + c + d == a + (b + (c + d))
  {
  }

  lemma {:induction false} LinesTextCons(lines: seq<RM.AllocationLine>)
    requires lines != []
    ensures LinesText(lines) + PlanTrailer ==
            LineHead(lines[0]) + "$" + (LineTail(lines[0]) + (LinesText(lines[1..]) + PlanTrailer))
  {
    ConcatRegroup(LineHead(lines[0]) + "$", LineTail(lines[0]), LinesText(lines[1..]), PlanTrailer);
  }

  lemma {:induction false} LinesWorded(lines: seq<RM.AllocationLine>)
    requires DollarFreeLines(lines)
    ensures Worded(LinesText(lines) + PlanTrailer)
  {
    if lines == [] {
      assert LinesText(lines) + PlanTrailer == PlanTrailer;
      TrailerWorded();
    } else {
      var l := lines[0];
      var rest := LinesText(lines[1..]) + PlanTrailer;
      DollarFreeTail(lines);
      LinesWorded(lines[1..]);
      LineTailFree(l);
      WordedPrepend(LineTail(l), rest);
      LineHeadWorded(l);
      WordedPiece(LineHead(l), LineTail(l) + rest);
      LinesTextCons(lines);
    }
  }

  /** The analysis lines after the available budget hold no `$`. */
  lemma {:induction false} AnalysisTailFree(plan: RM.AllocationPlan)
    ensures '$' !in AnalysisTail(plan)
  {
    assert '$' !in TotalTimeLabel && '$' !in AvailableTimelineLabel;
    assert '$' !in " weeks\n" && '$' !in "PRIORITY-BASED ALLOCATION:\n";
  }

  lemma HeadWorded()
    ensures '$' !in PlanHead && HasLetter(PlanHead)
  {
    assert '$' !in PlanTitle && '$' !in "RESOURCE ANALYSIS:\n" && '$' !in "- Total Budget Requested: ";
    assert IsLetterAscii(PlanTitle[0]);
    HasLetterIn("", PlanTitle, "RESOURCE ANALYSIS:\n" + "- Total Budget Requested: ");
    assert "" + PlanTitle + ("RESOURCE ANALYSIS:\n" + "- Total Budget Requested: ") == PlanHead;
  }

  lemma {:induction false} AvailableBudgetWorded(total: int)
    ensures '$' !in Amount(total) + AvailableBudgetLabel && HasLetter(Amount(total) + AvailableBudgetLabel)
  {
    assert '$' !in AvailableBudgetLabel && IsLetterAscii(AvailableBudgetLabel[3]);
    HasLetterIn(Amount(total), AvailableBudgetLabel, "");
    assert Amount(total) + AvailableBudgetLabel + "" == Amount(total) + AvailableBudgetLabel;
  }

  /** Every `$` of the plan text is followed by a figure and then by more
      prose before the next `$`, so no piece is a bare number and the total
      read back is always 0. */
  lemma {:induction false} PlanTextBudgetIsZero(plan: RM.AllocationPlan)
    requires DollarFreeLines(plan.lines)
    ensures PlanBudgetTotal(AllocationPlanText(plan)) == Ok(0)
  {
    var tail := LinesText(plan.lines) + PlanTrailer;
    LinesWorded(plan.lines);
    var analysis := AnalysisTail(plan);
    AnalysisTailFree(plan);
    WordedPrepend(analysis, tail);
    var second := Amount(plan.analysis.totalBudgetRequested) + AvailableBudgetLabel;
    AvailableBudgetWorded(plan.analysis.totalBudgetRequested);
    WordedPiece(second, analysis + tail);
    HeadWorded();
    WordedPiece(PlanHead, second + "$" + (analysis + tail));
    WordedBudgetZero(AllocationPlanText(plan));
  }

  /** Text whose every `$`-piece has a letter in it reads back a total of 0. */
  lemma {:induction false} WordedBudgetZero(text: string)
    requires Worded(text)
    ensures PlanBudgetTotal(text) == Ok(0)
  {
    forall p | p in Split(text, '$') ensures !IsBareNumber(p) {
      LetterNotBare(p);
    }
  }

  // ---------------------------------------------------------------------
  // _generate_final_recommendations
  // ---------------------------------------------------------------------

  /** The budget entry of the requirements: a number, or text such as
      "$500,000". */
  datatype RequirementBudget = BudgetNumber(amount: int) | BudgetText(text: string)

  /** The project requirements as the coordinator reads them: the budget, the
      available resources, and the text `str(requirements)`. */
  datatype ProjectRequirements = ProjectRequirements(
    budget: Option<RequirementBudget>,
    resources: Option<RM.AvailableResources>,
    rendered: string)

  const DefaultResources: RM.AvailableResources := RM.AvailableResources(Some(500000), Some(12))
  const DefaultProjectBudget: int := 500000

  /** Two keywords and the recommendation they trigger together. */
  datatype KeywordRule = KeywordRule(first: string, second: string, recommendation: string)

  const KeywordRules: seq<KeywordRule> := [
    KeywordRule("ai", "personalization", "Prioritize AI-powered personalization as core differentiator"),
    KeywordRule("market", "growth", "Focus on rapid market entry to capitalize on growth opportunity"),
    KeywordRule("user", "experience", "Invest heavily in user experience optimization and testing"),
    KeywordRule("technical", "scalability", "Implement scalable architecture from launch to support growth")
  ]

  const PhasedRecommendation: string := "Consider phased implementation to manage budget constraints"
  const CrisisRecommendation: string := "Implement rapid response protocols with 24/7 monitoring"
  const MilestoneRecommendation: string := "Establish regular milestone reviews and progress checkpoints"
  const IntegrationRecommendations: seq<string> := [
    "Establish cross-team communication protocols",
    "Implement shared project management and tracking systems",
    "Create integrated testing and validation procedures",
    "Plan for post-launch monitoring and optimization"
  ]

  predicate Fires(rule: KeywordRule, text: string) {
    Contains(text, rule.first) && Contains(text, rule.second)
  }

  /** The recommendations of the rules whose two keywords both occur, in the
      rules' order. */
  function KeywordRecommendations(rules: seq<KeywordRule>, text: string): (r: seq<string>)
    ensures |r| <= |rules|
  {
    if rules == [] then []
    else (if Fires(rules[0], text) then [rules[0].recommendation] else []) + KeywordRecommendations(rules[1..], text)
  }

  /** A rule's recommendation is listed exactly when both its keywords occur. */
  lemma {:induction false} KeywordRecommendationsMembers(rules: seq<KeywordRule>, text: string)
    ensures forall k :: 0 <= k < |rules| && Fires(rules[k], text) ==>
              rules[k].recommendation in KeywordRecommendations(rules, text)
    ensures forall x :: x in KeywordRecommendations(rules, text) ==>
              exists k :: 0 <= k < |rules| && Fires(rules[k], text) && rules[k].recommendation == x
  {
    if rules != [] {
      KeywordRecommendationsMembers(rules[1..], text);
      assert forall k :: 1 <= k < |rules| ==> rules[k] == rules[1..][k - 1];
    }
  }

  /** `" ".join(inner_team_results.values()).lower()`. */
  function AllOutputs(results: seq<(string, string)>): string {
    Lower(JoinWith(Values(results), " "))
  }

  /** The lower-cased form of each output occurs in the lower-cased join. */
  lemma {:induction false} LowerJoinContains(parts: seq<string>, sep: string, k: nat)
    requires k < |parts|
    ensures Contains(Lower(JoinWith(parts, sep)), Lower(parts[k]))
  {
    var joined := JoinWith(parts, sep);
    JoinWithContains(parts, sep, k);
    var i := ContainsWitness(joined, parts[k]);
    forall m | 0 <= m < |parts[k]| ensures Lower(joined)[i + m] == Lower(parts[k])[m] {
      assert joined[i..i + |parts[k]|][m] == joined[i + m];
    }
    assert Lower(joined)[i..i + |parts[k]|] == Lower(parts[k]);
    ContainsAt(Lower(joined), Lower(parts[k]), i);
  }

  /** A rule fires as soon as one team's output has its first keyword and one
      (possibly another) has its second, whatever the case of the letters. */
  lemma {:induction false} RuleFiresFromOutputs(results: seq<(string, string)>, rule: KeywordRule, i: nat, j: nat)
    requires i < |results| && j < |results|
    requires Contains(Lower(results[i].1), rule.first) && Contains(Lower(results[j].1), rule.second)
    ensures Fires(rule, AllOutputs(results))
  {
    var values := Values(results);
    LowerJoinContains(values, " ", i);
    LowerJoinContains(values, " ", j);
    ContainsTrans(AllOutputs(results), Lower(values[i]), rule.first);
    ContainsTrans(AllOutputs(results), Lower(values[j]), rule.second);
  }

  /** The teams whose overall score is below 80, in order. */
  function LowQualityTeams(assessments: seq<(string, QA.Assessment)>): (r: seq<string>)
    ensures |r| <= |assessments|
  {
    if assessments == [] then []
    else
      (if assessments[0].1.overallScore < 80.0 then [assessments[0].0] else []) + LowQualityTeams(assessments[1..])
  }

  /** The low-quality teams are exactly the teams scored below 80. */
  lemma {:induction false} LowQualityTeamsMembers(assessments: seq<(string, QA.Assessment)>)
    ensures forall k :: 0 <= k < |assessments| && assessments[k].1.overallScore < 80.0 ==>
              assessments[k].0 in LowQualityTeams(assessments)
    ensures forall x :: x in LowQualityTeams(assessments) ==>
              exists k :: 0 <= k < |assessments| && assessments[k].1.overallScore < 80.0 && assessments[k].0 == x
  {
    if assessments != [] {
      LowQualityTeamsMembers(assessments[1..]);
      assert forall k :: 1 <= k < |assessments| ==> assessments[k] == assessments[1..][k - 1];
    }
  }

  function SupportRecommendation(teams: seq<string>): string {
    "Provide additional support and review for: " + JoinWith(teams, ", ")
  }

  function TimelineRecommendation(rendered: string): string {
    if Contains(Lower(rendered), "crisis") then CrisisRecommendation else MilestoneRecommendation
  }

  /** The text of the TypeError raised by `>` between a number and text. */
  const ComparisonMessage := "'>' not supported between instances of 'int' and 'str'"

  /** `total_budget > project_requirements.get("budget", 500000)`: comparing a
      number with text raises. */
  function ExceedsBudget(total: int, budget: Option<RequirementBudget>): (r: Result<bool>)
    ensures r.Err? <==> budget.Some? && budget.value.BudgetText?
    ensures r.Err? ==> r == Err("TypeError", ComparisonMessage)
    ensures r.Ok? ==> r.value == (total > if budget.Some? then budget.value.amount else DefaultProjectBudget)
  {
    match budget
    case None => Ok(total > DefaultProjectBudget)
    case Some(BudgetNumber(n)) => Ok(total > n)
    case Some(BudgetText(_)) => Err("TypeError", ComparisonMessage)
  }

  /** `_generate_final_recommendations`: the content rules, the budget rule, the
      quality rule, one timeline recommendation and the four integration
      recommendations, in that order. */
  function FinalRecommendations(results: seq<(string, string)>, planText: string,
                                assessments: seq<(string, QA.Assessment)>, req: ProjectRequirements)
    : (r: Result<seq<string>>)
    ensures r.Err? <==> PlanBudgetTotal(planText).Err? || (req.budget.Some? && req.budget.value.BudgetText?)
    ensures r.Ok? ==> |r.value| >= 5 && r.value[|r.value| - 4..] == IntegrationRecommendations
  {
    var content := KeywordRecommendations(KeywordRules, AllOutputs(results));
    match PlanBudgetTotal(planText)
    case Err(c, e) => Err(c, e)
    case Ok(total) =>
      match ExceedsBudget(total, req.budget)
      case Err(c, e) => Err(c, e)
      case Ok(over) =>
        var low := LowQualityTeams(assessments);
        Ok(content + (if over then [PhasedRecommendation] else []) +
           (if low != [] then [SupportRecommendation(low)] else []) +
           [TimelineRecommendation(req.rendered)] + IntegrationRecommendations)
  }

  /** Read against a plan text whose `$`-pieces read back a total of 0: a text
      budget raises; otherwise the content rules come first, the
      phased-implementation advice appears exactly for a negative budget, the
      support line exactly when some team scored below 80, then the crisis or
      the milestone advice, then the four integration recommendations. */
  lemma {:induction false} RecommendationsOfZeroTotal(results: seq<(string, string)>, planText: string,
                                                      assessments: seq<(string, QA.Assessment)>, req: ProjectRequirements)
    requires PlanBudgetTotal(planText) == Ok(0)
    ensures var r := FinalRecommendations(results, planText, assessments, req);
            r.Err? <==> req.budget.Some? && req.budget.value.BudgetText?
    ensures var r := FinalRecommendations(results, planText, assessments, req);
            r.Err? ==> r == Err("TypeError", ComparisonMessage)
    ensures var r := FinalRecommendations(results, planText, assessments, req);
            var content := KeywordRecommendations(KeywordRules, AllOutputs(results));
            var phased := req.budget.Some? && req.budget.value.BudgetNumber? && req.budget.value.amount < 0;
            var low := LowQualityTeams(assessments);
            r.Ok? ==>
              |r.value| == |content| + (if phased then 1 else 0) + (if low != [] then 1 else 0) + 5 &&
              r.value[..|content|] == content &&
              (phased ==> r.value[|content|] == PhasedRecommendation) &&
              (low != [] ==> r.value[|r.value| - 6] == SupportRecommendation(low)) &&
              r.value[|r.value| - 5] ==
                (if Contains(Lower(req.rendered), "crisis") then CrisisRecommendation else MilestoneRecommendation)
  {
    var r := FinalRecommendations(results, planText, assessments, req);
    if r.Ok? {
      var content := KeywordRecommendations(KeywordRules, AllOutputs(results));
      var over := ExceedsBudget(0, req.budget).value;
      var low := LowQualityTeams(assessments);
      var tail := [TimelineRecommendation(req.rendered)] + IntegrationRecommendations;
      var middle := (if over then [PhasedRecommendation] else []) + (if low != [] then [SupportRecommendation(low)] else []);
      assert r.value == content + middle + tail;
      assert r.value[..|content|] == content;
    }
  }

  /** Read against a plan text from `create_allocation_plan`, the total read
      back is always 0, so the rules above apply: in particular the
      phased-implementation advice appears exactly for a negative budget. */
  lemma {:induction false} RecommendationRules(results: seq<(string, string)>, plan: RM.AllocationPlan,
                            assessments: seq<(string, QA.Assessment)>, req: ProjectRequirements)
    requires DollarFreeLines(plan.lines)
    ensures var r := FinalRecommendations(results, AllocationPlanText(plan), assessments, req);
            r.Err? <==> req.budget.Some? && req.budget.value.BudgetText?
    ensures var r := FinalRecommendations(results, AllocationPlanText(plan), assessments, req);
            r.Err? ==> r == Err("TypeError", ComparisonMessage)
    ensures var r := FinalRecommendations(results, AllocationPlanText(plan), assessments, req);
            var content := KeywordRecommendations(KeywordRules, AllOutputs(results));
            var phased := req.budget.Some? && req.budget.value.BudgetNumber? && req.budget.value.amount < 0;
            var low := LowQualityTeams(assessments);
            r.Ok? ==>
              |r.value| == |content| + (if phased then 1 else 0) + (if low != [] then 1 else 0) + 5 &&
              r.value[..|content|] == content &&
              (phased ==> r.value[|content|] == PhasedRecommendation) &&
              (low != [] ==> r.value[|r.value| - 6] == SupportRecommendation(low)) &&
              r.value[|r.value| - 5] ==
                (if Contains(Lower(req.rendered), "crisis") then CrisisRecommendation else MilestoneRecommendation)
  {
    PlanTextBudgetIsZero(plan);
    RecommendationsOfZeroTotal(results, AllocationPlanText(plan), assessments, req);
  }

  // ---------------------------------------------------------------------
  // Project state
  // ---------------------------------------------------------------------

  predicate NoDuplicates(s: seq<string>) {
    forall i, j :: 0 <= i < j < |s| ==> s[i] != s[j]
  }

  /** `completed.extend(t for t in teams if t not in completed)`: each team is
      tested against the list as it grows. */
  function AddNew(completed: seq<string>, teams: seq<string>): (r: seq<string>)
    ensures |completed| <= |r| <= |completed| + |teams|
  {
    if teams == [] then completed
    else
      var before := AddNew(completed, teams[..|teams| - 1]);
      if teams[|teams| - 1] in before then before else before + [teams[|teams| - 1]]
  }

  /** The old list stays in front, exactly the new teams are added, and a list
      without duplicates keeps none. */
  lemma {:induction false} AddNewProperties(completed: seq<string>, teams: seq<string>)
    ensures |AddNew(completed, teams)| >= |completed|
    ensures AddNew(completed, teams)[..|completed|] == completed
    ensures forall t :: t in AddNew(completed, teams) <==> t in completed || t in teams
    ensures NoDuplicates(completed) ==> NoDuplicates(AddNew(completed, teams))
  {
    if teams != [] {
      var init := teams[..|teams| - 1];
      AddNewProperties(completed, init);
      assert teams == init + [teams[|teams| - 1]];
      var before := AddNew(completed, init);
      assert (before + [teams[|teams| - 1]])[..|completed|] == before[..|completed|];
    }
  }

  datatype QualityStatusEntry = QualityStatusEntry(score: real, status: QA.QualityStatus, lastAssessed: nat)

  function StatusEntry(a: QA.Assessment, timestamp: nat): QualityStatusEntry {
    QualityStatusEntry(a.overallScore, QA.StatusOf(a.overallScore), timestamp)
  }

  /** The statuses after recording every assessment in order. */
  function StoreStatuses(statuses: seq<(string, QualityStatusEntry)>, assessments: seq<(string, QA.Assessment)>,
                         timestamp: nat): seq<(string, QualityStatusEntry)> {
    if assessments == [] then statuses
    else
      var last := assessments[|assessments| - 1];
      Store(StoreStatuses(statuses, assessments[..|assessments| - 1], timestamp), last.0, StatusEntry(last.1, timestamp))
  }

  /** Keys are distinct and every status is PASS exactly for a score of at
      least 80. */
  ghost predicate StatusesAgree(statuses: seq<(string, QualityStatusEntry)>) {
    UniqueKeys(statuses) &&
    forall k :: 0 <= k < |statuses| ==> statuses[k].1.status == QA.StatusOf(statuses[k].1.score)
  }

  lemma {:induction false} StoreAgrees(statuses: seq<(string, QualityStatusEntry)>, team: string, a: QA.Assessment, timestamp: nat)
    requires StatusesAgree(statuses)
    ensures StatusesAgree(Store(statuses, team, StatusEntry(a, timestamp)))
  {
    var r := Store(statuses, team, StatusEntry(a, timestamp));
    StoreUnique(statuses, team, StatusEntry(a, timestamp));
    forall k | 0 <= k < |r| ensures r[k].1.status == QA.StatusOf(r[k].1.score) {
      LookupAt(r, k);
      StoreLookup(statuses, team, StatusEntry(a, timestamp), r[k].0);
      if r[k].0 != team {
        var j :| 0 <= j < |statuses| && statuses[j].0 == r[k].0;
        LookupAt(statuses, j);
      }
    }
  }

  /** Recording assessments keeps the statuses consistent. */
  lemma {:induction false} StoreStatusesAgree(statuses: seq<(string, QualityStatusEntry)>,
                                              assessments: seq<(string, QA.Assessment)>, timestamp: nat)
    requires StatusesAgree(statuses)
    ensures StatusesAgree(StoreStatuses(statuses, assessments, timestamp))
  {
    if assessments != [] {
      var last := assessments[|assessments| - 1];
      StoreStatusesAgree(statuses, assessments[..|assessments| - 1], timestamp);
      StoreAgrees(StoreStatuses(statuses, assessments[..|assessments| - 1], timestamp), last.0, last.1, timestamp);
    }
  }

  /** A team that was not assessed keeps the status it had. */
  lemma {:induction false} StoreStatusesOthers(statuses: seq<(string, QualityStatusEntry)>,
                                               assessments: seq<(string, QA.Assessment)>, timestamp: nat, t: string)
    requires t !in Keys(assessments)
    ensures Lookup(StoreStatuses(statuses, assessments, timestamp), t) == Lookup(statuses, t)
  {
    if assessments != [] {
      var init := assessments[..|assessments| - 1];
      var last := assessments[|assessments| - 1];
      assert Keys(assessments) == Keys(init) + [last.0];
      StoreStatusesOthers(statuses, init, timestamp, t);
      StoreLookup(StoreStatuses(statuses, init, timestamp), last.0, StatusEntry(last.1, timestamp), t);
    }
  }

  /** With distinct team names, each assessed team gets its own score and
      status. */
  lemma {:induction false} StoreStatusesAssessed(statuses: seq<(string, QualityStatusEntry)>,
                                                 assessments: seq<(string, QA.Assessment)>, timestamp: nat, k: nat)
    requires UniqueKeys(assessments) && k < |assessments|
    ensures Lookup(StoreStatuses(statuses, assessments, timestamp), assessments[k].0)
              == Some(StatusEntry(assessments[k].1, timestamp))
  {
    var init := assessments[..|assessments| - 1];
    var last := assessments[|assessments| - 1];
    var t := assessments[k].0;
    StoreLookup(StoreStatuses(statuses, init, timestamp), last.0, StatusEntry(last.1, timestamp), t);
    if k < |assessments| - 1 {
      assert init[k] == assessments[k];
      StoreStatusesAssessed(statuses, init, timestamp, k);
    }
  }

  function SumStatusScores(statuses: seq<(string, QualityStatusEntry)>): real {
    if statuses == [] then 0.0 else SumStatusScores(statuses[..|statuses| - 1]) + statuses[|statuses| - 1].1.score
  }

  /** `sum(scores) / max(1, len(scores))`: 0 with no score, otherwise the
      mean of the stored scores. */
  function MeanScore(statuses: seq<(string, QualityStatusEntry)>): (m: real)
    ensures statuses == [] ==> m == 0.0
  {
    SumStatusScores(statuses) / (if |statuses| < 1 then 1 else |statuses|) as real
  }

  lemma {:induction false} SumStatusScoresBounds(statuses: seq<(string, QualityStatusEntry)>, lo: real, hi: real)
    requires forall k :: 0 <= k < |statuses| ==> lo <= statuses[k].1.score <= hi
    ensures |statuses| as real * lo <= SumStatusScores(statuses) <= |statuses| as real * hi
  {
    if statuses != [] {
      var init := statuses[..|statuses| - 1];
      assert forall k :: 0 <= k < |init| ==> init[k] == statuses[k];
      SumStatusScoresBounds(init, lo, hi);
    }
  }

  /** The mean of scores in a range is in that range, when there is a score. */
  lemma {:induction false} MeanScoreBounds(statuses: seq<(string, QualityStatusEntry)>, lo: real, hi: real)
    requires statuses != []
    requires forall k :: 0 <= k < |statuses| ==> lo <= statuses[k].1.score <= hi
    ensures lo <= MeanScore(statuses) <= hi
  {
    SumStatusScoresBounds(statuses, lo, hi);
    var n := |statuses| as real;
    assert MeanScore(statuses) == SumStatusScores(statuses) / n;
    assert n * lo <= SumStatusScores(statuses) <= n * hi;
    assert lo == (n * lo) / n && hi == (n * hi) / n;
  }

  datatype AllocationState = Allocated | Pending

  datatype ProjectStatusSummary = ProjectStatusSummary(
    coordinationHistoryCount: nat,
    lastCoordination: Option<nat>,
    activeTeamsCount: nat,
    completedTeamsCount: nat,
    overallQualityScore: real,
    resourceAllocationStatus: AllocationState)

  // ---------------------------------------------------------------------
  // One coordination run
  // ---------------------------------------------------------------------

  datatype DecisionMade = CoordinationApproval(approved: bool, feedback: string)

  /** The allocation on record: the plan, the director's reply, and the
      decision. */
  datatype AllocationRecord = AllocationRecord(plan: RM.AllocationPlan, humanDecision: string, approved: bool)

  datatype CoordinationResult = CoordinationResult(
    timestamp: nat,
    steps: seq<string>,
    decisions: seq<DecisionMade>,
    resourceAllocations: AllocationRecord,
    individualAssessments: seq<(string, QA.Assessment)>,
    qualityReport: QA.QualityReport,
    integrationPlan: TC.IntegrationPlan,
    finalRecommendations: seq<string>)

  const StepLabels: seq<string> := [
    "Integration plan created",
    "Resource allocation completed",
    "Quality assessment completed",
    "Final recommendations generated"
  ]

  /** The integration plan as shown to the director (its prose is not
      modelled): the recommended order. */
  function IntegrationPlanText(plan: TC.IntegrationPlan): string {
    "INTEGRATION PLAN\nRecommended order: " + JoinWith(plan.order, " -> ") + "\n"
  }

  /** The assessment of every team output, in the teams' order. */
  function AssessmentsOf(results: seq<(string, string)>, timestamp: nat): (r: seq<(string, QA.Assessment)>)
    ensures |r| == |results|
  {
    if results == [] then []
    else
      var last := results[|results| - 1];
      AssessmentsOf(results[..|results| - 1], timestamp) +
        [(last.0, QA.AssessmentOf(QA.StandardCriteria, last.0, last.1, timestamp))]
  }

  /** Every team is assessed once, under its own name and in its own place. */
  lemma {:induction false} AssessmentsOfEntries(results: seq<(string, string)>, timestamp: nat, k: nat)
    requires k < |results|
    ensures AssessmentsOf(results, timestamp)[k] ==
              (results[k].0, QA.AssessmentOf(QA.StandardCriteria, results[k].0, results[k].1, timestamp))
  {
    if k < |results| - 1 {
      AssessmentsOfEntries(results[..|results| - 1], timestamp, k);
    }
  }

  /** The assessments are keyed by the teams, in the teams' order. */
  lemma {:induction false} AssessmentsOfKeys(results: seq<(string, string)>, timestamp: nat)
    ensures Keys(AssessmentsOf(results, timestamp)) == Keys(results)
  {
    forall k | 0 <= k < |results|
      ensures Keys(AssessmentsOf(results, timestamp))[k] == Keys(results)[k]
    {
      AssessmentsOfEntries(results, timestamp, k);
    }
  }

  /** Every assessed team scores between 64.45 and 89.45. */
  lemma {:induction false} AssessmentsOfScores(results: seq<(string, string)>, timestamp: nat)
    ensures var r := AssessmentsOf(results, timestamp);
            forall k :: 0 <= k < |r| ==> 64.45 <= r[k].1.overallScore <= 89.45
  {
    var r := AssessmentsOf(results, timestamp);
    forall k | 0 <= k < |r| ensures 64.45 <= r[k].1.overallScore <= 89.45 {
      AssessmentsOfEntries(results, timestamp, k);
      QA.OverallScoreRange(results[k].0, results[k].1, timestamp);
    }
  }

  /** The whole of `coordinate_project_execution` on values: the outcome of
      the four steps, or the exception of the fourth. */
  function CoordinationOutcome(results: seq<(string, string)>, req: ProjectRequirements,
                               coordinationReply: string, allocationReply: string, timestamp: nat)
    : Result<CoordinationResult>
  {
    var deps := TC.DependencyMap(results);
    var plan := TC.IntegrationPlan(deps, TC.IntegrationOrder(deps));
    var requests := GenerateResourceRequests(results);
    var allocation := RM.AllocationPlanOf(requests, req.resources.GetOr(DefaultResources));
    var assessments := AssessmentsOf(results, timestamp);
    match FinalRecommendations(results, AllocationPlanText(allocation), assessments, req)
    case Err(c, e) => Err(c, e)
    case Ok(recs) =>
      Ok(CoordinationResult(timestamp, StepLabels, [CoordinationApproval(true, coordinationReply)],
                            AllocationRecord(allocation, allocationReply, true), assessments,
                            QA.QualityReportOf(assessments), plan, recs))
  }

  /** Every generated request carries a team name from the input and a
      priority from the table, so neither holds '$' when the names do not. */
  lemma {:induction false} RequestsDollarFree(results: seq<(string, string)>)
    requires forall k :: 0 <= k < |results| ==> '$' !in results[k].0
    ensures forall x :: x in GenerateResourceRequests(results) ==> '$' !in x.0 && '$' !in RM.PriorityOf(x.1)
  {
    var reqs := GenerateResourceRequests(results);
    assert '$' !in "high" && '$' !in "medium";
    forall j | 0 <= j < |reqs| ensures '$' !in reqs[j].0 && '$' !in RM.PriorityOf(reqs[j].1) {
      assert reqs[j].0 == Keys(reqs)[j];
      RequestBounds(results[j].0, results[j].1);
    }
  }

  /** Team names without '$' give allocation lines without '$': each line
      carries the name of the team it was requested for and a priority from
      the table. */
  lemma {:induction false} PlanLinesDollarFree(results: seq<(string, string)>, available: RM.AvailableResources)
    requires forall k :: 0 <= k < |results| ==> '$' !in results[k].0
    ensures DollarFreeLines(RM.AllocationPlanOf(GenerateResourceRequests(results), available).lines)
  {
    var reqs := GenerateResourceRequests(results);
    var s := RM.SortedByPriority(reqs);
    var lines := RM.AllocationPlanOf(reqs, available).lines;
    RequestsDollarFree(results);
    RM.GreedyTotals(s, available.budget.GetOr(0), available.timelineWeeks.GetOr(0));
    RM.AllocationOrder(reqs, available, 0);
    forall k | 0 <= k < |lines| ensures '$' !in lines[k].team && '$' !in lines[k].priority {
      assert s[k] in multiset(reqs);
    }
  }

  /** With team names free of '$', a coordination run fails exactly when the
      project budget is given as text (the plan text always reads back as a
      budget of 0), with the TypeError of the comparison; otherwise its
      recommendations end with the four integration ones. */
  lemma {:induction false} CoordinationOutcomeFails(results: seq<(string, string)>, req: ProjectRequirements,
                                 coordinationReply: string, allocationReply: string, timestamp: nat)
    requires forall k :: 0 <= k < |results| ==> '$' !in results[k].0
    ensures CoordinationOutcome(results, req, coordinationReply, allocationReply, timestamp).Err? <==>
              req.budget.Some? && req.budget.value.BudgetText?
    ensures var r := CoordinationOutcome(results, req, coordinationReply, allocationReply, timestamp);
            r.Err? ==> r == Err("TypeError", ComparisonMessage)
    ensures var r := CoordinationOutcome(results, req, coordinationReply, allocationReply, timestamp);
            r.Ok? ==>
              |r.value.finalRecommendations| >= 5 &&
              r.value.finalRecommendations[|r.value.finalRecommendations| - 4..] == IntegrationRecommendations
  {
    var available := req.resources.GetOr(DefaultResources);
    var allocation := RM.AllocationPlanOf(GenerateResourceRequests(results), available);
    var assessments := AssessmentsOf(results, timestamp);
    var recs := FinalRecommendations(results, AllocationPlanText(allocation), assessments, req);
    assert (recs.Err? <==> req.budget.Some? && req.budget.value.BudgetText?) &&
           (recs.Err? ==> recs == Err("TypeError", ComparisonMessage)) by {
      PlanLinesDollarFree(results, available);
      RecommendationRules(results, allocation, assessments, req);
    }
  }

  /** A successful run records the four steps and the approved coordination;
      its integration order is a permutation of the teams and every team has
      one allocation line, which the director approved. */
  lemma {:induction false} CoordinationOutcomeRecords(results: seq<(string, string)>, req: ProjectRequirements,
                                   coordinationReply: string, allocationReply: string, timestamp: nat)
    ensures var r := CoordinationOutcome(results, req, coordinationReply, allocationReply, timestamp);
            r.Ok? ==>
              r.value.steps == StepLabels && r.value.decisions == [CoordinationApproval(true, coordinationReply)] &&
              multiset(r.value.integrationPlan.order) == multiset(Keys(results)) &&
              |r.value.resourceAllocations.plan.lines| == |results| && r.value.resourceAllocations.approved
  {
    var requests := GenerateResourceRequests(results);
    var available := req.resources.GetOr(DefaultResources);
    assert |RM.AllocationPlanOf(requests, available).lines| == |results| by {
      RM.AllocationOrder(requests, available, 0);
    }
    assert multiset(TC.IntegrationOrder(TC.DependencyMap(results))) == multiset(Keys(results)) by {
      TC.PlanOrderIsPermutation(results);
    }
  }

  /** A successful run assesses every team once, in the teams' order, with a
      score between 64.45 and 89.45. */
  lemma {:induction false} CoordinationOutcomeAssessments(results: seq<(string, string)>, req: ProjectRequirements,
                                       coordinationReply: string, allocationReply: string, timestamp: nat)
    ensures var r := CoordinationOutcome(results, req, coordinationReply, allocationReply, timestamp);
            r.Ok? ==>
              Keys(r.value.individualAssessments) == Keys(results) &&
              forall k :: 0 <= k < |results| ==> 64.45 <= r.value.individualAssessments[k].1.overallScore <= 89.45
  {
    AssessmentsOfKeys(results, timestamp);
    AssessmentsOfScores(results, timestamp);
  }

  // ---------------------------------------------------------------------
  // The coordinator
  // ---------------------------------------------------------------------

  class OuterTeamCoordinator {
    const teamCoordinator: TC.TeamCoordinator
    const resourceManager: RM.ResourceManager
    const qualityAssurance: QA.QualityAssuranceAgent
    const userProxy: UP.OuterTeamUserProxy
    var coordinationHistory: seq<CoordinationResult>
    var activeTeams: seq<string>
    var completedTeams: seq<string>
    var pendingDecisions: seq<string>
    /** Empty (`{}`) until the first coordination run records its allocation. */
    var resourceAllocations: Option<AllocationRecord>
    var qualityStatus: seq<(string, QualityStatusEntry)>

    /** Completed teams are listed once, and every recorded status agrees
        with its score. */
    ghost predicate Valid()
      reads this, qualityAssurance
    {
      qualityAssurance.Valid() && NoDuplicates(completedTeams) && StatusesAgree(qualityStatus)
    }

    constructor (teamCoordinator: TC.TeamCoordinator, resourceManager: RM.ResourceManager,
                 qualityAssurance: QA.QualityAssuranceAgent, userProxy: UP.OuterTeamUserProxy)
      requires qualityAssurance.Valid()
      ensures Valid()
      ensures this.teamCoordinator == teamCoordinator && this.resourceManager == resourceManager
      ensures this.qualityAssurance == qualityAssurance && this.userProxy == userProxy
      ensures coordinationHistory == [] && activeTeams == [] && completedTeams == [] && pendingDecisions == []
      ensures resourceAllocations == None && qualityStatus == []
    {
      this.teamCoordinator := teamCoordinator;
      this.resourceManager := resourceManager;
      this.qualityAssurance := qualityAssurance;
      this.userProxy := userProxy;
      coordinationHistory := [];
      activeTeams := [];
      completedTeams := [];
      pendingDecisions := [];
      resourceAllocations := None;
      qualityStatus := [];
    }

    /** The assessment loop of step 3: each team's output is assessed in
        turn and stored under its name. */
    method AssessAll(results: seq<(string, string)>, timestamp: nat) returns (assessments: seq<(string, QA.Assessment)>)
      requires qualityAssurance.Valid()
      modifies qualityAssurance
      ensures qualityAssurance.Valid()
      ensures assessments == AssessmentsOf(results, timestamp)
      ensures Assessed(results, timestamp)
    {
      assessments := [];
      var i := 0;
      while i < |results|
        invariant 0 <= i <= |results|
        invariant qualityAssurance.Valid()
        invariant assessments == AssessmentsOf(results[..i], timestamp)
        invariant qualityAssurance.qualityAssessments ==
                    QA.StoreAssessments(old(qualityAssurance.qualityAssessments), assessments, timestamp)
        invariant qualityAssurance.qualityCriteria ==
                    if i == 0 then old(qualityAssurance.qualityCriteria) else QA.StandardCriteria
      {
        assert results[..i + 1][..i] == results[..i];
        var a := qualityAssurance.AssessTeamOutput(results[i].0, results[i].1, timestamp);
        assessments := assessments + [(results[i].0, a)];
        i := i + 1;
      }
      assert results[..i] == results;
    }

    /** The loop that extends the completed teams with the new ones. */
    static method AppendNewTeams(completed: seq<string>, teams: seq<string>) returns (r: seq<string>)
      ensures r == AddNew(completed, teams)
    {
      r := completed;
      var i := 0;
      while i < |teams|
        invariant 0 <= i <= |teams|
        invariant r == AddNew(completed, teams[..i])
      {
        assert teams[..i + 1][..i] == teams[..i];
        if teams[i] !in r {
          r := r + [teams[i]];
        }
        i := i + 1;
      }
      assert teams[..i] == teams;
    }

    /** The loop that records each assessed team's score and status. */
    static method RecordStatuses(statuses: seq<(string, QualityStatusEntry)>,
                                 assessed: seq<(string, QA.Assessment)>, now: nat)
      returns (r: seq<(string, QualityStatusEntry)>)
      ensures r == StoreStatuses(statuses, assessed, now)
    {
      r := statuses;
      var j := 0;
      assert assessed[..0] == [];
      while j < |assessed|
        invariant 0 <= j <= |assessed|
        invariant r == StoreStatuses(statuses, assessed[..j], now)
      {
        assert assessed[..j + 1][..j] == assessed[..j];
        r := Store(r, assessed[j].0, StatusEntry(assessed[j].1, now));
        j := j + 1;
      }
      assert assessed[..j] == assessed;
    }

    /** `_update_project_state`: the teams of this run become the active
        teams, new ones are appended to the completed teams, the allocation
        is recorded and every assessed team's status is stored with the time
        `now`. */
    method UpdateProjectState(results: seq<(string, string)>, result: CoordinationResult, now: nat)
      requires Valid()
      modifies this
      ensures Valid()
      ensures activeTeams == Keys(results)
      ensures completedTeams == AddNew(old(completedTeams), Keys(results))
      ensures resourceAllocations == Some(result.resourceAllocations)
      ensures qualityStatus == StoreStatuses(old(qualityStatus), result.individualAssessments, now)
      ensures coordinationHistory == old(coordinationHistory) && pendingDecisions == old(pendingDecisions)
    {
      var teams := Keys(results);
      var completed := AppendNewTeams(completedTeams, teams);
      var statuses := RecordStatuses(qualityStatus, result.individualAssessments, now);
      AddNewProperties(completedTeams, teams);
      StoreStatusesAgree(qualityStatus, result.individualAssessments, now);
      activeTeams := teams;
      completedTeams := completed;
      resourceAllocations := Some(result.resourceAllocations);
      qualityStatus := statuses;
    }

    /** `get_project_status_summary`. */
    function StatusSummary(): (r: ProjectStatusSummary)
      reads this
      ensures r.lastCoordination.Some? <==> coordinationHistory != []
      ensures r.lastCoordination.Some? ==> r.lastCoordination.value == coordinationHistory[|coordinationHistory| - 1].timestamp
      ensures r.resourceAllocationStatus == Allocated <==> resourceAllocations.Some?
      ensures r.coordinationHistoryCount == |coordinationHistory|
      ensures r.activeTeamsCount == |activeTeams| && r.completedTeamsCount == |completedTeams|
      ensures r.overallQualityScore == MeanScore(qualityStatus)
      ensures qualityStatus == [] ==> r.overallQualityScore == 0.0
      ensures qualityStatus != [] ==> r.overallQualityScore == SumStatusScores(qualityStatus) / |qualityStatus| as real
    {
      ProjectStatusSummary(
        |coordinationHistory|,
        if coordinationHistory == [] then None else Some(coordinationHistory[|coordinationHistory| - 1].timestamp),
        |activeTeams|,
        |completedTeams|,
        MeanScore(qualityStatus),
        if resourceAllocations.Some? then Allocated else Pending)
    }

    /** `reset_coordination_state`. */
    method ResetCoordinationState()
      requires Valid()
      modifies this
      ensures Valid()
      ensures coordinationHistory == [] && activeTeams == [] && completedTeams == [] && pendingDecisions == []
      ensures resourceAllocations == None && qualityStatus == []
    {
      coordinationHistory := [];
      activeTeams := [];
      completedTeams := [];
      pendingDecisions := [];
      resourceAllocations := None;
      qualityStatus := [];
    }

    /** The project state after a coordination run `r`, given the state
        before it: a completed run is appended to the history and updates the
        project state as `_update_project_state` does; a run that raised
        leaves everything as it was. */
    ghost predicate Recorded(r: Result<CoordinationResult>, results: seq<(string, string)>, now: nat,
                             history: seq<CoordinationResult>, active: seq<string>, completed: seq<string>,
                             allocations: Option<AllocationRecord>, statuses: seq<(string, QualityStatusEntry)>)
      reads this
    {
      match r
      case Ok(result) =>
        coordinationHistory == history + [result] && activeTeams == Keys(results) &&
        completedTeams == AddNew(completed, Keys(results)) && resourceAllocations == Some(result.resourceAllocations) &&
        qualityStatus == StoreStatuses(statuses, result.individualAssessments, now)
      case Err(_, _) =>
        coordinationHistory == history && activeTeams == active && completedTeams == completed &&
        resourceAllocations == allocations && qualityStatus == statuses
    }

    /** What steps 1 and 2 leave with the agents: the team coordinator
        holds the dependency map of the outputs and the plan under the run's
        time; the director's proxy has logged the coordination decision and
        the allocation decision, each in its own log, and both exchanges in
        its intervention history. */
    twostate predicate PlanningLogged(results: seq<(string, string)>, coordinationReply: string,
                                      allocationReply: string, timestamp: nat)
      reads teamCoordinator, userProxy, userProxy.proxy
    {
      var deps := TC.DependencyMap(results);
      var plan := TC.IntegrationPlan(deps, TC.IntegrationOrder(deps));
      var requests := GenerateResourceRequests(results);
      var proxy := userProxy.proxy;
      teamCoordinator.teamDependencies == deps &&
      teamCoordinator.integrationPlans == old(teamCoordinator.integrationPlans)[timestamp := plan] &&
      userProxy.teamCoordinationHistory == old(userProxy.teamCoordinationHistory) +
        [UP.CoordinationDecision(timestamp, results, IntegrationPlanText(plan), coordinationReply)] &&
      userProxy.resourceAllocationDecisions == old(userProxy.resourceAllocationDecisions) +
        [UP.AllocationDecision(timestamp, requests, allocationReply)] &&
      proxy.interventionHistory == old(proxy.interventionHistory) +
        [UP.InterventionRecord(timestamp, UP.CoordinationPrompt(results, IntegrationPlanText(plan)), coordinationReply,
                               proxy.role, proxy.teamContext),
         UP.InterventionRecord(timestamp, UP.AllocationPrompt(requests), allocationReply,
                               proxy.role, proxy.teamContext)]
    }

    /** What the assessments of step 3 leave with the quality-assurance
        agent: each team's assessment stored under its name and the run's
        time, and the standard criteria once a team was assessed. */
    twostate predicate Assessed(results: seq<(string, string)>, timestamp: nat)
      reads qualityAssurance
    {
      qualityAssurance.qualityAssessments ==
        QA.StoreAssessments(old(qualityAssurance.qualityAssessments), AssessmentsOf(results, timestamp), timestamp) &&
      qualityAssurance.qualityCriteria ==
        if results == [] then old(qualityAssurance.qualityCriteria) else QA.StandardCriteria
    }

    /** Steps 1 and 2 of `coordinate_project_execution`: the integration
        plan and its approval, then the resource requests, the allocation
        plan and its approval; each approval is logged by the user proxy. */
    method RunPlanningSteps(results: seq<(string, string)>, req: ProjectRequirements,
                            coordinationReply: string, allocationReply: string, timestamp: nat)
      returns (plan: TC.IntegrationPlan, decisions: seq<DecisionMade>, record: AllocationRecord)
      requires UniqueKeys(results)
      modifies teamCoordinator, userProxy, userProxy.proxy
      ensures plan == TC.IntegrationPlan(TC.DependencyMap(results), TC.IntegrationOrder(TC.DependencyMap(results)))
      ensures decisions == [CoordinationApproval(true, coordinationReply)]
      ensures record == AllocationRecord(RM.AllocationPlanOf(GenerateResourceRequests(results),
                                                             req.resources.GetOr(DefaultResources)),
                                         allocationReply, true)
      ensures PlanningLogged(results, coordinationReply, allocationReply, timestamp)
    {
      var proxy := userProxy.proxy;
      plan, decisions := PlanIntegration(results, coordinationReply, timestamp);
      ghost var coordinated := proxy.interventionHistory;
      record := PlanAllocation(results, req, allocationReply, timestamp);
      ghost var first := UP.InterventionRecord(timestamp, UP.CoordinationPrompt(results, IntegrationPlanText(plan)),
                                               coordinationReply, proxy.role, proxy.teamContext);
      ghost var second := UP.InterventionRecord(timestamp, UP.AllocationPrompt(GenerateResourceRequests(results)),
                                                allocationReply, proxy.role, proxy.teamContext);
      assert coordinated == old(proxy.interventionHistory) + [first];
      assert proxy.interventionHistory == old(proxy.interventionHistory) + [first, second];
    }

    /** Step 1: the integration plan and its approval. */
    method PlanIntegration(results: seq<(string, string)>, coordinationReply: string, timestamp: nat)
      returns (plan: TC.IntegrationPlan, decisions: seq<DecisionMade>)
      requires UniqueKeys(results)
      modifies teamCoordinator, userProxy, userProxy.proxy
      ensures plan == TC.IntegrationPlan(TC.DependencyMap(results), TC.IntegrationOrder(TC.DependencyMap(results)))
      ensures decisions == [CoordinationApproval(true, coordinationReply)]
      ensures teamCoordinator.teamDependencies == TC.DependencyMap(results)
      ensures teamCoordinator.integrationPlans == old(teamCoordinator.integrationPlans)[timestamp := plan]
      ensures userProxy.teamCoordinationHistory == old(userProxy.teamCoordinationHistory) +
                [UP.CoordinationDecision(timestamp, results, IntegrationPlanText(plan), coordinationReply)]
      ensures userProxy.resourceAllocationDecisions == old(userProxy.resourceAllocationDecisions)
      ensures userProxy.proxy.interventionHistory == old(userProxy.proxy.interventionHistory) +
                [UP.InterventionRecord(timestamp, UP.CoordinationPrompt(results, IntegrationPlanText(plan)),
                                       coordinationReply, userProxy.proxy.role, userProxy.proxy.teamContext)]
    {
      plan := teamCoordinator.CreateIntegrationPlan(results, timestamp);
      var coordination := userProxy.CoordinateTeams(results, IntegrationPlanText(plan), coordinationReply, timestamp);
      decisions := [CoordinationApproval(coordination.approved, coordination.feedback)];
    }

    /** Step 2: the requests, the allocation plan and its approval. */
    method PlanAllocation(results: seq<(string, string)>, req: ProjectRequirements, allocationReply: string,
                          timestamp: nat)
      returns (record: AllocationRecord)
      modifies userProxy, userProxy.proxy
      ensures record == AllocationRecord(RM.AllocationPlanOf(GenerateResourceRequests(results),
                                                             req.resources.GetOr(DefaultResources)),
                                         allocationReply, true)
      ensures userProxy.teamCoordinationHistory == old(userProxy.teamCoordinationHistory)
      ensures userProxy.resourceAllocationDecisions == old(userProxy.resourceAllocationDecisions) +
                [UP.AllocationDecision(timestamp, GenerateResourceRequests(results), allocationReply)]
      ensures userProxy.proxy.interventionHistory == old(userProxy.proxy.interventionHistory) +
                [UP.InterventionRecord(timestamp, UP.AllocationPrompt(GenerateResourceRequests(results)),
                                       allocationReply, userProxy.proxy.role, userProxy.proxy.teamContext)]
    {
      var requests := GenerateResourceRequests(results);
      var allocation := resourceManager.CreateAllocationPlan(requests, req.resources.GetOr(DefaultResources));
      var allocationDecision := userProxy.AllocateResources(requests, allocationReply, timestamp);
      record := AllocationRecord(allocation, allocationDecision.feedback, allocationDecision.approved);
    }

    /** Steps 1 to 3 of `coordinate_project_execution`: the planning steps,
        then the assessments and the quality report. */
    method RunCoordinationSteps(results: seq<(string, string)>, req: ProjectRequirements,
                                coordinationReply: string, allocationReply: string, timestamp: nat)
      returns (plan: TC.IntegrationPlan, decisions: seq<DecisionMade>, record: AllocationRecord,
               assessments: seq<(string, QA.Assessment)>, report: QA.QualityReport)
      requires qualityAssurance.Valid() && UniqueKeys(results)
      modifies teamCoordinator, userProxy, userProxy.proxy, qualityAssurance
      ensures qualityAssurance.Valid()
      ensures plan == TC.IntegrationPlan(TC.DependencyMap(results), TC.IntegrationOrder(TC.DependencyMap(results)))
      ensures decisions == [CoordinationApproval(true, coordinationReply)]
      ensures record == AllocationRecord(RM.AllocationPlanOf(GenerateResourceRequests(results),
                                                             req.resources.GetOr(DefaultResources)),
                                         allocationReply, true)
      ensures assessments == AssessmentsOf(results, timestamp)
      ensures report == QA.QualityReportOf(assessments)
      ensures PlanningLogged(results, coordinationReply, allocationReply, timestamp)
      ensures Assessed(results, timestamp)
    {
      plan, decisions, record := RunPlanningSteps(results, req, coordinationReply, allocationReply, timestamp);
      // Step 3: quality assurance
      assessments := AssessAll(results, timestamp);
      report := qualityAssurance.CreateQualityReport(assessments);
    }

    /** Step 4 of `coordinate_project_execution` and the result it returns. */
    static method FinishCoordination(results: seq<(string, string)>, req: ProjectRequirements,
                                     coordinationReply: string, allocationReply: string, timestamp: nat,
                                     plan: TC.IntegrationPlan, decisions: seq<DecisionMade>, record: AllocationRecord,
                                     assessments: seq<(string, QA.Assessment)>, report: QA.QualityReport)
      returns (r: Result<CoordinationResult>)
      requires plan == TC.IntegrationPlan(TC.DependencyMap(results), TC.IntegrationOrder(TC.DependencyMap(results)))
      requires decisions == [CoordinationApproval(true, coordinationReply)]
      requires record == AllocationRecord(RM.AllocationPlanOf(GenerateResourceRequests(results),
                                                              req.resources.GetOr(DefaultResources)),
                                          allocationReply, true)
      requires assessments == AssessmentsOf(results, timestamp)
      requires report == QA.QualityReportOf(assessments)
      ensures r == CoordinationOutcome(results, req, coordinationReply, allocationReply, timestamp)
    {
      var recommendations := FinalRecommendations(results, AllocationPlanText(record.plan), assessments, req);
      if recommendations.Err? {
        return Err(recommendations.exception, recommendations.message);
      }
      r := Ok(CoordinationResult(timestamp, StepLabels, decisions, record, assessments, report, plan,
                                 recommendations.value));
    }

    /** `coordinate_project_execution` with the quality report's
        recommendation list taken as a list: steps 1 to 3, then the final
        recommendations; the outcome is recorded in the project state. The
        director's replies and the times are parameters. */
    method CoordinateProjectExecution(results: seq<(string, string)>, req: ProjectRequirements,
                                      coordinationReply: string, allocationReply: string, timestamp: nat, now: nat)
      returns (r: Result<CoordinationResult>)
      requires Valid() && UniqueKeys(results)
      modifies this, teamCoordinator, userProxy, userProxy.proxy, qualityAssurance
      ensures Valid()
      ensures r == CoordinationOutcome(results, req, coordinationReply, allocationReply, timestamp)
      ensures Recorded(r, results, now, old(coordinationHistory), old(activeTeams), old(completedTeams),
                       old(resourceAllocations), old(qualityStatus))
      ensures pendingDecisions == old(pendingDecisions)
    {
      var plan, decisions, record, assessments, report :=
        RunCoordinationSteps(results, req, coordinationReply, allocationReply, timestamp);
      r := FinishCoordination(results, req, coordinationReply, allocationReply, timestamp,
                              plan, decisions, record, assessments, report);
      RecordOutcome(results, r, now);
    }

    /** The end of `coordinate_project_execution`: a completed run is
        appended to the history and updates the project state. */
    method RecordOutcome(results: seq<(string, string)>, r: Result<CoordinationResult>, now: nat)
      requires Valid()
      modifies this
      ensures Valid()
      ensures Recorded(r, results, now, old(coordinationHistory), old(activeTeams), old(completedTeams),
                       old(resourceAllocations), old(qualityStatus))
      ensures pendingDecisions == old(pendingDecisions)
    {
      if r.Ok? {
        coordinationHistory := coordinationHistory + [r.value];
        UpdateProjectState(results, r.value, now);
      }
    }

    /** `coordinate_project_execution` as written: the quality report slices
        a set, so every run raises in step 3, after the integration plan,
        the two approvals and the assessments have been recorded by the
        agents, and before the history or the project state change. */
    method CoordinateProjectExecutionAsWritten(results: seq<(string, string)>, req: ProjectRequirements,
                                               coordinationReply: string, allocationReply: string, timestamp: nat)
      returns (r: Result<CoordinationResult>)
      requires Valid() && UniqueKeys(results)
      modifies teamCoordinator, userProxy, userProxy.proxy, qualityAssurance
      ensures Valid()
      ensures r == Err("TypeError", "'set' object is not subscriptable")
      ensures PlanningLogged(results, coordinationReply, allocationReply, timestamp)
      ensures Assessed(results, timestamp)
    {
      var plan, decisions, record := RunPlanningSteps(results, req, coordinationReply, allocationReply, timestamp);
      var assessments := AssessAll(results, timestamp);
      var report := QA.CreateQualityReportAsWritten(assessments);
      r := Err("", "");
      if report.Err? {
        r := Err(report.exception, report.message);
      } else {
        assert false;
      }
    }
  }
}
