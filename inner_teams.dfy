/** The inner-team orchestrator (som_framework/inner_teams.py): it picks the
    collaboration template for a team by name, runs it, logs every successful
    run, and derives performance metrics from that log. */
module InnerTeams {
  import opened Wrappers
  import opened Text
  import opened Dict
  import opened Ratio

  // ---------------------------------------------------------------------
  // Collaboration templates
  // ---------------------------------------------------------------------

  datatype Template = ResearchTemplate | CreativeTemplate | TechnicalTemplate | GenericTemplate

  /** `_simulate_team_collaboration`: the three known teams have their own
      template; every other name gets the generic one. */
  function TemplateFor(team: string): (g: Template)
    ensures g == ResearchTemplate <==> team == "research_analysis"
    ensures g == CreativeTemplate <==> team == "creative_design"
    ensures g == TechnicalTemplate <==> team == "technical_implementation"
  {
    if team == "research_analysis" then ResearchTemplate
    else if team == "creative_design" then CreativeTemplate
    else if team == "technical_implementation" then TechnicalTemplate
    else GenericTemplate
  }

  function Title(g: Template): string {
    match g
    case ResearchTemplate => "RESEARCH & ANALYSIS TEAM OUTPUT"
    case CreativeTemplate => "CREATIVE & DESIGN TEAM OUTPUT"
    case TechnicalTemplate => "TECHNICAL IMPLEMENTATION TEAM OUTPUT"
    case GenericTemplate => "TEAM COLLABORATION OUTPUT"
  }

  /** The heading under which each template repeats the requirements. */
  function RequirementsHeading(g: Template): string {
    match g
    case ResearchTemplate => "REQUIREMENTS ANALYSIS:\n"
    case CreativeTemplate => "PROJECT BRIEF:\n"
    case TechnicalTemplate => "TECHNICAL REQUIREMENTS:\n"
    case GenericTemplate => "Requirements Addressed: "
  }

  /** The canned text after the requirements, abbreviated to its first
      heading; the generic template names the team members there. */
  function Body(g: Template, agentNames: seq<string>): string {
    match g
    case ResearchTemplate => "\nRESEARCH SPECIALIST FINDINGS:\n"
    case CreativeTemplate => "\nCREATIVE STRATEGIST FRAMEWORK:\n"
    case TechnicalTemplate => "\nSYSTEM ARCHITECT DESIGN:\n"
    case GenericTemplate => "\n\nTeam Members: " + JoinWith(agentNames, ", ") + "\n"
  }

  /** The text a team produces: its template's title, the requirements and the
      template body. */
  function TeamOutput(team: string, requirements: string, agentNames: seq<string>): (r: string)
    ensures StartsWith(r, "\n" + Title(TemplateFor(team)))
    ensures Contains(r, requirements)
  {
    var g := TemplateFor(team);
    var head := "\n" + Title(g) + "\n\n" + RequirementsHeading(g);
    var r := head + requirements + Body(g, agentNames);
    assert r[..|"\n" + Title(g)|] == "\n" + Title(g);
    assert r[|head|..|head| + |requirements|] == requirements;
    ContainsAt(r, requirements, |head|);
    r
  }

  /** The generic template lists every team member by name. */
  lemma {:induction false} GenericOutputNamesMembers(team: string, requirements: string, agentNames: seq<string>, k: nat)
    requires TemplateFor(team) == GenericTemplate && k < |agentNames|
    ensures Contains(TeamOutput(team, requirements, agentNames), agentNames[k])
  {
    var g := TemplateFor(team);
    var head := "\n" + Title(g) + "\n\n" + RequirementsHeading(g);
    var members := JoinWith(agentNames, ", ");
    JoinWithContains(agentNames, ", ", k);
    ContainsInConcat("\n\nTeam Members: ", members, agentNames[k]);
    ContainsInConcat("\n\nTeam Members: " + members, "\n", agentNames[k]);
    assert Body(g, agentNames) == "\n\nTeam Members: " + members + "\n";
    ContainsInConcat(head + requirements, Body(g, agentNames), agentNames[k]);
  }

  // ---------------------------------------------------------------------
  // The orchestrator
  // ---------------------------------------------------------------------

  datatype ExecutionRecord = ExecutionRecord(
    timestamp: nat,
    team: string,
    requirements: string,
    agentsCount: nat,
    resultLength: nat,
    success: bool)

  /** The text returned in place of an output when generation raises. */
  function ErrorText(team: string, message: string): (r: string)
    ensures StartsWith(r, "Error in ") && |r| >= |message|
    ensures r[|r| - |message|..] == message
  {
    "Error in " + team + " execution: " + message
  }

  datatype TeamBreakdown = TeamBreakdown(executions: nat, successRate: real, averageAgents: real)

  datatype TimelineEntry = TimelineEntry(timestamp: nat, team: string, success: bool)

  datatype PerformanceMetrics = PerformanceMetrics(
    totalExecutions: nat,
    successfulExecutions: nat,
    averageResultLength: real,
    teamBreakdown: seq<(string, TeamBreakdown)>,
    timeline: seq<TimelineEntry>)

  class InnerTeamOrchestrator {
    /** The agents of each team, by name. */
    const innerTeamAgents: seq<(string, seq<string>)>
    var teamWorkflows: seq<(string, string)>
    var executionHistory: seq<ExecutionRecord>

    /** Only successful runs are ever logged. */
    ghost predicate Valid()
      reads this
    {
      forall k :: 0 <= k < |executionHistory| ==> executionHistory[k].success
    }

    constructor (innerTeamAgents: seq<(string, seq<string>)>)
      ensures this.innerTeamAgents == innerTeamAgents
      ensures teamWorkflows == [] && executionHistory == [] && Valid()
    {
      this.innerTeamAgents := innerTeamAgents;
      teamWorkflows := [];
      executionHistory := [];
    }

    /** `execute_team_workflow`. A run either yields the team's output and logs
        one successful record, or -- when generation raises with `failure` --
        yields the error text and logs nothing. */
    method ExecuteTeamWorkflow(team: string, requirements: string, agentNames: seq<string>,
                               failure: Option<string>, timestamp: nat) returns (result: string)
      requires Valid()
      modifies this
      ensures Valid() && teamWorkflows == old(teamWorkflows)
      ensures failure.None? ==>
                result == TeamOutput(team, requirements, agentNames) &&
                executionHistory == old(executionHistory) +
                  [ExecutionRecord(timestamp, team, requirements, |agentNames|, |result|, true)]
      ensures failure.Some? ==>
                result == ErrorText(team, failure.value) && executionHistory == old(executionHistory)
    {
      if failure.Some? {
        return ErrorText(team, failure.value);
      }
      result := TeamOutput(team, requirements, agentNames);
      executionHistory := executionHistory +
        [ExecutionRecord(timestamp, team, requirements, |agentNames|, |result|, true)];
    }

    /** `reset_execution_history`. */
    method ResetExecutionHistory()
      modifies this
      ensures executionHistory == [] && teamWorkflows == [] && Valid()
    {
      executionHistory := [];
      teamWorkflows := [];
    }

    /** `get_team_performance_metrics`: totals, the average result length, a
        breakdown per team in order of first execution, and the timeline. */
    method GetTeamPerformanceMetrics() returns (m: PerformanceMetrics)
      ensures m == MetricsOf(executionHistory)
    {
      var h := executionHistory;
      var successful := 0;
      var i := 0;
      while i < |h|
        invariant 0 <= i <= |h| && successful == SuccessCount(h[..i])
      {
        assert h[..i + 1][..i] == h[..i];
        if h[i].success { successful := successful + 1; }
        i := i + 1;
      }
      assert h[..i] == h;
      if h == [] {
        return PerformanceMetrics(0, successful, 0.0, [], []);
      }
      var lengths := 0;
      i := 0;
      while i < |h|
        invariant 0 <= i <= |h| && lengths == LengthSum(h[..i])
      {
        assert h[..i + 1][..i] == h[..i];
        lengths := lengths + h[i].resultLength;
        i := i + 1;
      }
      assert h[..i] == h;
      var counts := CountByTeam(h);
      var breakdown := RatesByTeam(h, counts);
      var timeline := seq(|h|, k requires 0 <= k < |h| => TimelineEntry(h[k].timestamp, h[k].team, h[k].success));
      m := PerformanceMetrics(|h|, successful, lengths as real / |h| as real, breakdown, timeline);
    }
  }

  // ---------------------------------------------------------------------
  // The metrics as functions of the log
  // ---------------------------------------------------------------------

  function TeamNames(h: seq<ExecutionRecord>): (r: seq<string>)
    ensures |r| == |h| && forall k :: 0 <= k < |h| ==> r[k] == h[k].team
  {
    seq(|h|, k requires 0 <= k < |h| => h[k].team)
  }

  function SuccessCount(h: seq<ExecutionRecord>): (n: nat)
    ensures n <= |h|
  {
    if h == [] then 0 else SuccessCount(h[..|h| - 1]) + if h[|h| - 1].success then 1 else 0
  }

  function LengthSum(h: seq<ExecutionRecord>): nat {
    if h == [] then 0 else LengthSum(h[..|h| - 1]) + h[|h| - 1].resultLength
  }

  /** The number of runs of team `t`. */
  function Executions(h: seq<ExecutionRecord>, t: string): nat {
    if h == [] then 0 else Executions(h[..|h| - 1], t) + if h[|h| - 1].team == t then 1 else 0
  }

  /** The number of successful runs of team `t`. */
  function Successes(h: seq<ExecutionRecord>, t: string): (n: nat)
    ensures n <= Executions(h, t)
  {
    if h == [] then 0
    else Successes(h[..|h| - 1], t) + if h[|h| - 1].team == t && h[|h| - 1].success then 1 else 0
  }

  /** The agents counted over the runs of team `t`. */
  function AgentSum(h: seq<ExecutionRecord>, t: string): nat {
    if h == [] then 0 else AgentSum(h[..|h| - 1], t) + if h[|h| - 1].team == t then h[|h| - 1].agentsCount else 0
  }

  /** A team that ran has at least one run; a team that never ran has none. */
  lemma {:induction false} ExecutionsPositive(h: seq<ExecutionRecord>, t: string)
    ensures t in TeamNames(h) <==> Executions(h, t) > 0
    ensures Executions(h, t) == 0 ==> AgentSum(h, t) == 0
  {
    if h != [] {
      var init := h[..|h| - 1];
      ExecutionsPositive(init, t);
      assert TeamNames(h) == TeamNames(init) + [h[|h| - 1].team];
    }
  }

  function BreakdownFor(h: seq<ExecutionRecord>, t: string): (b: TeamBreakdown)
    requires t in TeamNames(h)
    ensures b.executions > 0 && 0.0 <= b.successRate <= 1.0
  {
    ExecutionsPositive(h, t);
    var n := Executions(h, t);
    RatioBounds(Successes(h, t), n);
    TeamBreakdown(n, Successes(h, t) as real / n as real, AgentSum(h, t) as real / n as real)
  }

  /** The breakdown: one row per team in order of its first run. */
  function BreakdownOf(h: seq<ExecutionRecord>): (r: seq<(string, TeamBreakdown)>)
    ensures Keys(r) == Distinct(TeamNames(h))
    ensures forall k :: 0 <= k < |r| ==> r[k].0 in TeamNames(h) && r[k].1 == BreakdownFor(h, r[k].0)
  {
    var teams := Distinct(TeamNames(h));
    DistinctProperties(TeamNames(h));
    var r := seq(|teams|, k requires 0 <= k < |teams| => (teams[k], BreakdownFor(h, teams[k])));
    assert Keys(r) == teams;
    assert forall k :: 0 <= k < |r| ==> r[k] == (teams[k], BreakdownFor(h, teams[k]));
    r
  }

  /** The metrics of an execution log: one timeline entry per run, and no
      more successes than runs. */
  function MetricsOf(h: seq<ExecutionRecord>): (r: PerformanceMetrics)
    ensures r.totalExecutions == |h| && r.successfulExecutions <= r.totalExecutions
    ensures |r.timeline| == |h|
    ensures h == [] ==> r.averageResultLength == 0.0 && r.teamBreakdown == []
  {
    if h == [] then PerformanceMetrics(0, 0, 0.0, [], [])
    else
      PerformanceMetrics(
        |h|, SuccessCount(h), LengthSum(h) as real / |h| as real, BreakdownOf(h),
        seq(|h|, k requires 0 <= k < |h| => TimelineEntry(h[k].timestamp, h[k].team, h[k].success)))
  }

  function SumExecutions(rows: seq<(string, TeamBreakdown)>): nat {
    if rows == [] then 0 else SumExecutions(rows[..|rows| - 1]) + rows[|rows| - 1].1.executions
  }

  function SumCounts(h: seq<ExecutionRecord>, teams: seq<string>): nat {
    if teams == [] then 0 else SumCounts(h, teams[..|teams| - 1]) + Executions(h, teams[|teams| - 1])
  }

  /** One more run adds one to the count of its team and nothing to the others. */
  lemma {:induction false} SumCountsStep(h: seq<ExecutionRecord>, e: ExecutionRecord, teams: seq<string>)
    requires forall i, j :: 0 <= i < j < |teams| ==> teams[i] != teams[j]
    ensures SumCounts(h + [e], teams) == SumCounts(h, teams) + if e.team in teams then 1 else 0
  {
    if teams != [] {
      var init := teams[..|teams| - 1];
      SumCountsStep(h, e, init);
      assert (h + [e])[..|h + [e]| - 1] == h;
      assert teams == init + [teams[|teams| - 1]];
      assert e.team in teams <==> e.team in init || e.team == teams[|teams| - 1];
    }
  }

  /** A run of a team seen before leaves the team list as it is and adds one
      to that team's count. */
  lemma {:induction false} CoverStepKnown(h: seq<ExecutionRecord>, e: ExecutionRecord)
    requires e.team in Distinct(TeamNames(h))
    ensures Distinct(TeamNames(h + [e])) == Distinct(TeamNames(h))
    ensures SumCounts(h + [e], Distinct(TeamNames(h))) == SumCounts(h, Distinct(TeamNames(h))) + 1
  {
    assert TeamNames(h + [e])[..|h|] == TeamNames(h);
    DistinctProperties(TeamNames(h));
    SumCountsStep(h, e, Distinct(TeamNames(h)));
  }

  /** The first run of a team appends it to the team list with a count of one. */
  lemma {:induction false} CoverStepNew(h: seq<ExecutionRecord>, e: ExecutionRecord)
    requires e.team !in Distinct(TeamNames(h))
    ensures Distinct(TeamNames(h + [e])) == Distinct(TeamNames(h)) + [e.team]
    ensures SumCounts(h + [e], Distinct(TeamNames(h)) + [e.team]) == SumCounts(h, Distinct(TeamNames(h))) + 1
  {
    var before := Distinct(TeamNames(h));
    assert TeamNames(h + [e])[..|h|] == TeamNames(h);
    DistinctProperties(TeamNames(h));
    ExecutionsPositive(h, e.team);
    SnocCounts(h, e, e.team);
    assert (before + [e.team])[..|before|] == before;
    SumCountsStep(h, e, before);
  }

  /** Every run is counted under exactly one team. */
  lemma {:induction false} CountsCoverLog(h: seq<ExecutionRecord>)
    ensures SumCounts(h, Distinct(TeamNames(h))) == |h|
  {
    if h != [] {
      var init := h[..|h| - 1];
      var e := h[|h| - 1];
      CountsCoverLog(init);
      assert h == init + [e];
      if e.team in Distinct(TeamNames(init)) {
        CoverStepKnown(init, e);
      } else {
        CoverStepNew(init, e);
      }
    }
  }

  lemma {:induction false} SumExecutionsRows(h: seq<ExecutionRecord>, rows: seq<(string, TeamBreakdown)>)
    requires forall k :: 0 <= k < |rows| ==> rows[k].1.executions == Executions(h, rows[k].0)
    ensures SumExecutions(rows) == SumCounts(h, Keys(rows))
  {
    if rows != [] {
      var init := rows[..|rows| - 1];
      SumExecutionsRows(h, init);
      assert Keys(rows)[..|rows| - 1] == Keys(init);
    }
  }

  /** The per-team execution counts add up to the total, and every success
      rate is a proportion. */
  lemma {:induction false} BreakdownCoversLog(h: seq<ExecutionRecord>)
    ensures SumExecutions(MetricsOf(h).teamBreakdown) == MetricsOf(h).totalExecutions
    ensures forall k :: 0 <= k < |MetricsOf(h).teamBreakdown| ==>
              0.0 <= MetricsOf(h).teamBreakdown[k].1.successRate <= 1.0
  {
    if h != [] {
      var rows := BreakdownOf(h);
      assert MetricsOf(h).teamBreakdown == rows && MetricsOf(h).totalExecutions == |h|;
      SumExecutionsRows(h, rows);
      CountsCoverLog(h);
    }
  }

  lemma {:induction false} RateOfAll(n: nat)
    requires n > 0
    ensures n as real / n as real == 1.0
  {
  }

  lemma {:induction false} SuccessfulRows(h: seq<ExecutionRecord>)
    requires forall k :: 0 <= k < |h| ==> h[k].success
    ensures forall k :: 0 <= k < |BreakdownOf(h)| ==> BreakdownOf(h)[k].1.successRate == 1.0
  {
    var teams := Distinct(TeamNames(h));
    DistinctProperties(TeamNames(h));
    var rows := BreakdownOf(h);
    forall k | 0 <= k < |rows| ensures rows[k].1.successRate == 1.0 {
      var t := teams[k];
      AllSucceededPerTeam(h, t);
      var b := BreakdownFor(h, t);
      assert rows[k].1 == b;
      RateOfAll(Executions(h, t));
    }
  }

  /** Since only successful runs are logged, every logged run counts as a
      success and every team's success rate is one. */
  lemma {:induction false} SuccessfulLogRates(h: seq<ExecutionRecord>)
    requires forall k :: 0 <= k < |h| ==> h[k].success
    ensures MetricsOf(h).successfulExecutions == |h|
    ensures forall k :: 0 <= k < |MetricsOf(h).teamBreakdown| ==> MetricsOf(h).teamBreakdown[k].1.successRate == 1.0
  {
    AllSucceeded(h);
    SuccessfulRows(h);
  }

  lemma {:induction false} AllSucceeded(h: seq<ExecutionRecord>)
    requires forall k :: 0 <= k < |h| ==> h[k].success
    ensures SuccessCount(h) == |h|
  {
    if h != [] {
      AllSucceeded(h[..|h| - 1]);
    }
  }

  lemma {:induction false} AllSucceededPerTeam(h: seq<ExecutionRecord>, t: string)
    requires forall k :: 0 <= k < |h| ==> h[k].success
    ensures Successes(h, t) == Executions(h, t)
  {
    if h != [] {
      AllSucceededPerTeam(h[..|h| - 1], t);
    }
  }

  // ---------------------------------------------------------------------
  // The loops of get_team_performance_metrics
  // ---------------------------------------------------------------------

  /** What the first pass keeps for team `t`: its runs and its agent total. */
  function Entry(h: seq<ExecutionRecord>, t: string): (nat, nat) {
    (Executions(h, t), AgentSum(h, t))
  }

  /** `counts` holds, for every team of the log in order of first run, its
      number of runs and its agent total. */
  ghost predicate CountsAgree(counts: seq<(string, (nat, nat))>, h: seq<ExecutionRecord>) {
    Keys(counts) == Distinct(TeamNames(h)) && UniqueKeys(counts) &&
    forall t :: t in Keys(counts) ==> Lookup(counts, t) == Some(Entry(h, t))
  }

  /** One more run adds to the counts of its own team only. */
  lemma {:induction false} SnocCounts(h: seq<ExecutionRecord>, e: ExecutionRecord, t: string)
    ensures Executions(h + [e], t) == Executions(h, t) + if e.team == t then 1 else 0
    ensures AgentSum(h + [e], t) == AgentSum(h, t) + if e.team == t then e.agentsCount else 0
  {
    assert (h + [e])[..|h|] == h;
  }

  lemma {:induction false} BumpKeys(counts: seq<(string, (nat, nat))>, h: seq<ExecutionRecord>, e: ExecutionRecord, value: (nat, nat))
    requires Keys(counts) == Distinct(TeamNames(h))
    ensures Keys(Store(counts, e.team, value)) == Distinct(TeamNames(h + [e]))
  {
    var names := TeamNames(h + [e]);
    assert names == TeamNames(h) + [e.team];
    assert names[..|h|] == TeamNames(h);
  }

  /** The stored entry of the run's own team. */
  lemma {:induction false} BumpOwn(counts: seq<(string, (nat, nat))>, h: seq<ExecutionRecord>, e: ExecutionRecord, value: (nat, nat))
    requires value.0 == Executions(h, e.team) + 1 && value.1 == AgentSum(h, e.team) + e.agentsCount
    ensures Lookup(Store(counts, e.team, value), e.team) == Some(Entry(h + [e], e.team))
  {
    SnocCounts(h, e, e.team);
    assert Entry(h + [e], e.team) == value;
    StoreLookup(counts, e.team, value, e.team);
  }

  /** The entry the first pass reads for team `t` (zero when it has none) is
      its count so far. */
  lemma {:induction false} CurrentEntry(counts: seq<(string, (nat, nat))>, h: seq<ExecutionRecord>, t: string)
    requires CountsAgree(counts, h)
    ensures Lookup(counts, t).GetOr((0, 0)) == Entry(h, t)
  {
    if t in Keys(counts) {
      assert Lookup(counts, t) == Some(Entry(h, t));
    } else {
      NotYetRun(counts, h, t);
      assert Lookup(counts, t) == None;
    }
  }

  /** A team without an entry has not run yet. */
  lemma {:induction false} NotYetRun(counts: seq<(string, (nat, nat))>, h: seq<ExecutionRecord>, t: string)
    requires Keys(counts) == Distinct(TeamNames(h)) && t !in Keys(counts)
    ensures Executions(h, t) == 0 && AgentSum(h, t) == 0
  {
    DistinctProperties(TeamNames(h));
    ExecutionsPositive(h, t);
  }

  /** The entries of the other teams. */
  lemma {:induction false} BumpOther(counts: seq<(string, (nat, nat))>, h: seq<ExecutionRecord>, e: ExecutionRecord, value: (nat, nat), t: string)
    requires t != e.team && t in Keys(Store(counts, e.team, value))
    requires t in Keys(counts) ==> Lookup(counts, t) == Some(Entry(h, t))
    ensures Lookup(Store(counts, e.team, value), t) == Some(Entry(h + [e], t))
  {
    StoreLookup(counts, e.team, value, t);
    SnocCounts(h, e, t);
  }

  /** The update of the first pass for one more run `e` keeps the counts
      right. */
  lemma {:induction false} BumpAgrees(counts: seq<(string, (nat, nat))>, h: seq<ExecutionRecord>, e: ExecutionRecord, value: (nat, nat))
    requires CountsAgree(counts, h)
    requires value.0 == Lookup(counts, e.team).GetOr((0, 0)).0 + 1
    requires value.1 == Lookup(counts, e.team).GetOr((0, 0)).1 + e.agentsCount
    ensures CountsAgree(Store(counts, e.team, value), h + [e])
  {
    BumpKeys(counts, h, e, value);
    StoreUnique(counts, e.team, value);
    forall t | t in Keys(Store(counts, e.team, value))
      ensures Lookup(Store(counts, e.team, value), t) == Some(Entry(h + [e], t))
    {
      if t == e.team {
        CurrentEntry(counts, h, e.team);
        BumpOwn(counts, h, e, value);
      } else {
        BumpOther(counts, h, e, value, t);
      }
    }
  }

  /** The first pass over the log: runs and agents per team, keyed in order of
      first run. */
  method CountByTeam(h: seq<ExecutionRecord>) returns (counts: seq<(string, (nat, nat))>)
    ensures Keys(counts) == Distinct(TeamNames(h)) && UniqueKeys(counts)
    ensures forall t :: t in Keys(counts) ==> Lookup(counts, t) == Some(Entry(h, t))
  {
    counts := [];
    var i := 0;
    while i < |h|
      invariant 0 <= i <= |h| && CountsAgree(counts, h[..i])
    {
      var current := Lookup(counts, h[i].team).GetOr((0, 0));
      var value: (nat, nat) := (current.0 + 1, current.1 + h[i].agentsCount);
      BumpAgrees(counts, h[..i], h[i], value);
      assert h[..i] + [h[i]] == h[..i + 1];
      counts := Store(counts, h[i].team, value);
      i := i + 1;
    }
    assert h[..i] == h;
  }

  /** The inner loop of the second pass: the successful runs of one team. */
  method CountSuccesses(h: seq<ExecutionRecord>, team: string) returns (succeeded: nat)
    ensures succeeded == Successes(h, team)
  {
    succeeded := 0;
    var j := 0;
    while j < |h|
      invariant 0 <= j <= |h| && succeeded == Successes(h[..j], team)
    {
      assert h[..j + 1][..j] == h[..j];
      if h[j].team == team && h[j].success { succeeded := succeeded + 1; }
      j := j + 1;
    }
    assert h[..j] == h;
  }

  /** The second pass: each team's success rate over its own runs and its
      average agent count. */
  method RatesByTeam(h: seq<ExecutionRecord>, counts: seq<(string, (nat, nat))>)
    returns (rows: seq<(string, TeamBreakdown)>)
    requires Keys(counts) == Distinct(TeamNames(h)) && UniqueKeys(counts)
    requires forall t :: t in Keys(counts) ==> Lookup(counts, t) == Some(Entry(h, t))
    ensures rows == BreakdownOf(h)
  {
    var teams := Distinct(TeamNames(h));
    DistinctProperties(TeamNames(h));
    rows := [];
    var k := 0;
    while k < |counts|
      invariant 0 <= k <= |counts|
      invariant rows == seq(k, j requires 0 <= j < k => (teams[j], BreakdownFor(h, teams[j])))
    {
      var (team, data) := counts[k];
      LookupAt(counts, k);
      assert team == teams[k] && data.0 == Executions(h, team) && data.1 == AgentSum(h, team);
      var succeeded := CountSuccesses(h, team);
      ExecutionsPositive(h, team);
      var row := (team, TeamBreakdown(data.0, succeeded as real / data.0 as real, data.1 as real / data.0 as real));
      assert row == (teams[k], BreakdownFor(h, teams[k]));
      rows := rows + [row];
      k := k + 1;
    }
  }
}
