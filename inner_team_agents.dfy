/** The inner-team agents (agents/inner_team_agents.py): their bookkeeping
    counters, the factory table that names three agents per team, and the
    performance summary over a list of agents. The agents' prompt text and the
    language-model machinery they inherit are not part of this model. */
module InnerAgents {
  import opened Wrappers
  import opened Ratio

  datatype TaskRecord = TaskRecord(
    timestamp: nat,
    task: string,
    result: string,
    humanApproved: bool,
    team: string)

  /** The agent's `performance_metrics` dictionary. */
  datatype PerformanceMetrics = PerformanceMetrics(
    tasksCompleted: nat,
    humanInterventions: nat,
    approvalRate: real,
    averageResponseTime: real)

  const InitialMetrics := PerformanceMetrics(0, 0, 0.0, 0.0)

  /** The number of tasks in `h` that a human approved. */
  function CountApproved(h: seq<TaskRecord>): (n: nat)
    ensures n <= |h|
    ensures n == 0 <==> forall k :: 0 <= k < |h| ==> !h[k].humanApproved
  {
    if h == [] then 0
    else CountApproved(h[..|h| - 1]) + (if h[|h| - 1].humanApproved then 1 else 0)
  }

  /** The approval rate as the agent keeps it: recomputed as approved / total
      after every approved task, and left as it was after a rejected one. */
  function StoredApprovalRate(h: seq<TaskRecord>): real
  {
    if h == [] then 0.0
    else if h[|h| - 1].humanApproved then CountApproved(h) as real / |h| as real
    else StoredApprovalRate(h[..|h| - 1])
  }

  /** The stored rate is a proportion, and it is positive exactly when some task
      was approved. */
  lemma {:induction false} StoredApprovalRateBounds(h: seq<TaskRecord>)
    ensures 0.0 <= StoredApprovalRate(h) <= 1.0
    ensures StoredApprovalRate(h) > 0.0 <==> exists k :: 0 <= k < |h| && h[k].humanApproved
  {
    if h != [] {
      var init := h[..|h| - 1];
      StoredApprovalRateBounds(init);
      if h[|h| - 1].humanApproved {
        RatioBounds(CountApproved(h), |h|);
      } else {
        if exists k :: 0 <= k < |h| && h[k].humanApproved {
          var k :| 0 <= k < |h| && h[k].humanApproved;
          assert k < |init| && init[k] == h[k];
        }
        if exists k :: 0 <= k < |init| && init[k].humanApproved {
          var k :| 0 <= k < |init| && init[k].humanApproved;
          assert h[k] == init[k];
        }
      }
    }
  }

  class InnerAgent {
    const name: string
    const teamName: string
    var metrics: PerformanceMetrics
    var taskHistory: seq<TaskRecord>

    ghost predicate Valid()
      reads this
    {
      metrics.tasksCompleted == |taskHistory| &&
      metrics.approvalRate == StoredApprovalRate(taskHistory) &&
      metrics.humanInterventions == 0 && metrics.averageResponseTime == 0.0
    }

    constructor (name: string, teamName: string)
      ensures Valid()
      ensures this.name == name && this.teamName == teamName
      ensures metrics == InitialMetrics && taskHistory == []
    {
      this.name := name;
      this.teamName := teamName;
      metrics := InitialMetrics;
      taskHistory := [];
    }

    /** `log_task`: one history entry and one more completed task; the approval
        rate is recomputed only when the task was approved. */
    method LogTask(task: string, result: string, humanApproved: bool, timestamp: nat)
      requires Valid()
      modifies this
      ensures Valid()
      ensures taskHistory == old(taskHistory) + [TaskRecord(timestamp, task, result, humanApproved, teamName)]
      ensures metrics.tasksCompleted == old(metrics.tasksCompleted) + 1
      ensures metrics.approvalRate ==
              if humanApproved then CountApproved(taskHistory) as real / |taskHistory| as real
              else old(metrics.approvalRate)
      ensures 0.0 <= metrics.approvalRate <= 1.0
    {
      var record := TaskRecord(timestamp, task, result, humanApproved, teamName);
      taskHistory := taskHistory + [record];
      assert taskHistory[..|taskHistory| - 1] == old(taskHistory);
      metrics := metrics.(tasksCompleted := metrics.tasksCompleted + 1);
      if humanApproved {
        metrics := metrics.(approvalRate := CountApproved(taskHistory) as real / |taskHistory| as real);
      }
      StoredApprovalRateBounds(taskHistory);
    }
  }

  // ---------------------------------------------------------------------
  // Factory
  // ---------------------------------------------------------------------

  /** One row of `AGENT_CLASSES`: the agent's name and the team it reports. */
  datatype AgentKind = AgentKind(name: string, team: string)

  const AgentClasses: seq<(string, seq<AgentKind>)> := [
    ("research_analysis", [AgentKind("ResearchSpecialist", "Research_Analysis"),
                           AgentKind("DataAnalyst", "Research_Analysis"),
                           AgentKind("ReportWriter", "Research_Analysis")]),
    ("creative_design", [AgentKind("CreativeStrategist", "Creative_Design"),
                         AgentKind("ContentCreator", "Creative_Design"),
                         AgentKind("VisualDesigner", "Creative_Design")]),
    ("technical_implementation", [AgentKind("SystemArchitect", "Technical_Implementation"),
                                  AgentKind("Developer", "Technical_Implementation"),
                                  AgentKind("QAEngineer", "Technical_Implementation")])
  ]

  const TeamNames: seq<string> := ["research_analysis", "creative_design", "technical_implementation"]

  /** The agent kinds registered for a team name, if the table has it. */
  function Roster(teamName: string): (r: Option<seq<AgentKind>>)
    ensures r.Some? <==> teamName in TeamNames
    ensures r.Some? ==> |r.value| == 3
  {
    if teamName == "research_analysis" then Some(AgentClasses[0].1)
    else if teamName == "creative_design" then Some(AgentClasses[1].1)
    else if teamName == "technical_implementation" then Some(AgentClasses[2].1)
    else None
  }

  lemma {:induction false} RosterMatchesTable(k: nat)
    requires k < |AgentClasses|
    ensures AgentClasses[k].0 == TeamNames[k]
    ensures Roster(AgentClasses[k].0) == Some(AgentClasses[k].1)
  {
  }

  /** `create_team_agents(team_name)`: ValueError for an unknown team, otherwise
      one fresh agent per registered kind, in table order. */
  method CreateTeamAgents(teamName: string) returns (r: Result<seq<InnerAgent>>)
    ensures r.Err? <==> teamName !in TeamNames
    ensures r.Ok? ==> var kinds := Roster(teamName).value;
      |r.value| == |kinds| == 3 &&
      forall k :: 0 <= k < |kinds| ==>
        fresh(r.value[k]) && r.value[k].Valid() && r.value[k].taskHistory == [] &&
        r.value[k].name == kinds[k].name && r.value[k].teamName == kinds[k].team
  {
    var roster := Roster(teamName);
    if roster.None? {
      return Err("ValueError", "Unknown team: " + teamName);
    }
    var kinds := roster.value;
    var agents: seq<InnerAgent> := [];
    var i := 0;
    while i < |kinds|
      invariant 0 <= i <= |kinds|
      invariant |agents| == i
      invariant forall k :: 0 <= k < i ==>
        fresh(agents[k]) && agents[k].Valid() && agents[k].taskHistory == [] &&
        agents[k].name == kinds[k].name && agents[k].teamName == kinds[k].team
    {
      var agent := new InnerAgent(kinds[i].name, kinds[i].team);
      agents := agents + [agent];
      i := i + 1;
    }
    return Ok(agents);
  }

  /** `create_all_teams()`: the three registered teams, in table order. */
  method CreateAllTeams() returns (teams: seq<(string, seq<InnerAgent>)>)
    ensures |teams| == |TeamNames|
    ensures forall k :: 0 <= k < |teams| ==> teams[k].0 == TeamNames[k] && |teams[k].1| == 3
    ensures forall k, j :: 0 <= k < |teams| && 0 <= j < |teams[k].1| ==>
              fresh(teams[k].1[j]) && teams[k].1[j].Valid()
  {
    teams := [];
    var i := 0;
    while i < |AgentClasses|
      invariant 0 <= i <= |AgentClasses|
      invariant |teams| == i
      invariant forall k :: 0 <= k < i ==> teams[k].0 == TeamNames[k] && |teams[k].1| == 3
      invariant forall k, j :: 0 <= k < i && 0 <= j < |teams[k].1| ==>
                  fresh(teams[k].1[j]) && teams[k].1[j].Valid()
    {
      var name := AgentClasses[i].0;
      RosterMatchesTable(i);
      var created := CreateTeamAgents(name);
      teams := teams + [(name, created.value)];
      i := i + 1;
    }
  }

  // ---------------------------------------------------------------------
  // Performance summary
  // ---------------------------------------------------------------------

  datatype AgentDetail = AgentDetail(name: string, team: string, metrics: PerformanceMetrics)

  datatype PerformanceSummary = PerformanceSummary(
    totalAgents: nat,
    totalTasksCompleted: nat,
    totalHumanInterventions: nat,
    averageApprovalRate: real,
    agentDetails: seq<AgentDetail>)

  function SumTasks(ms: seq<PerformanceMetrics>): nat {
    if ms == [] then 0 else ms[0].tasksCompleted + SumTasks(ms[1..])
  }

  function SumInterventions(ms: seq<PerformanceMetrics>): nat {
    if ms == [] then 0 else ms[0].humanInterventions + SumInterventions(ms[1..])
  }

  function SumApprovalRates(ms: seq<PerformanceMetrics>): real {
    if ms == [] then 0.0 else ms[0].approvalRate + SumApprovalRates(ms[1..])
  }

  predicate RatesAreProportions(details: seq<AgentDetail>) {
    forall k :: 0 <= k < |details| ==> 0.0 <= details[k].metrics.approvalRate <= 1.0
  }

  function MetricsOf(details: seq<AgentDetail>): (ms: seq<PerformanceMetrics>)
    ensures |ms| == |details|
    ensures forall k :: 0 <= k < |details| ==> ms[k] == details[k].metrics
  {
    if details == [] then [] else [details[0].metrics] + MetricsOf(details[1..])
  }

  lemma {:induction false} SumApprovalRatesBounds(details: seq<AgentDetail>)
    ensures RatesAreProportions(details) ==> 0.0 <= SumApprovalRates(MetricsOf(details)) <= |details| as real
  {
    if details != [] {
      SumApprovalRatesBounds(details[1..]);
      assert MetricsOf(details)[1..] == MetricsOf(details[1..]);
      assert RatesAreProportions(details) ==> RatesAreProportions(details[1..]) by {
        if RatesAreProportions(details) {
          forall k | 0 <= k < |details| - 1
            ensures 0.0 <= details[1..][k].metrics.approvalRate <= 1.0
          {
            assert details[1..][k] == details[k + 1];
          }
        }
      }
    }
  }

  /** The summary of the metrics of agents given by their name, team and
      metrics. With no agents the average divides by zero. */
  function Summarize(details: seq<AgentDetail>): (r: Result<PerformanceSummary>)
    ensures r.Err? <==> details == []
    ensures r.Ok? ==> r.value.totalAgents == |details| && r.value.agentDetails == details
    ensures r.Ok? ==> r.value.totalTasksCompleted == SumTasks(MetricsOf(details)) &&
                      r.value.totalHumanInterventions == SumInterventions(MetricsOf(details)) &&
                      r.value.averageApprovalRate == SumApprovalRates(MetricsOf(details)) / |details| as real
    ensures r.Ok? && RatesAreProportions(details) ==> 0.0 <= r.value.averageApprovalRate <= 1.0
  {
    if details == [] then Err("ZeroDivisionError", "division by zero")
    else
      var ms := MetricsOf(details);
      SumApprovalRatesBounds(details);
      assert 0.0 <= SumApprovalRates(ms) <= |details| as real ==>
               0.0 <= SumApprovalRates(ms) / |details| as real <= 1.0 by {
        if 0.0 <= SumApprovalRates(ms) <= |details| as real {
          MeanBetween(SumApprovalRates(ms), |details|, 0.0, 1.0);
        }
      }
      Ok(PerformanceSummary(|details|, SumTasks(ms), SumInterventions(ms),
                            SumApprovalRates(ms) / |details| as real, details))
  }

  function Details(agents: seq<InnerAgent>): (r: seq<AgentDetail>)
    reads set a | a in agents
    ensures |r| == |agents|
    ensures forall k :: 0 <= k < |agents| ==>
              r[k] == AgentDetail(agents[k].name, agents[k].teamName, agents[k].metrics)
  {
    seq(|agents|, k reads set a | a in agents requires 0 <= k < |agents| =>
      AgentDetail(agents[k].name, agents[k].teamName, agents[k].metrics))
  }

  /** `get_agent_performance_summary(agents)`: totals are sums over the agents,
      the average is the sum of the rates over the number of agents, details
      keep the agents' order, and an empty list fails. For valid agents the
      task total is the number of tasks in their histories, no intervention
      is counted, and the average approval rate is a proportion. */
  function GetAgentPerformanceSummary(agents: seq<InnerAgent>): (r: Result<PerformanceSummary>)
    reads set a | a in agents
    ensures r.Err? <==> agents == []
    ensures r.Ok? ==> r.value.totalAgents == |agents| && |r.value.agentDetails| == |agents|
    ensures r.Ok? ==> forall k :: 0 <= k < |agents| ==>
              r.value.agentDetails[k] == AgentDetail(agents[k].name, agents[k].teamName, agents[k].metrics)
    ensures r.Ok? ==> var ms := MetricsOf(r.value.agentDetails);
              r.value.totalTasksCompleted == SumTasks(ms) &&
              r.value.totalHumanInterventions == SumInterventions(ms) &&
              r.value.averageApprovalRate == SumApprovalRates(ms) / |agents| as real
    ensures r.Ok? && (forall k :: 0 <= k < |agents| ==> agents[k].Valid()) ==>
              r.value.totalTasksCompleted == SumHistories(agents) && r.value.totalHumanInterventions == 0 &&
              0.0 <= r.value.averageApprovalRate <= 1.0
  {
    var details := Details(agents);
    ValidAgentsHaveRates(agents, details);
    ValidAgentsTotals(agents);
    Summarize(details)
  }

  /** The number of tasks in the agents' histories. */
  function SumHistories(agents: seq<InnerAgent>): nat
    reads set a | a in agents
  {
    if agents == [] then 0 else |agents[0].taskHistory| + SumHistories(agents[1..])
  }

  /** Valid agents count one task per history entry and no intervention. */
  lemma {:induction false} ValidAgentsTotals(agents: seq<InnerAgent>)
    ensures (forall k :: 0 <= k < |agents| ==> agents[k].Valid()) ==>
              SumTasks(MetricsOf(Details(agents))) == SumHistories(agents) &&
              SumInterventions(MetricsOf(Details(agents))) == 0
  {
    if agents != [] && forall k :: 0 <= k < |agents| ==> agents[k].Valid() {
      var rest := agents[1..];
      assert forall k :: 0 <= k < |rest| ==> rest[k] == agents[k + 1];
      ValidAgentsTotals(rest);
      assert Details(agents)[1..] == Details(rest);
      assert MetricsOf(Details(agents))[1..] == MetricsOf(Details(rest));
      assert agents[0].Valid();
    }
  }

  lemma {:induction false} ValidAgentsHaveRates(agents: seq<InnerAgent>, details: seq<AgentDetail>)
    requires |details| == |agents|
    requires forall k :: 0 <= k < |agents| ==> details[k].metrics == agents[k].metrics
    ensures (forall k :: 0 <= k < |agents| ==> agents[k].Valid()) ==> RatesAreProportions(details)
  {
    forall k | 0 <= k < |agents|
      ensures agents[k].Valid() ==> 0.0 <= details[k].metrics.approvalRate <= 1.0
    {
      StoredApprovalRateBounds(agents[k].taskHistory);
    }
  }
}
