/** The bookkeeping every outer coordination agent shares
    (agents/outer_team_agents.py, `BaseOuterTeamAgent`): a coordination history
    and four counters, and the summary of those counters over all outer agents
    (`get_coordination_summary`). */
module OuterAgentBase {
  import opened Text
  import opened Ratio

  datatype CoordinationEntry = CoordinationEntry(
    timestamp: nat,
    taskType: string,
    details: string,
    success: bool)

  /** The agent's `performance_metrics` dictionary. */
  datatype CoordinationMetrics = CoordinationMetrics(
    coordinationTasks: nat,
    successfulIntegrations: nat,
    conflictResolutions: nat,
    resourceAllocations: nat)

  /** The number of successful entries of the given type. */
  function CountSuccessful(h: seq<CoordinationEntry>, taskType: string): (n: nat)
    ensures n <= |h|
  {
    if h == [] then 0
    else CountSuccessful(h[..|h| - 1], taskType) +
         (if h[|h| - 1].success && h[|h| - 1].taskType == taskType then 1 else 0)
  }

  /** The counters as a function of the history: one task per entry, and one
      type-specific count per successful entry of that type. */
  function MetricsOf(h: seq<CoordinationEntry>): (m: CoordinationMetrics)
    ensures m.successfulIntegrations <= m.coordinationTasks
    ensures m.conflictResolutions <= m.coordinationTasks
    ensures m.resourceAllocations <= m.coordinationTasks
  {
    CoordinationMetrics(|h|, CountSuccessful(h, "integration"),
                        CountSuccessful(h, "conflict_resolution"),
                        CountSuccessful(h, "resource_allocation"))
  }

  class BaseOuterAgent {
    const name: string
    var coordinationHistory: seq<CoordinationEntry>
    var metrics: CoordinationMetrics

    ghost predicate Valid()
      reads this
    {
      metrics == MetricsOf(coordinationHistory)
    }

    constructor (name: string)
      ensures Valid() && this.name == name && coordinationHistory == []
    {
      this.name := name;
      coordinationHistory := [];
      metrics := CoordinationMetrics(0, 0, 0, 0);
    }

    /** `log_coordination_task`: one more history entry and one more task; the
        counter of the task's type rises only for a successful task of a known
        type. */
    method LogCoordinationTask(taskType: string, details: string, success: bool, timestamp: nat)
      requires Valid()
      modifies this
      ensures Valid()
      ensures coordinationHistory == old(coordinationHistory) + [CoordinationEntry(timestamp, taskType, details, success)]
      ensures metrics.coordinationTasks == old(metrics.coordinationTasks) + 1
      ensures metrics.successfulIntegrations ==
              old(metrics.successfulIntegrations) + if success && taskType == "integration" then 1 else 0
      ensures metrics.conflictResolutions ==
              old(metrics.conflictResolutions) + if success && taskType == "conflict_resolution" then 1 else 0
      ensures metrics.resourceAllocations ==
              old(metrics.resourceAllocations) + if success && taskType == "resource_allocation" then 1 else 0
    {
      coordinationHistory := coordinationHistory + [CoordinationEntry(timestamp, taskType, details, success)];
      assert coordinationHistory[..|coordinationHistory| - 1] == old(coordinationHistory);
      metrics := metrics.(coordinationTasks := metrics.coordinationTasks + 1);
      if success {
        if taskType == "integration" {
          metrics := metrics.(successfulIntegrations := metrics.successfulIntegrations + 1);
        } else if taskType == "conflict_resolution" {
          metrics := metrics.(conflictResolutions := metrics.conflictResolutions + 1);
        } else if taskType == "resource_allocation" {
          metrics := metrics.(resourceAllocations := metrics.resourceAllocations + 1);
        }
      }
    }
  }

  // ---------------------------------------------------------------------
  // get_coordination_summary
  // ---------------------------------------------------------------------

  datatype AgentPerformance = AgentPerformance(
    coordinationTasks: nat,
    successRate: real,
    specialization: string)

  datatype CoordinationSummary = CoordinationSummary(
    totalCoordinationTasks: nat,
    successfulIntegrations: nat,
    conflictResolutions: nat,
    resourceAllocations: nat,
    agentPerformance: seq<(string, AgentPerformance)>)

  /** The success rate reported for an agent: its successful integrations over
      its task count, the count taken as at least one. */
  function SuccessRate(m: CoordinationMetrics): (r: real)
    ensures r == m.successfulIntegrations as real / (if m.coordinationTasks < 1 then 1 else m.coordinationTasks) as real
    ensures m.successfulIntegrations <= m.coordinationTasks ==> 0.0 <= r <= 1.0
    ensures m.coordinationTasks == 0 ==> r == m.successfulIntegrations as real
  {
    RateOf(m.successfulIntegrations, m.coordinationTasks)
  }

  /** `agent_name.replace("_", " ").title()`: underscores become spaces, a
      letter right after a letter is lower-cased and every other letter is
      upper-cased. */
  function Specialization(agentName: string): (r: string)
    ensures |r| == |agentName|
    ensures forall k :: 0 <= k < |r| ==>
              r[k] == if agentName[k] == '_' then ' '
                      else if 0 < k && IsLetterAscii(agentName[k - 1]) then LowerChar(agentName[k])
                      else UpperChar(agentName[k])
    ensures forall k :: 0 <= k < |r| ==> (r[k] == ' ' <==> agentName[k] == '_' || agentName[k] == ' ')
  {
    var spaced := ReplaceChar(agentName, '_', ' ');
    var titled := Title(spaced);
    assert forall j :: 0 <= j < |spaced| ==> (IsLetterAscii(spaced[j]) <==> IsLetterAscii(agentName[j]));
    assert forall k :: 0 <= k < |titled| ==> (IsLetterAscii(spaced[k]) <==> IsLetterAscii(titled[k]));
    TitleKeepsNonLetters(spaced, false);
    titled
  }

  lemma {:induction false} TitleKeepsNonLetters(s: string, afterLetter: bool)
    ensures forall k :: 0 <= k < |s| && !IsLetterAscii(s[k]) ==> TitleAfter(s, afterLetter)[k] == s[k]
    ensures forall k :: 0 <= k < |s| && IsLetterAscii(s[k]) ==> TitleAfter(s, afterLetter)[k] != ' '
  {
    if s != [] {
      TitleKeepsNonLetters(s[1..], IsLetterAscii(s[0]));
      var t := TitleAfter(s, afterLetter);
      assert t[1..] == TitleAfter(s[1..], IsLetterAscii(s[0]));
      forall k | 1 <= k < |s| ensures t[k] == t[1..][k - 1] && s[k] == s[1..][k - 1] {}
    }
  }

  /** The four counters of the summary. */
  datatype Counter = Tasks | Integrations | Conflicts | Allocations

  function CounterOf(m: CoordinationMetrics, c: Counter): nat {
    match c
    case Tasks => m.coordinationTasks
    case Integrations => m.successfulIntegrations
    case Conflicts => m.conflictResolutions
    case Allocations => m.resourceAllocations
  }

  /** A counter added up over the agents, the last agent last. */
  function Total(agents: seq<(string, CoordinationMetrics)>, c: Counter): nat {
    if agents == [] then 0 else Total(agents[..|agents| - 1], c) + CounterOf(agents[|agents| - 1].1, c)
  }

  /** The same sum, taken from the first agent on. */
  lemma {:induction false} TotalFront(agents: seq<(string, CoordinationMetrics)>, c: Counter)
    requires agents != []
    ensures Total(agents, c) == CounterOf(agents[0].1, c) + Total(agents[1..], c)
  {
    var init := agents[..|agents| - 1];
    if init == [] {
      assert agents[1..] == [];
    } else {
      TotalFront(init, c);
      assert init[1..] == agents[1..][..|agents[1..]| - 1];
      assert agents[1..][|agents[1..]| - 1] == agents[|agents| - 1];
    }
  }

  /** The summary over agents given by name and counters: each total is its
      counter summed over the agents, and each agent, in the input order, has
      its task count, its success rate and its specialization. */
  function Summarize(agents: seq<(string, CoordinationMetrics)>): (r: CoordinationSummary)
    ensures r.totalCoordinationTasks == Total(agents, Tasks)
    ensures r.successfulIntegrations == Total(agents, Integrations)
    ensures r.conflictResolutions == Total(agents, Conflicts)
    ensures r.resourceAllocations == Total(agents, Allocations)
    ensures |r.agentPerformance| == |agents|
    ensures forall k :: 0 <= k < |agents| ==>
              r.agentPerformance[k] ==
                (agents[k].0, AgentPerformance(agents[k].1.coordinationTasks, SuccessRate(agents[k].1),
                                               Specialization(agents[k].0)))
  {
    if agents == [] then CoordinationSummary(0, 0, 0, 0, [])
    else
      TotalFront(agents, Tasks);
      TotalFront(agents, Integrations);
      TotalFront(agents, Conflicts);
      TotalFront(agents, Allocations);
      var rest := Summarize(agents[1..]);
      var m := agents[0].1;
      CoordinationSummary(
        m.coordinationTasks + rest.totalCoordinationTasks,
        m.successfulIntegrations + rest.successfulIntegrations,
        m.conflictResolutions + rest.conflictResolutions,
        m.resourceAllocations + rest.resourceAllocations,
        [(agents[0].0, AgentPerformance(m.coordinationTasks, SuccessRate(m), Specialization(agents[0].0)))]
          + rest.agentPerformance)
  }

  /** The totals of the summary never exceed the total task count. */
  lemma {:induction false} SummaryBounded(agents: seq<(string, CoordinationMetrics)>)
    requires forall k :: 0 <= k < |agents| ==>
               agents[k].1.successfulIntegrations <= agents[k].1.coordinationTasks &&
               agents[k].1.conflictResolutions <= agents[k].1.coordinationTasks &&
               agents[k].1.resourceAllocations <= agents[k].1.coordinationTasks
    ensures Summarize(agents).successfulIntegrations <= Summarize(agents).totalCoordinationTasks
    ensures Summarize(agents).conflictResolutions <= Summarize(agents).totalCoordinationTasks
    ensures Summarize(agents).resourceAllocations <= Summarize(agents).totalCoordinationTasks
  {
    if agents != [] {
      SummaryBounded(agents[1..]);
    }
  }

  function MetricsOfAgents(agents: seq<(string, BaseOuterAgent)>): (r: seq<(string, CoordinationMetrics)>)
    reads set k | 0 <= k < |agents| :: agents[k].1
    ensures |r| == |agents|
    ensures forall k :: 0 <= k < |agents| ==> r[k] == (agents[k].0, agents[k].1.metrics)
  {
    if agents == [] then []
    else [(agents[0].0, agents[0].1.metrics)] + MetricsOfAgents(agents[1..])
  }

  /** `get_coordination_summary(agents)`: each total is its counter summed
      over the agents; one performance row per agent in input order, with
      the success rate integrations / max(1, tasks); for valid agents every
      success rate is a proportion and every type-specific total is at most
      the total task count. */
  function GetCoordinationSummary(agents: seq<(string, BaseOuterAgent)>): (r: CoordinationSummary)
    reads set k | 0 <= k < |agents| :: agents[k].1
    ensures var ms := MetricsOfAgents(agents);
            r.totalCoordinationTasks == Total(ms, Tasks) && r.successfulIntegrations == Total(ms, Integrations) &&
            r.conflictResolutions == Total(ms, Conflicts) && r.resourceAllocations == Total(ms, Allocations)
    ensures |r.agentPerformance| == |agents|
    ensures forall k :: 0 <= k < |agents| ==>
              var m := agents[k].1.metrics;
              r.agentPerformance[k] ==
                (agents[k].0, AgentPerformance(m.coordinationTasks, SuccessRate(m), Specialization(agents[k].0)))
    ensures (forall k :: 0 <= k < |agents| ==> agents[k].1.Valid()) ==>
              (forall k :: 0 <= k < |agents| ==> 0.0 <= r.agentPerformance[k].1.successRate <= 1.0) &&
              r.successfulIntegrations <= r.totalCoordinationTasks &&
              r.conflictResolutions <= r.totalCoordinationTasks &&
              r.resourceAllocations <= r.totalCoordinationTasks
  {
    var ms := MetricsOfAgents(agents);
    ValidAgentsBounded(agents, ms);
    Summarize(ms)
  }

  lemma {:induction false} ValidAgentsBounded(agents: seq<(string, BaseOuterAgent)>, ms: seq<(string, CoordinationMetrics)>)
    requires |ms| == |agents|
    requires forall k :: 0 <= k < |agents| ==> ms[k] == (agents[k].0, agents[k].1.metrics)
    ensures (forall k :: 0 <= k < |agents| ==> agents[k].1.Valid()) ==>
              Summarize(ms).successfulIntegrations <= Summarize(ms).totalCoordinationTasks &&
              Summarize(ms).conflictResolutions <= Summarize(ms).totalCoordinationTasks &&
              Summarize(ms).resourceAllocations <= Summarize(ms).totalCoordinationTasks
  {
    if forall k :: 0 <= k < |agents| ==> agents[k].1.Valid() {
      SummaryBounded(ms);
    }
  }
}
