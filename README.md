# Society of Mind coordination core, modelled in Dafny

The repository runs a "Society of Mind" multi-agent workflow. Three inner
teams (research & analysis, creative & design, technical implementation)
each produce a text output. An outer team then takes those outputs:
- a team coordinator derives dependencies and an integration order;
- a resource manager aggregates requests and allocates budget and time
  greedily by priority;
- a quality-assurance agent scores each output against fixed weighted
  criteria.

Human "user proxies" approve, reject or amend decisions through typed
replies. A top-level coordinator runs the whole workflow. It assembles the
final deliverable and keeps a project history with cumulative counters.

This project models that deterministic decision layer. The LLM agents, the
console and the template prose around it are left out. Human replies,
timestamps and injected failures are parameters. Python dictionaries are
sequences of key/value pairs with unique keys, kept in insertion order,
because the order of teams matters to the dependency lists, the integration
order, the allocation order and the timelines.

Modules, one per source file, plus shared helpers:

- `Config` (config.py): LLM configuration with its key requirement, team
  limits, and the scenario table with its fallback.
- `InnerAgents` (agents/inner_team_agents.py): agents that log tasks and keep
  an approval rate; the factory table; the performance summary.
- `OuterAgentBase`, `TeamCoordination`, `ResourceManagement`,
  `QualityAssurance` (agents/outer_team_agents.py): coordination counters;
  the keyword-overlap dependency relation and the integration order; the
  resource analysis and the greedy allocator; the fixed-weight quality score
  and the quality report.
- `UserProxy` (agents/user_proxy_integration.py): the reply classifiers, the
  intervention logs and the intervention summary.
- `InnerTeams` (som_framework/inner_teams.py): template dispatch, the
  execution log and the metrics over it.
- `OuterTeams` (som_framework/outer_teams.py): resource requests derived
  from output lengths, recommendation rules, project state and step
  sequencing.
- `Coordination` (som_framework/coordination.py): the complete workflow,
  the final deliverable with its truncation and numbering rules, performance
  metrics, and the system counters and running averages.
- Helpers:
  - `Wrappers`: `Option` and `Result`; an `Err` carries the message of the
    Python exception.
  - `Text`: ASCII case mapping, `strip`, `split`, `join`, substring search
    and rendering of naturals.
  - `Dict`: association lists.
  - `StableSort`: a stable insertion sort by a natural key, standing in for
    Python's stable `sorted`.
  - `Ratio`: proportions.

Where an operation changes state in the source, it is a method of a class
whose fields are that state. Each such method is tied by its `ensures` to a
function of the inputs and the old state, and the lemmas about that function
carry the properties. Where a method's contract leaves part of the new state
to the methods it calls, "## Left out" names it.

The model follows the code in four places:
- `create_quality_report` slices a `set` and raises. `coordinate_project_execution`
  calls it in step 3, after the integration plan, the resource allocation and
  both human approvals. So every outer coordination fails there, before the
  recommendations, the history append and the project-state update. The
  workflow then records the run as failed.
- `_analyze_workflow_performance` reads `end_time` before the workflow sets it.
- The "`$`" budget sum in `_generate_final_recommendations` is always 0.
  Every piece of the plan text that follows a `$` also carries words, and a
  piece that did not would make `.get` on a string raise. So the phased
  implementation recommendation appears only for a negative numeric budget.
  A budget given as text (such as "$500,000") makes the comparison raise a
  TypeError.
- `system_performance` starts as an empty dictionary, so the first update of
  the totals would raise a KeyError (see Findings).

The corrected workflow is modelled next to the as-written one. The
corrections are: a set of unique recommendations cut to ten, the end time
set before the analysis, and totals that start from zero.

## Model

| member | source | states |
|---|---|---|
| Config.GetLlmConfig | config.py:42-60 | a ValueError exactly when neither an explicit nor an environment key is present; otherwise one config entry with the default model, temperature 0.1, 2000 tokens and the explicit key in preference to the environment's, and a timeout of 120 |
| Config.LoadSettings | config.py:23-28 | each limit absent from the environment takes its default (5 teams, 10 agents, 300 s, 0.8); a given value is used as is |
| Config.GetTeamConfig | config.py:63-70 | exactly the four class-level limits |
| Config.GetScenarioConfig | config.py:73-99 | the table entry for product_launch, crisis_management and interactive, and the interactive entry for every name outside the available scenarios |
| Config.LookupScenarioTable | config.py:75-97 | the table has exactly the three entries product_launch, crisis_management and interactive |
| Config.AvailableScenariosHaveEntries | config.py:35-39 | a name is an available scenario exactly when the table has an entry for it |
| InnerAgents.CountApproved | agents/inner_team_agents.py:54-55 | the approved tasks are at most all tasks, and none exactly when no task was approved |
| InnerAgents.StoredApprovalRateBounds | agents/inner_team_agents.py:53-57 | the stored approval rate, recomputed only after an approved task, lies in [0, 1] and is positive exactly when some task was approved |
| InnerAgents.InnerAgent.constructor | agents/inner_team_agents.py:28-41 | a new agent has its name and team, zero counters and an empty history |
| InnerAgents.InnerAgent.LogTask | agents/inner_team_agents.py:43-57 | appends exactly one record and adds one to the completed tasks; the approval rate becomes approved/total after an approved task and is unchanged after a rejected one |
| InnerAgents.Roster | agents/inner_team_agents.py:412-429 | a roster exists exactly for the three factory teams, with three agent kinds each |
| InnerAgents.RosterMatchesTable | agents/inner_team_agents.py:412-429 | the factory table lists the three teams in order, each with its own roster |
| InnerAgents.CreateTeamAgents | agents/inner_team_agents.py:431-441 | a ValueError exactly for a team outside the factory table; otherwise three fresh agents, one per listed class, in order |
| InnerAgents.CreateAllTeams | agents/inner_team_agents.py:444-450 | exactly the three factory teams in order, three fresh agents each |
| InnerAgents.MetricsOf | agents/inner_team_agents.py:455-457 | the agents' metrics in agent order |
| InnerAgents.SumApprovalRatesBounds | agents/inner_team_agents.py:457 | with every rate a proportion, the sum of rates lies between 0 and the number of agents |
| InnerAgents.Summarize | agents/inner_team_agents.py:453-472 | fails (division by zero) exactly on an empty list; otherwise the task and intervention totals are the sums over the agents, the details keep agent order, and the average approval rate is the sum of the rates over the number of agents, a proportion when every rate is one |
| InnerAgents.Details | agents/inner_team_agents.py:464-471 | one detail per agent, in order, with its name, team and metrics |
| InnerAgents.GetAgentPerformanceSummary | agents/inner_team_agents.py:453-472 | fails exactly on an empty list; otherwise one detail per agent in order with its name, team and metrics, totals summed over those metrics and the average rate their mean; for valid agents the tasks total the history lengths, no intervention is counted and the average lies in [0, 1] |
| InnerAgents.ValidAgentsTotals | agents/inner_team_agents.py:455-456 | for valid agents, the total of completed tasks is the total length of their task histories and the total of interventions is 0 |
| InnerAgents.ValidAgentsHaveRates | agents/inner_team_agents.py:53-57 | every valid agent's approval rate is a proportion |
| OuterAgentBase.CountSuccessful | agents/outer_team_agents.py:52-59 | the successful entries of one type are at most all entries |
| OuterAgentBase.MetricsOf | agents/outer_team_agents.py:43-59 | each type-specific counter is at most the number of coordination tasks |
| OuterAgentBase.BaseOuterAgent.constructor | agents/outer_team_agents.py:29-41 | a new agent has zero counters and an empty history |
| OuterAgentBase.BaseOuterAgent.LogCoordinationTask | agents/outer_team_agents.py:43-59 | appends exactly one entry and adds one to the task count; a type counter rises by one exactly when the task succeeded and has that type |
| OuterAgentBase.SuccessRate | agents/outer_team_agents.py:564-566 | successful integrations divided by max(1, coordination tasks); the integrations themselves when there were no tasks; a proportion whenever the integrations do not exceed the tasks |
| OuterAgentBase.Specialization | agents/outer_team_agents.py:567 | the name with each underscore as a space, title-cased character by character: a letter right after a letter is lower-cased, any other letter upper-cased, and spaces come exactly from underscores and spaces |
| OuterAgentBase.TitleKeepsNonLetters | agents/outer_team_agents.py:567 | title-casing changes only letters and never yields a space from a letter |
| OuterAgentBase.Summarize | agents/outer_team_agents.py:545-570 | the four totals are the sums of each counter over all agents; each agent has a row in order holding its task count, its SuccessRate and its Specialization |
| OuterAgentBase.TotalFront | agents/outer_team_agents.py:555-560 | a counter total is the first agent's counter plus the total over the rest, the order of the loop over the agents |
| OuterAgentBase.SummaryBounded | agents/outer_team_agents.py:555-560 | the summed type counters never exceed the summed task count |
| OuterAgentBase.MetricsOfAgents | agents/outer_team_agents.py:555-556 | each agent's name with its metrics, in order |
| OuterAgentBase.GetCoordinationSummary | agents/outer_team_agents.py:545-570 | the four totals are the sums of each counter over the agents' metrics and each agent's row holds its task count, SuccessRate and Specialization; for valid agents every success rate is a proportion and each total type counter is at most the total tasks |
| OuterAgentBase.ValidAgentsBounded | agents/outer_team_agents.py:545-570 | valid agents yield totals whose type counters stay within the task total |
| TeamCoordination.SharedCount | agents/outer_team_agents.py:125-126 | the number of keywords shared by both texts is at most the size of the vocabulary |
| TeamCoordination.SharedCountIsSetSize | agents/outer_team_agents.py:125-126 | for a vocabulary without repeats, the count is the number of distinct keywords present in both texts |
| TeamCoordination.CommonKeywordsDistinct | agents/outer_team_agents.py:122-123 | the eight fixed keywords are distinct |
| TeamCoordination.OverlapScore | agents/outer_team_agents.py:118-126 | the overlap of two outputs is at most eight |
| TeamCoordination.OverlapScoreIsSetSize | agents/outer_team_agents.py:118-126 | the overlap is the number of fixed keywords present in both lower-cased outputs |
| TeamCoordination.OverlapScoreSymmetric | agents/outer_team_agents.py:118-126 | the overlap does not depend on the order of the two outputs |
| TeamCoordination.DepsAmong | agents/outer_team_agents.py:115-129 | the dependencies found among the first n teams number at most n |
| TeamCoordination.DepsAmongStep | agents/outer_team_agents.py:115-129 | one more candidate adds itself exactly when it is another team with enough overlap |
| TeamCoordination.DependencyMap | agents/outer_team_agents.py:107-132 | every input team gets exactly one entry, in input order |
| TeamCoordination.DepsAmongMembers | agents/outer_team_agents.py:115-129 | a team is listed exactly when it is another team among the first n whose output overlaps enough |
| TeamCoordination.DependencyMapMembers | agents/outer_team_agents.py:107-132 | A lists B exactly when B is another team and their outputs share at least 2 of the 8 keywords |
| TeamCoordination.NoSelfDependency | agents/outer_team_agents.py:116 | no team lists itself |
| TeamCoordination.DependencySymmetric | agents/outer_team_agents.py:116-129 | A lists B exactly when B lists A |
| TeamCoordination.IntegrationOrderProperties | agents/outer_team_agents.py:180-193 | the order is a permutation of the dependency keys, ascending by in-degree, and keeps teams of equal in-degree in input order |
| TeamCoordination.IntegrationOrder | agents/outer_team_agents.py:180-193 | one position per team of the dependency map |
| TeamCoordination.TeamCoordinator.constructor | agents/outer_team_agents.py:65-105 | a coordinator with no dependencies and no plans |
| TeamCoordination.TeamCoordinator.ListDependencies | agents/outer_team_agents.py:115-129 | the inner loop lists exactly the dependencies of one team |
| TeamCoordination.TeamCoordinator.AnalyzeTeamDependencies | agents/outer_team_agents.py:107-132 | returns and stores the dependency map; the plans are unchanged |
| TeamCoordination.TeamCoordinator.CalculateIntegrationOrder | agents/outer_team_agents.py:180-193 | the in-degree loop and the sort give the integration order |
| TeamCoordination.TeamCoordinator.CreateIntegrationPlan | agents/outer_team_agents.py:134-178 | the plan holds the dependency map and its integration order, stored under the timestamp |
| TeamCoordination.PlanOrderIsPermutation | agents/outer_team_agents.py:164-166 | the plan's order names every input team exactly once |
| ResourceManagement.PriorityAnalysis | agents/outer_team_agents.py:256-260 | each team with its priority, 'medium' when missing, in order |
| ResourceManagement.PersonPairs | agents/outer_team_agents.py:263-266 | one (person, team) pair per person requested, in order |
| ResourceManagement.TeamsFor | agents/outer_team_agents.py:263-266 | the teams requesting a person are at most all requests |
| ResourceManagement.AddRequestLookup | agents/outer_team_agents.py:263-266 | recording a request appends the team to that person's list only |
| ResourceManagement.AddRequestUnique | agents/outer_team_agents.py:263-266 | recording a request keeps every person listed once |
| ResourceManagement.PersonnelIndexLookup | agents/outer_team_agents.py:262-266 | the personnel index lists each person once, with every requesting team in order |
| ResourceManagement.ConflictsMembers | agents/outer_team_agents.py:268-275 | a conflict is reported exactly for an indexed person with more than one request |
| ResourceManagement.TeamsForPersonPairs | agents/outer_team_agents.py:263-266 | one team's requests add its multiplicity of the person to that person's count |
| ResourceManagement.TeamsForOccurrences | agents/outer_team_agents.py:262-266 | a person's listed teams number the person's occurrences over all requests |
| ResourceManagement.ConflictIffRequestedTwice | agents/outer_team_agents.py:251-277 | a personnel conflict is reported for a person exactly when they appear in more than one request entry, naming every requesting team |
| ResourceManagement.TotalsOfConcatenation | agents/outer_team_agents.py:253-259 | total budget and time are sums of the per-team values, a missing value counting 0 |
| ResourceManagement.PriorityWeight | agents/outer_team_agents.py:298-303 | high weighs 3, low 1, and every other or missing priority 2 |
| ResourceManagement.Greedy | agents/outer_team_agents.py:305-330 | one allocation line per request |
| ResourceManagement.GreedyTotals | agents/outer_team_agents.py:305-330 | the totals are the sums over approved lines only, each line repeats its request, and with non-negative caps the totals stay within the caps |
| ResourceManagement.GreedyPrefix | agents/outer_team_agents.py:308-330 | a request's line depends only on the requests before it |
| ResourceManagement.ApprovedIffFits | agents/outer_team_agents.py:314-322 | a request is APPROVED exactly when the running totals plus its budget and time stay within both caps |
| ResourceManagement.AllocationOrder | agents/outer_team_agents.py:298-303 | requests are processed by non-increasing priority weight, as a permutation that keeps ties in input order |
| ResourceManagement.LaterLowPriorityCanBeApproved | agents/outer_team_agents.py:305-330 | a later low-priority request can be approved after an earlier high-priority one was refused |
| ResourceManagement.AnalysisStep | agents/outer_team_agents.py:251-266 | one more request adds its budget, time, priority and persons to the running analysis |
| ResourceManagement.Analysis | agents/outer_team_agents.py:241-277 | the priority analysis names every requesting team in order, and a conflict is reported only for a person requested by more than one team entry |
| ResourceManagement.IndexStep | agents/outer_team_agents.py:263-266 | one more person extends the index by that single request |
| ResourceManagement.ResourceManager.constructor | agents/outer_team_agents.py:199-239 | a manager with an empty coordination history |
| ResourceManagement.ResourceManager.AnalyzeResourceRequirements | agents/outer_team_agents.py:241-277 | the loops compute the totals, personnel index, priorities and conflicts of the analysis |
| ResourceManagement.ResourceManager.CreateAllocationPlan | agents/outer_team_agents.py:279-344 | the loop over the priority-sorted requests computes the greedy plan |
| ResourceManagement.AllocationPlanOf | agents/outer_team_agents.py:279-344 | one allocation line per request, with the given budget and timeline as the caps, 0 when missing |
| QualityAssurance.Completeness | agents/outer_team_agents.py:444 | completeness is min(100, length/10) |
| QualityAssurance.Scores | agents/outer_team_agents.py:441-456 | one score per criterion, in order |
| QualityAssurance.IssuesPairRecommendations | agents/outer_team_agents.py:454-461 | every low score gives one issue and one recommendation, at most one per criterion |
| QualityAssurance.AssessmentOf | agents/outer_team_agents.py:425-468 | the assessment carries the team and time, one score per criterion, and as many recommendations as issues, at most one per criterion |
| QualityAssurance.WeightsSumToOne | agents/outer_team_agents.py:394-420 | the five weights 0.25/0.25/0.20/0.15/0.15 sum to 1 |
| QualityAssurance.StandardAssessment | agents/outer_team_agents.py:441-468 | the overall score is 0.25 times completeness plus 64.45, and completeness below 80 is the only issue and the only recommendation |
| QualityAssurance.OverallScoreRange | agents/outer_team_agents.py:441-468 | the overall score lies in [64.45, 89.45], reaches 80 exactly for outputs of at least 622 characters, and an issue is raised exactly below 800 characters |
| QualityAssurance.StatusOf | agents/outer_team_agents.py:499 | PASS exactly for a score of at least 80 |
| QualityAssurance.CountPassing | agents/outer_team_agents.py:508 | the passing teams are at most all teams |
| QualityAssurance.CountFailing | agents/outer_team_agents.py:509 | the failing teams are at most all teams |
| QualityAssurance.QualityReportProperties | agents/outer_team_agents.py:473-525 | each team passes or needs improvement by its score; the average score is the mean of the overall scores, 0 without teams; the critical issues are the first min(10, n) issues in team order; the recommendations number min(10, d) for d distinct ones, are distinct, drawn from the assessments and complete when d is at most ten |
| QualityAssurance.QualityReportOf | agents/outer_team_agents.py:473-525 | one line per assessed team, passing and failing teams adding up to all teams, and at most ten critical issues and ten recommendations |
| QualityAssurance.PassingPlusFailing | agents/outer_team_agents.py:508-509 | passing and failing teams add up to all teams |
| QualityAssurance.QualityReportAsWrittenAlwaysFails | agents/outer_team_agents.py:516 | the report as written raises a TypeError on every input |
| QualityAssurance.CreateQualityReportAsWritten | agents/outer_team_agents.py:473-525 | what it raises is a TypeError, and a report it returned would carry the same team lines as the corrected one |
| QualityAssurance.QualityAssuranceAgent.constructor | agents/outer_team_agents.py:350-390 | an agent with no criteria and no assessments |
| QualityAssurance.QualityAssuranceAgent.EstablishQualityCriteria | agents/outer_team_agents.py:392-423 | the five fixed criteria become the stored criteria |
| QualityAssurance.QualityAssuranceAgent.ScoreCriteria | agents/outer_team_agents.py:441-461 | the loop computes the scores, issues and recommendations of every criterion |
| QualityAssurance.QualityAssuranceAgent.WeightedTotal | agents/outer_team_agents.py:464-468 | the loop computes the weighted sum of the scores |
| QualityAssurance.QualityAssuranceAgent.AssessTeamOutput | agents/outer_team_agents.py:425-471 | establishes the criteria on first use, returns the standard assessment with overall score 0.25·completeness + 64.45, and stores it under (team, timestamp) |
| QualityAssurance.QualityAssuranceAgent.CreateQualityReport | agents/outer_team_agents.py:473-525 | the report computed with the unique recommendations cut to ten |
| QualityAssurance.StoreAssessmentsLookup | som_framework/outer_teams.py:89-96 | storing the run's assessments adds exactly the keys (team, time) of the assessed teams, keeps every other entry and, with distinct teams, stores each team's own assessment |
| UserProxy.ApprovalWordsDistinct | agents/user_proxy_integration.py:120-124 | no approval word is a rejection word and none starts with "modify" |
| UserProxy.ClassifyApproval | agents/user_proxy_integration.py:100-133 | the feedback is the raw reply; approval is refused exactly for a rejection word or a "modify" prefix of the trimmed lower-cased reply, and after "modify" the override is the raw reply from index 6, trimmed |
| UserProxy.ModifyCutKeepsRest | agents/user_proxy_integration.py:124-130 | "modify" followed by text refuses approval and keeps the trimmed rest as the override |
| UserProxy.NormalizedModifyPrefix | agents/user_proxy_integration.py:118-124 | a reply starting with "modify" still starts with it once normalised |
| UserProxy.LeadingSpacesShiftTheCut | agents/user_proxy_integration.py:124-130 | two leading spaces move the cut two characters into the reply, so the override is the stripped text from the fifth character of the unpadded reply on: the first four letters of "modify" are cut and its last two kept |
| UserProxy.LeadingSpacesIgnored | agents/user_proxy_integration.py:118 | leading spaces do not change the normalised reply |
| UserProxy.NormalizedNoUpper | agents/user_proxy_integration.py:118 | the normalised reply has no upper-case letter |
| UserProxy.NormalizedIdempotent | agents/user_proxy_integration.py:118 | normalising a normalised reply changes nothing |
| UserProxy.EmptyReplyApproves | agents/user_proxy_integration.py:131-133 | the empty reply is an implicit approval |
| UserProxy.NormalizedPadded | agents/user_proxy_integration.py:118 | surrounding spaces do not change the normalised reply |
| UserProxy.PaddingKeepsDecision | agents/user_proxy_integration.py:118-133 | surrounding spaces do not change the decision |
| UserProxy.CapitalisedNoRejects | agents/user_proxy_integration.py:118-123 | "No" rejects, because the reply is lower-cased first |
| UserProxy.ClassifyContext | agents/user_proxy_integration.py:148-156 | always approves; the added context is the raw reply unless it normalises to "none" |
| UserProxy.RemoveAll | agents/user_proxy_integration.py:187-190 | removes every copy of the text and keeps the other entries with their counts |
| UserProxy.RemoveAbsent | agents/user_proxy_integration.py:187-190 | removing absent text leaves the list unchanged |
| UserProxy.SplitConstraints | agents/user_proxy_integration.py:193-198 | one constraint per ';'-field of the text, in order: there are fields without ';' that join back with ';' into the text, as many as the separators plus one, and each constraint is its field stripped |
| UserProxy.ClassifyConstraints | agents/user_proxy_integration.py:158-198 | always approves; "accept" keeps the proposal, "add:" appends the stripped rest from index 4, "remove:" deletes every entry equal to the stripped rest from index 7, "replace:" gives the split of the stripped rest from index 8, and any other reply the split of the reply itself |
| UserProxy.FallbackNeverEmpty | agents/user_proxy_integration.py:195-198 | an empty reply is no command and yields the single empty constraint |
| UserProxy.ValidateTeamReply | agents/user_proxy_integration.py:218-243 | approves exactly when the trimmed lower-cased reply is one of approve/approved/good/ok; the feedback is the raw reply |
| UserProxy.ValidateFinalReply | agents/user_proxy_integration.py:370-401 | approves exactly when approve/accept/good/ready occurs anywhere in the lower-cased reply |
| UserProxy.TeamWordHoldsFinalWord | agents/user_proxy_integration.py:240 | text containing approve, approved or good contains a final approval word |
| UserProxy.TeamApprovalImpliesFinal | agents/user_proxy_integration.py:240-243 | every reply that approves a team output, except "ok", also approves the final output |
| UserProxy.OkApprovesOnlyTeamOutput | agents/user_proxy_integration.py:240-243 | "ok" approves a team output but not the final output |
| UserProxy.NotGoodIsNoTeamWord | agents/user_proxy_integration.py:240 | "not good" is not a team approval word |
| UserProxy.NotGoodPassesFinal | agents/user_proxy_integration.py:398-399 | "not good" approves the final output, because it contains "good" |
| UserProxy.NotGoodFailsTeam | agents/user_proxy_integration.py:240-243 | "not good" rejects a team output |
| UserProxy.EnhancedUserProxy.constructor | agents/user_proxy_integration.py:53-66 | a proxy with its name, role and context and an empty history |
| UserProxy.EnhancedUserProxy.GetHumanInput | agents/user_proxy_integration.py:68-98 | returns the reply and appends exactly one history entry |
| UserProxy.EnhancedUserProxy.RequestApproval | agents/user_proxy_integration.py:100-133 | classifies the reply and logs exactly one intervention |
| UserProxy.EnhancedUserProxy.RequestContextAddition | agents/user_proxy_integration.py:135-156 | classifies the reply as context and logs exactly one intervention |
| UserProxy.EnhancedUserProxy.RequestConstraintSetting | agents/user_proxy_integration.py:158-198 | classifies the reply as constraints and logs exactly one intervention |
| UserProxy.InnerTeamUserProxy.constructor | agents/user_proxy_integration.py:208-216 | the team expert proxy with its derived name, role and context |
| UserProxy.InnerTeamUserProxy.ValidateTeamOutput | agents/user_proxy_integration.py:218-243 | validates by exact approval word and logs exactly one intervention |
| UserProxy.OuterTeamUserProxy.constructor | agents/user_proxy_integration.py:286-294 | the project director proxy with empty histories |
| UserProxy.OuterTeamUserProxy.CoordinateTeams | agents/user_proxy_integration.py:296-332 | always approves, appends one coordination record and one intervention |
| UserProxy.OuterTeamUserProxy.AllocateResources | agents/user_proxy_integration.py:334-368 | always approves, appends one allocation decision and one intervention |
| UserProxy.OuterTeamUserProxy.ValidateFinalOutput | agents/user_proxy_integration.py:370-401 | validates by contained approval word and logs exactly one intervention |
| UserProxy.EntriesOf | agents/user_proxy_integration.py:452-458 | one timeline entry per history record, in order |
| UserProxy.RawTimeline | agents/user_proxy_integration.py:445-458 | the inner timeline has one entry per inner intervention |
| UserProxy.TeamCounts | agents/user_proxy_integration.py:446-449 | each inner team with the length of its history, in order |
| UserProxy.SummaryProperties | agents/user_proxy_integration.py:434-479 | the total is the sum of all history lengths, the timeline has exactly that many entries, is sorted by timestamp, and is a stable permutation of the collected entries |
| UserProxy.HistoriesOf | agents/user_proxy_integration.py:445-447 | each inner proxy's history by team, in order |
| UserProxy.AppendEntries | agents/user_proxy_integration.py:452-458 | the loop appends one entry per record |
| UserProxy.CollectStep | agents/user_proxy_integration.py:446-458 | one more team adds its count and its entries |
| UserProxy.SummaryAssembled | agents/user_proxy_integration.py:434-479 | the collected counts and the sorted timeline make up the summary |
| UserProxy.CollectInner | agents/user_proxy_integration.py:445-458 | the loop over inner proxies collects the total, counts and timeline |
| UserProxy.GetInterventionSummary | agents/user_proxy_integration.py:434-479 | the summary of the present proxies' histories, an absent group counting none |
| InnerTeams.TemplateFor | som_framework/inner_teams.py:91-103 | each of the three known teams selects its own generator, and every other name the generic one |
| InnerTeams.TeamOutput | som_framework/inner_teams.py:105-309 | the output starts with its template's title and contains the requirements |
| InnerTeams.GenericOutputNamesMembers | som_framework/inner_teams.py:285-309 | the generic output names every agent |
| InnerTeams.InnerTeamOrchestrator.constructor | som_framework/inner_teams.py:28-32 | an orchestrator with its teams and empty logs |
| InnerTeams.InnerTeamOrchestrator.ExecuteTeamWorkflow | som_framework/inner_teams.py:34-89 | on success returns the output and appends exactly one successful record with the agent count and result length; on failure returns the error text and appends nothing |
| InnerTeams.ErrorText | som_framework/inner_teams.py:89 | the error text starts with "Error in " and ends with the exception's message |
| InnerTeams.InnerTeamOrchestrator.ResetExecutionHistory | som_framework/inner_teams.py:357-360 | empties the history and the workflow map |
| InnerTeams.InnerTeamOrchestrator.GetTeamPerformanceMetrics | som_framework/inner_teams.py:311-355 | the loops compute the metrics of the execution log |
| InnerTeams.TeamNames | som_framework/inner_teams.py:327-328 | each record's team, in order |
| InnerTeams.SuccessCount | som_framework/inner_teams.py:315 | the successful runs are at most all runs |
| InnerTeams.Successes | som_framework/inner_teams.py:341-342 | a team's successes are at most its runs |
| InnerTeams.ExecutionsPositive | som_framework/inner_teams.py:327-336 | a team appears in the log exactly when it has a run |
| InnerTeams.BreakdownFor | som_framework/inner_teams.py:340-343 | a logged team has runs and a success rate in [0, 1] |
| InnerTeams.BreakdownOf | som_framework/inner_teams.py:326-343 | one row per team of the log, in order of first run, each holding that team's breakdown |
| InnerTeams.MetricsOf | som_framework/inner_teams.py:311-355 | the total is the number of runs, the successes are at most the runs, the timeline has one entry per run, and an empty log has zero average and no breakdown |
| InnerTeams.SumCountsStep | som_framework/inner_teams.py:327-336 | one more run adds one to the count of its team only |
| InnerTeams.CoverStepKnown | som_framework/inner_teams.py:328-336 | a run of a known team adds no row and one run |
| InnerTeams.CoverStepNew | som_framework/inner_teams.py:328-336 | a run of a new team adds its row at the end |
| InnerTeams.CountsCoverLog | som_framework/inner_teams.py:327-336 | the per-team counts add up to the log length |
| InnerTeams.SumExecutionsRows | som_framework/inner_teams.py:336-343 | rows carrying each team's runs sum to the count over their teams |
| InnerTeams.BreakdownCoversLog | som_framework/inner_teams.py:311-355 | the per-team execution counts sum to the total, and every success rate is a proportion |
| InnerTeams.SuccessfulRows | som_framework/inner_teams.py:340-343 | with every run successful, each team's success rate is 1 |
| InnerTeams.SuccessfulLogRates | som_framework/inner_teams.py:73-89 | as the orchestrator logs only successes, every run counts as successful and each rate is 1 |
| InnerTeams.AllSucceeded | som_framework/inner_teams.py:315 | with every run successful, the success count is the log length |
| InnerTeams.AllSucceededPerTeam | som_framework/inner_teams.py:341-342 | with every run successful, a team's successes equal its runs |
| InnerTeams.SnocCounts | som_framework/inner_teams.py:327-337 | one more run adds to its own team's runs and agents only |
| InnerTeams.BumpKeys | som_framework/inner_teams.py:328-334 | storing the run's team keeps the rows in order of first run |
| InnerTeams.BumpOwn | som_framework/inner_teams.py:336-337 | the bumped row holds the team's new runs and agents |
| InnerTeams.CurrentEntry | som_framework/inner_teams.py:328-337 | a team's row, or zeros when absent, holds its runs and agents |
| InnerTeams.NotYetRun | som_framework/inner_teams.py:328-334 | a team without a row has no runs |
| InnerTeams.BumpOther | som_framework/inner_teams.py:336-337 | other teams' rows still agree after one more run |
| InnerTeams.BumpAgrees | som_framework/inner_teams.py:327-337 | one loop step keeps every row in agreement with the log |
| InnerTeams.CountByTeam | som_framework/inner_teams.py:327-337 | the first loop counts each team's runs and agents, in order of first run |
| InnerTeams.CountSuccesses | som_framework/inner_teams.py:341-342 | the inner loop counts one team's successful runs |
| InnerTeams.RatesByTeam | som_framework/inner_teams.py:340-343 | the second loop gives each team its success rate and average agents |
| OuterTeams.RequestTables | som_framework/outer_teams.py:128-169 | the bases 75000/100000/200000 and 4/6/10 weeks, the priorities high/medium/high and the personnel lists; every other team gets 50000, 4 weeks, medium and Team Lead plus Specialist |
| OuterTeams.ComplexityFactor | som_framework/outer_teams.py:148 | the factor is min(2.0, length/1000) |
| OuterTeams.Scaled | som_framework/outer_teams.py:151-152 | the product of base and factor rounded down, which lies within one below the exact product |
| OuterTeams.GenerateResourceRequests | som_framework/outer_teams.py:124-158 | one request per input team, in order, derived from that team's output |
| OuterTeams.ScaledBounds | som_framework/outer_teams.py:151-152 | a scaled base is at most twice the base, and exactly twice it at factor 2 |
| OuterTeams.RequestBounds | som_framework/outer_teams.py:146-157 | budget and time lie between 0 and twice their bases, reach twice the bases from 2000 characters on, and carry the table's priority and personnel |
| OuterTeams.ScaledMonotone | som_framework/outer_teams.py:151-152 | a larger factor never gives less |
| OuterTeams.RequestMonotone | som_framework/outer_teams.py:146-157 | a longer output never asks for less budget or time |
| OuterTeams.Amount | agents/outer_team_agents.py:327 | a rendered amount has no '$' |
| OuterTeams.PlanBudgetTotal | som_framework/outer_teams.py:202-206 | raises exactly when some '$' piece is a bare number; otherwise the sum is 0 |
| OuterTeams.LetterNotBare | som_framework/outer_teams.py:205 | a piece with a letter is not a bare number |
| OuterTeams.WordedFree | som_framework/outer_teams.py:204-205 | a '$'-free text with a letter splits into worded pieces |
| OuterTeams.WordedPrepend | som_framework/outer_teams.py:204-205 | '$'-free text before a worded text keeps it worded |
| OuterTeams.WordedPiece | som_framework/outer_teams.py:204-205 | a worded piece before a '$' keeps the text worded |
| OuterTeams.UpperDollarFree | agents/outer_team_agents.py:325 | upper-casing adds no '$' |
| OuterTeams.TrailerWorded | agents/outer_team_agents.py:332-342 | the plan's closing text is worded |
| OuterTeams.LineTailFree | agents/outer_team_agents.py:327-330 | the text after a line's budget has no '$' |
| OuterTeams.LineHeadWorded | agents/outer_team_agents.py:324-327 | a line's head is '$'-free and has letters |
| OuterTeams.LinesWorded | agents/outer_team_agents.py:324-342 | the allocation lines and trailer are worded |
| OuterTeams.AnalysisTailFree | agents/outer_team_agents.py:290-295 | the analysis figures after the available budget have no '$' |
| OuterTeams.HeadWorded | agents/outer_team_agents.py:284-289 | the plan's head is '$'-free and has letters |
| OuterTeams.AvailableBudgetWorded | agents/outer_team_agents.py:289-290 | the requested total and its label have no '$' and have letters |
| OuterTeams.PlanTextBudgetIsZero | som_framework/outer_teams.py:202-206 | the "$" budget sum over an allocation plan's text is always 0 |
| OuterTeams.WordedBudgetZero | som_framework/outer_teams.py:202-206 | a text whose every '$' piece has a letter sums to 0 |
| OuterTeams.KeywordRecommendationsMembers | som_framework/outer_teams.py:178-199 | a rule's recommendation appears exactly when both its keywords occur, in the rules' order |
| OuterTeams.KeywordRecommendations | som_framework/outer_teams.py:178-199 | at most one recommendation per rule |
| OuterTeams.LowerJoinContains | som_framework/outer_teams.py:178-181 | each lower-cased output occurs in the lower-cased join of all outputs |
| OuterTeams.RuleFiresFromOutputs | som_framework/outer_teams.py:178-199 | a rule fires when its keywords occur in any outputs, the same or different |
| OuterTeams.LowQualityTeams | som_framework/outer_teams.py:214-218 | the low-quality teams are at most all assessed teams |
| OuterTeams.LowQualityTeamsMembers | som_framework/outer_teams.py:214-218 | a team is named exactly when its score is below 80 |
| OuterTeams.ExceedsBudget | som_framework/outer_teams.py:208 | raises the TypeError of comparing an int with a str exactly when the budget is given as text; otherwise tells whether the total exceeds the given budget, or 500000 when none is given |
| OuterTeams.FinalRecommendations | som_framework/outer_teams.py:171-243 | raises exactly when the budget sum or the comparison raises; otherwise at least five recommendations ending with the four integration ones |
| OuterTeams.RecommendationsOfZeroTotal | som_framework/outer_teams.py:171-243 | for any plan text whose `$`-pieces sum to 0: raises exactly for a text budget; otherwise the keyword rules in order, phased only for a negative budget, the low-quality line exactly when a score is below 80, then crisis or milestones, then the four fixed ones |
| OuterTeams.RecommendationRules | som_framework/outer_teams.py:171-243 | the same for the text of a real allocation plan, whose budget sum is always 0 |
| OuterTeams.AddNewProperties | som_framework/outer_teams.py:249-252 | completed teams keep their order, gain exactly the new teams and never hold duplicates |
| OuterTeams.AddNew | som_framework/outer_teams.py:249-252 | the completed teams grow by at most the number of new teams |
| OuterTeams.StoreAgrees | som_framework/outer_teams.py:261-268 | storing a status keeps PASS exactly for scores of at least 80 |
| OuterTeams.StoreStatusesAgree | som_framework/outer_teams.py:261-268 | every stored status is PASS exactly for a score of at least 80 |
| OuterTeams.StoreStatusesOthers | som_framework/outer_teams.py:261-268 | teams not assessed keep their status |
| OuterTeams.StoreStatusesAssessed | som_framework/outer_teams.py:261-268 | every assessed team gets its new status |
| OuterTeams.MeanScore | som_framework/outer_teams.py:281-285 | the mean of no scores is 0 |
| OuterTeams.SumStatusScoresBounds | som_framework/outer_teams.py:281-285 | bounded scores bound their sum |
| OuterTeams.MeanScoreBounds | som_framework/outer_teams.py:281-285 | the mean of bounded scores is within the bounds |
| OuterTeams.AssessmentsOf | som_framework/outer_teams.py:89-96 | one assessment per team |
| OuterTeams.AssessmentsOfEntries | som_framework/outer_teams.py:89-96 | each team's standard assessment, in order |
| OuterTeams.AssessmentsOfKeys | som_framework/outer_teams.py:89-96 | the assessments are keyed by exactly the input teams |
| OuterTeams.AssessmentsOfScores | som_framework/outer_teams.py:89-96 | every overall score lies in [64.45, 89.45] |
| OuterTeams.RequestsDollarFree | som_framework/outer_teams.py:124-158 | '$'-free team names give '$'-free requests |
| OuterTeams.PlanLinesDollarFree | som_framework/outer_teams.py:68-73 | '$'-free team names give '$'-free allocation lines |
| OuterTeams.CoordinationOutcomeFails | som_framework/outer_teams.py:30-122 | with the corrected report, coordination fails exactly for a text budget, and otherwise ends with at least five recommendations |
| OuterTeams.CoordinationOutcomeRecords | som_framework/outer_teams.py:35-81 | a successful coordination records the four steps in order, one approval, an order over every team and one allocation line per team |
| OuterTeams.CoordinationOutcomeAssessments | som_framework/outer_teams.py:89-103 | the assessments cover exactly the input teams with scores in [64.45, 89.45] |
| OuterTeams.OuterTeamCoordinator.constructor | som_framework/outer_teams.py:18-28 | a coordinator with empty history and state |
| OuterTeams.OuterTeamCoordinator.AssessAll | som_framework/outer_teams.py:89-96 | the loop assesses every team output in order and leaves each assessment stored under the team and the run's time, with the standard criteria once a team was assessed |
| OuterTeams.OuterTeamCoordinator.AppendNewTeams | som_framework/outer_teams.py:248-252 | the loop adds each team not yet completed |
| OuterTeams.OuterTeamCoordinator.RecordStatuses | som_framework/outer_teams.py:261-268 | the loop stores every assessed team's status |
| OuterTeams.OuterTeamCoordinator.UpdateProjectState | som_framework/outer_teams.py:245-268 | active teams become the current keys, completed teams gain the new ones, the allocation is recorded and the statuses are stored |
| OuterTeams.OuterTeamCoordinator.StatusSummary | som_framework/outer_teams.py:270-289 | the counts, the last coordination time when there is one, ALLOCATED exactly when an allocation is recorded, and overall quality the mean of the stored scores: their sum over their number, 0 without statuses |
| OuterTeams.OuterTeamCoordinator.ResetCoordinationState | som_framework/outer_teams.py:334-343 | empties the history and all project state |
| OuterTeams.OuterTeamCoordinator.RunPlanningSteps | som_framework/outer_teams.py:45-82 | steps 1 and 2: the integration plan with its approval and the allocation plan over the generated requests; the team coordinator holds the dependency map and the plan under the time, and the director's proxy has logged the coordination decision, the allocation decision and both exchanges |
| OuterTeams.OuterTeamCoordinator.PlanIntegration | som_framework/outer_teams.py:45-61 | step 1: the plan over the outputs is stored under the time, approved, and logged once in the coordination log and once in the intervention history |
| OuterTeams.OuterTeamCoordinator.PlanAllocation | som_framework/outer_teams.py:63-81 | step 2: the allocation plan over the generated requests and the default resources when none are given, approved, and logged once in the allocation log and once in the intervention history |
| OuterTeams.OuterTeamCoordinator.RunCoordinationSteps | som_framework/outer_teams.py:45-104 | steps 1 to 3 with the corrected report: everything steps 1 and 2 log, then every team's assessment stored with the quality-assurance agent and the report over the assessments |
| OuterTeams.OuterTeamCoordinator.FinishCoordination | som_framework/outer_teams.py:106-114 | step 4 completes the coordination outcome |
| OuterTeams.OuterTeamCoordinator.CoordinateProjectExecution | som_framework/outer_teams.py:30-122 | with the corrected report, the outcome of the four steps, with the history appended and the project state updated only on success |
| OuterTeams.OuterTeamCoordinator.RecordOutcome | som_framework/outer_teams.py:116-120 | a successful outcome is appended to the history and updates the state; a failure changes neither |
| OuterTeams.OuterTeamCoordinator.CoordinateProjectExecutionAsWritten | som_framework/outer_teams.py:30-104 | as written, steps 1 and 2 run and log their decisions, step 3 stores every assessment, and then the report raises TypeError "'set' object is not subscriptable"; nothing is appended to the history |
| Coordination.TeamRequirementChoice | som_framework/coordination.py:99-105 | each of the three known teams gets its own requirement with the project context; any other team gets str(requirements) |
| Coordination.InnerResultsOf | som_framework/coordination.py:94-114 | one result per orchestrator team |
| Coordination.InnerLogOf | som_framework/coordination.py:94-114 | at most one log record per team |
| Coordination.InnerResultsEntries | som_framework/coordination.py:102-112 | each team contributes its own result in its own place |
| Coordination.InnerResultsKeys | som_framework/coordination.py:94-114 | the inner phase yields exactly the orchestrator's team keys, in order |
| Coordination.InnerLogWithoutFailures | som_framework/coordination.py:102-112 | without failures each team is logged once, in order, with its requirement, agent count and result length |
| Coordination.Snippet | som_framework/coordination.py:238 | the text is cut to the limit, followed by "..." exactly when it is longer |
| Coordination.OneDecimal | som_framework/coordination.py:272 | a score is rendered with one digit after the point, and only digits before it when it is not negative |
| Coordination.Verdict | som_framework/coordination.py:271 | APPROVED exactly for a score of at least 80 |
| Coordination.Sections | som_framework/coordination.py:205-309 | the deliverable has its eight sections |
| Coordination.ConcatContains | som_framework/coordination.py:205-309 | what a section contains, the deliverable contains |
| Coordination.ContributionsContain | som_framework/coordination.py:233-239 | every team's contribution block is present |
| Coordination.NumberedContain | som_framework/coordination.py:258-259 | the i-th recommendation appears numbered i+1 |
| Coordination.QualityLinesContain | som_framework/coordination.py:269-272 | every assessed team has its quality line |
| Coordination.DeliverableShowsContributions | som_framework/coordination.py:233-239 | the deliverable shows each team's output cut to 1000 characters |
| Coordination.DeliverableNumbersRecommendations | som_framework/coordination.py:254-259 | the deliverable numbers the first ten recommendations from 1 |
| Coordination.DeliverableMarksQuality | som_framework/coordination.py:262-272 | the deliverable shows each assessed team's score, APPROVED exactly from 80 |
| Coordination.ApprovedIffLongEnough | som_framework/coordination.py:269-272 | after a coordination run a team is marked APPROVED exactly when its output has at least 622 characters |
| Coordination.QualityScores | som_framework/coordination.py:330-334 | each assessed team with its overall score, in order |
| Coordination.AnalyzeWorkflowPerformance | som_framework/coordination.py:311-353 | a KeyError with the key 'end_time' exactly when the end time is unset; otherwise the duration, the counts, each assessed team's overall score, and efficiency figures exactly when some team ran: time per team, the mean quality score or 0 without scores, an intervention rate of 0 and characters per second or 0 |
| Coordination.SumScoresBounds | som_framework/coordination.py:340-343 | bounded scores bound their sum |
| Coordination.AverageQualityBounds | som_framework/coordination.py:340-343 | after a coordination run the average quality score lies in [64.45, 89.45] |
| Coordination.WorkflowAverageQuality | som_framework/coordination.py:337-343 | when the outer coordination assessed the teams it was given, the efficiency figures' average quality score lies in [64.45, 89.45] |
| Coordination.Accumulate | som_framework/coordination.py:372-387 | the totals grow by the run's figures and every running average is its total over the number of projects |
| Coordination.InnerStep | som_framework/coordination.py:102-112 | one more team extends the results and the log by its own run |
| Coordination.Failed | som_framework/coordination.py:83-87 | the except branch sets the error to the exception's text as str(e) renders it, success false and the end time, keeping everything else |
| Coordination.LaterPhasesAsWritten | som_framework/coordination.py:62-87 | as written, phase 4 reads the unset end time, so the run fails with KeyError 'end_time' |
| Coordination.LaterPhases | som_framework/coordination.py:62-79 | with the end time set first, the run succeeds with the deliverable and metrics over it |
| Coordination.WorkflowOutcome | som_framework/coordination.py:31-92 | a run succeeds exactly when the outer coordination does, always has an end time, carries an error exactly when it fails, and that error is the text of the outer exception; its metrics report coordination_success false |
| Coordination.WorkflowSucceedsIff | som_framework/coordination.py:31-92 | with the corrected report, a run succeeds exactly when the budget is not given as text, and otherwise fails with the text of the comparison TypeError |
| Coordination.SoMCoordinator.constructor | som_framework/coordination.py:19-29 | a coordinator with zero counters, no performance totals and an empty history |
| Coordination.SoMCoordinator.ExecuteInnerTeamsPhase | som_framework/coordination.py:94-114 | the loop runs each team on its requirement, logging each successful run |
| Coordination.SoMCoordinator.CreateFinalDeliverable | som_framework/coordination.py:205-309 | the deliverable is its sections in order |
| Coordination.SoMCoordinator.WriteContributions | som_framework/coordination.py:233-239 | the loop writes every contribution block |
| Coordination.SoMCoordinator.WriteNumbered | som_framework/coordination.py:258-259 | the loop numbers the recommendations from 1 |
| Coordination.SoMCoordinator.WriteQualityLines | som_framework/coordination.py:269-272 | the loop writes each team's quality line |
| Coordination.SoMCoordinator.UpdateSystemState | som_framework/coordination.py:355-387 | counts the run and a success, accumulates totals from zero and keeps every average equal to its total over the projects |
| Coordination.SoMCoordinator.UpdateSystemStateAsWritten | som_framework/coordination.py:355-387 | as written, the counters rise, then a KeyError exactly when no totals were recorded |
| Coordination.SoMCoordinator.RunTeamPhases | som_framework/coordination.py:48-60 | phases 1 and 2: the inner results and the outer coordination over them |
| Coordination.SoMCoordinator.Coordinate | som_framework/coordination.py:53-60 | phase 2: the corrected outer coordination over the inner results, recorded in the outer coordinator |
| Coordination.SoMCoordinator.RunTeamPhasesAsWritten | som_framework/coordination.py:48-60 | as written, phase 1 gives the inner results and appends their log, and phase 2 raises the TypeError of the report; the orchestrator's own fields are unchanged |
| Coordination.SoMCoordinator.CoordinateAsWritten | som_framework/coordination.py:53-60 | as written, the outer coordination over any inner results raises the TypeError of the report, after steps 1 and 2 were logged by the team coordinator and the director's proxy and step 3's assessments were stored; the orchestrator and the workflow coordinator's own fields are unchanged |
| Coordination.SoMCoordinator.RecordWorkflow | som_framework/coordination.py:75-92 | every run joins the history, and only a successful one updates the counters |
| Coordination.SoMCoordinator.ExecuteCompleteSomWorkflow | som_framework/coordination.py:31-92 | with the end time set first, the run's result, the inner log appended, the outcome recorded in the outer coordinator's history and project state (active and completed teams, allocation, statuses) with pending decisions and team workflows unchanged, one history entry per run, and counters that move only on success, so successes equal projects |
| Coordination.SoMCoordinator.ExecuteCompleteSomWorkflowAsWritten | som_framework/coordination.py:31-92 | as written, every run is recorded as failed with the error "'set' object is not subscriptable", the inner log is appended and no counter moves |
| Coordination.SoMCoordinator.GetSystemStatus | som_framework/coordination.py:389-403 | the counters, the history count, success rate over max(1, total) within [0, 1], both coordinators' figures and the last scenario when there is one |

## Left out

- The AutoGen base classes (`AssistantAgent`, `UserProxyAgent`, `GroupChat`) belong to a foreign library. Agents are plain records with counters and histories.
- Console input, `print` and file writes are left out. The human reply is a parameter. `json.dumps` renderings are given as strings rather than computed.
- `datetime.now()` values are opaque natural numbers passed in, and ISO strings are compared as those numbers. The wall-clock figures (duration, time per team, deliverable efficiency) are differences and quotients of those numbers.
- The template prose of generated outputs, plans, reports and the deliverable is cut to headings. The structure the rules read is kept (truncation, keywords, '$' signs and order), but the model's texts are far shorter than the source's. In the source a known team's template alone runs to between about 1650 and 2700 characters (som_framework/inner_teams.py:107-281), and the plan template to about 1400 (agents/outer_team_agents.py:138-176). Every lemma is stated for all inputs, so none depends on these lengths, but a composed run gives different length-driven results. In the source every known team's output is over 1000 characters long, so it scores 89.45, is APPROVED and is never named by "Provide additional support"; it and the plan are cut with "..." in the deliverable; and the complexity factors are near 2. In the model all of these depend on the length of the rendered requirements. The "Generated:" line of the inner templates is omitted. Amounts are rendered without the `{n:,}` thousands separators, and `f"{x:.1f}"` rounds half up rather than by binary rounding.
- Quality assessments are stored under a (team, timestamp) key instead of the string `f"{team}_{timestamp}"`.
- `generate_project_dashboard`, `generate_system_report`, the agent and proxy factories' system messages and `create_coordination_agents` produce text only and are not modelled.
- streamlit_ui.py, demo_simple.py, run_all_scenarios.py, main.py, create_github_repo.py and test_setup.py are not part of this model.
- The environment reads of config.py are parameters of `Config.LoadSettings`, given as numbers. A value that `int()` or `float()` cannot parse raises a ValueError when the class body runs; that error is not modelled.
- Coordination.AnalyzeWorkflowPerformance: durations are whole numbers, so sub-second precision is not modelled, and the `execution_time_formatted` string (coordination.py:320) is not produced.
- OuterTeams.ProjectRequirements: the budget and `timeline_weeks` under "resources" are numbers. In the source they can be any value. A text budget would raise ValueError when the plan text formats it with `:,` (agents/outer_team_agents.py:290). A text timeline would raise TypeError at the `<=` comparison (agents/outer_team_agents.py:315). Neither error is modelled. The top-level "budget" does keep the text case.
- OuterTeams.Scaled: the product is exact, so rounding down can differ by one from Python's `int()` of the double `base * factor`. For example, with base 75000 and an output of 43 characters the exact product is 3225, while the double falls just below it and Python gives 3224. Such off-by-one lengths occur for each of the bases 50000, 75000, 100000 and 200000.
- Text: `Lower`, `Strip`, `Title` and `IsDigits` handle ASCII only, where Python's `lower`, `strip`, `title` and `isdigit` follow Unicode. So non-ASCII letters keep their case and non-ASCII white space is not stripped. For example, the reply "no" followed by a no-break space (U+00A0) rejects in `request_approval` but approves in the model. "ok" followed by an ideographic space (U+3000) approves a team output in `validate_team_output` but not in the model.
- Coordination.SoMCoordinator.RunTeamPhasesAsWritten: its contract states the inner results, the inner log and the error, but not what the team coordinator, the quality-assurance agent and the director's proxy log before the error. `CoordinateAsWritten` states those; carried one level further, the proof no longer fits the resource limit.
- Coordination.SoMCoordinator.ExecuteCompleteSomWorkflowAsWritten: for the same reason, what the outer agents log before the error is stated by `CoordinateAsWritten` only.
- OuterTeams.OuterTeamCoordinator.CoordinateProjectExecution: its contract states the outcome and the coordinator's own history and project state. What the team coordinator, the quality-assurance agent and the director's proxy log is stated by the methods it calls, `RunCoordinationSteps`, `RunPlanningSteps` and `AssessAll`.
- OuterTeams.PlanBudgetTotal: the AttributeError is modelled only as an error result. No plan produced by the model can reach it (`OuterTeams.PlanTextBudgetIsZero`).
- InnerTeams.InnerTeamOrchestrator.ExecuteTeamWorkflow: an exception raised by a generator is a given failure message, since the generators themselves cannot raise in the model.

## Findings

| source | as written | input that shows it | evidently intended | confidence | as-written member | corrected member |
|---|---|---|---|---|---|---|
| agents/outer_team_agents.py:516 | `set(all_recommendations)[:10]` slices a set, which raises TypeError | any call, including one with no assessments | the first ten distinct recommendations | high, not executed | QualityAssurance.QualityReportAsWrittenAlwaysFails | QualityAssurance.QualityReportProperties |
| som_framework/coordination.py:315 | `_analyze_workflow_performance` reads `workflow_result["end_time"]`, which is first set at line 76, after the analysis | any run whose outer coordination returns | the end time set before the analysis | high, not executed | Coordination.LaterPhasesAsWritten | Coordination.LaterPhases |
| som_framework/coordination.py:364 | `system_performance` is initialised to `{}` at line 26, so the guard never fires and line 373 raises KeyError after the counters rose | the first successful run | totals initialised to zero on first use | high, not executed | Coordination.SoMCoordinator.UpdateSystemStateAsWritten | Coordination.SoMCoordinator.UpdateSystemState |
