/** The resource manager of the outer layer (agents/outer_team_agents.py,
    `ResourceManagerAgent`): it aggregates the teams' resource requests, finds
    people requested more than once, and allocates budget and time greedily in
    priority order under the available caps. */
module ResourceManagement {
  import opened Wrappers
  import opened Dict
  import opened StableSort
  import OuterAgentBase

  /** One team's request dictionary; every key may be missing. */
  datatype ResourceRequest = ResourceRequest(
    budget: Option<int>,
    timeWeeks: Option<int>,
    personnel: Option<seq<string>>,
    priority: Option<string>,
    description: Option<string>)

  function BudgetOf(r: ResourceRequest): int { r.budget.GetOr(0) }
  function TimeOf(r: ResourceRequest): int { r.timeWeeks.GetOr(0) }
  function PersonnelOf(r: ResourceRequest): seq<string> { r.personnel.GetOr([]) }
  function PriorityOf(r: ResourceRequest): string { r.priority.GetOr("medium") }

  // ---------------------------------------------------------------------
  // analyze_resource_requirements
  // ---------------------------------------------------------------------

  datatype Conflict = PersonnelConflict(resource: string, conflictingTeams: seq<string>)

  datatype ResourceAnalysis = ResourceAnalysis(
    totalBudgetRequested: int,
    totalTimeRequested: int,
    personnelRequests: seq<(string, seq<string>)>,
    priorityAnalysis: seq<(string, string)>,
    conflictAreas: seq<Conflict>)

  function TotalBudget(reqs: seq<(string, ResourceRequest)>): int {
    if reqs == [] then 0 else TotalBudget(reqs[..|reqs| - 1]) + BudgetOf(reqs[|reqs| - 1].1)
  }

  function TotalTime(reqs: seq<(string, ResourceRequest)>): int {
    if reqs == [] then 0 else TotalTime(reqs[..|reqs| - 1]) + TimeOf(reqs[|reqs| - 1].1)
  }

  /** Each team with its priority, a missing one read as "medium". */
  function PriorityAnalysis(reqs: seq<(string, ResourceRequest)>): (r: seq<(string, string)>)
    ensures |r| == |reqs|
    ensures forall k :: 0 <= k < |reqs| ==> r[k] == (reqs[k].0, PriorityOf(reqs[k].1))
  {
    seq(|reqs|, k requires 0 <= k < |reqs| => (reqs[k].0, PriorityOf(reqs[k].1)))
  }

  /** Every (person, team) request, in the order the loops visit them. */
  function PersonPairs(team: string, people: seq<string>): (r: seq<(string, string)>)
    ensures |r| == |people|
    ensures forall k :: 0 <= k < |people| ==> r[k] == (people[k], team)
  {
    seq(|people|, k requires 0 <= k < |people| => (people[k], team))
  }

  function Pairs(reqs: seq<(string, ResourceRequest)>): seq<(string, string)> {
    if reqs == [] then []
    else Pairs(reqs[..|reqs| - 1]) + PersonPairs(reqs[|reqs| - 1].0, PersonnelOf(reqs[|reqs| - 1].1))
  }

  /** The teams that requested person `p`, with repeats, in request order. */
  function TeamsFor(pairs: seq<(string, string)>, p: string): (r: seq<string>)
    ensures |r| <= |pairs|
  {
    if pairs == [] then []
    else TeamsFor(pairs[..|pairs| - 1], p) + if pairs[|pairs| - 1].0 == p then [pairs[|pairs| - 1].1] else []
  }

  /** `personnel_requests[person].append(team)`, creating the list first. */
  function AddRequest(index: seq<(string, seq<string>)>, person: string, team: string): seq<(string, seq<string>)> {
    Store(index, person, Lookup(index, person).GetOr([]) + [team])
  }

  function PersonnelIndex(pairs: seq<(string, string)>): seq<(string, seq<string>)> {
    if pairs == [] then []
    else
      var last := pairs[|pairs| - 1];
      AddRequest(PersonnelIndex(pairs[..|pairs| - 1]), last.0, last.1)
  }

  lemma {:induction false} AddRequestLookup(index: seq<(string, seq<string>)>, person: string, team: string, p: string)
    ensures Lookup(AddRequest(index, person, team), p) ==
            if p == person then Some(Lookup(index, p).GetOr([]) + [team]) else Lookup(index, p)
  {
    var teams := Lookup(index, person).GetOr([]);
    assert AddRequest(index, person, team) == Store(index, person, teams + [team]);
    StoreLookup(index, person, teams + [team], p);
  }

  lemma {:induction false} AddRequestUnique(index: seq<(string, seq<string>)>, person: string, team: string)
    requires UniqueKeys(index)
    ensures UniqueKeys(AddRequest(index, person, team))
  {
    var teams := Lookup(index, person).GetOr([]);
    assert AddRequest(index, person, team) == Store(index, person, teams + [team]);
    StoreUnique(index, person, teams + [team]);
  }

  /** The index has one entry per requested person, and that entry lists every
      team that requested the person, in order. */
  lemma {:induction false} PersonnelIndexLookup(pairs: seq<(string, string)>, p: string)
    ensures UniqueKeys(PersonnelIndex(pairs))
    ensures Lookup(PersonnelIndex(pairs), p) == if TeamsFor(pairs, p) == [] then None else Some(TeamsFor(pairs, p))
  {
    if pairs != [] {
      var init := pairs[..|pairs| - 1];
      var last := pairs[|pairs| - 1];
      var idx := PersonnelIndex(init);
      var before := TeamsFor(init, p);
      PersonnelIndexLookup(init, p);
      AddRequestLookup(idx, last.0, last.1, p);
      AddRequestUnique(idx, last.0, last.1);
      assert PersonnelIndex(pairs) == AddRequest(idx, last.0, last.1);
      if last.0 == p {
        assert TeamsFor(pairs, p) == before + [last.1];
        assert Lookup(idx, p).GetOr([]) == before;
      } else {
        assert TeamsFor(pairs, p) == before;
      }
    }
  }

  /** The entries requested by more than one team. */
  function Conflicts(index: seq<(string, seq<string>)>): seq<Conflict> {
    if index == [] then []
    else
      var last := index[|index| - 1];
      Conflicts(index[..|index| - 1]) + if |last.1| > 1 then [PersonnelConflict(last.0, last.1)] else []
  }

  lemma {:induction false} ConflictsMembers(index: seq<(string, seq<string>)>, c: Conflict)
    ensures c in Conflicts(index) <==>
            exists k :: 0 <= k < |index| && index[k] == (c.resource, c.conflictingTeams) && |index[k].1| > 1
  {
    if index != [] {
      var init := index[..|index| - 1];
      var last := index[|index| - 1];
      ConflictsMembers(init, c);
      var tail := if |last.1| > 1 then [PersonnelConflict(last.0, last.1)] else [];
      assert Conflicts(index) == Conflicts(init) + tail;
      if c in Conflicts(init) {
        var k :| 0 <= k < |init| && init[k] == (c.resource, c.conflictingTeams) && |init[k].1| > 1;
        assert index[k] == init[k];
      } else if c in tail {
        assert index[|index| - 1] == (c.resource, c.conflictingTeams);
      }
      if exists k :: 0 <= k < |index| && index[k] == (c.resource, c.conflictingTeams) && |index[k].1| > 1 {
        var k :| 0 <= k < |index| && index[k] == (c.resource, c.conflictingTeams) && |index[k].1| > 1;
        if k < |init| { assert init[k] == index[k]; }
      }
    }
  }

  /** `analyze_resource_requirements` on values: every team is prioritised,
      and a conflict is reported only for a person requested more than once. */
  function Analysis(reqs: seq<(string, ResourceRequest)>): (r: ResourceAnalysis)
    ensures Keys(r.priorityAnalysis) == Keys(reqs)
    ensures forall c :: c in r.conflictAreas ==> |c.conflictingTeams| > 1
  {
    var index := PersonnelIndex(Pairs(reqs));
    forall c | c in Conflicts(index) ensures |c.conflictingTeams| > 1 {
      ConflictsMembers(index, c);
    }
    assert Keys(PriorityAnalysis(reqs)) == Keys(reqs);
    ResourceAnalysis(TotalBudget(reqs), TotalTime(reqs), index, PriorityAnalysis(reqs), Conflicts(index))
  }

  /** How often person `p` appears over all personnel lists. */
  function Occurrences(reqs: seq<(string, ResourceRequest)>, p: string): nat {
    if reqs == [] then 0 else Occurrences(reqs[..|reqs| - 1], p) + multiset(PersonnelOf(reqs[|reqs| - 1].1))[p]
  }

  lemma {:induction false} TeamsForPersonPairs(pre: seq<(string, string)>, team: string, people: seq<string>, p: string)
    ensures |TeamsFor(pre + PersonPairs(team, people), p)| == |TeamsFor(pre, p)| + multiset(people)[p]
  {
    if people != [] {
      var init := people[..|people| - 1];
      TeamsForPersonPairs(pre, team, init, p);
      assert PersonPairs(team, people) == PersonPairs(team, init) + [(people[|people| - 1], team)];
      assert (pre + PersonPairs(team, people))[..|pre + PersonPairs(team, people)| - 1] == pre + PersonPairs(team, init);
      assert people == init + [people[|people| - 1]];
    } else {
      assert pre + PersonPairs(team, people) == pre;
    }
  }

  lemma {:induction false} TeamsForOccurrences(reqs: seq<(string, ResourceRequest)>, p: string)
    ensures |TeamsFor(Pairs(reqs), p)| == Occurrences(reqs, p)
  {
    if reqs != [] {
      var init := reqs[..|reqs| - 1];
      TeamsForOccurrences(init, p);
      TeamsForPersonPairs(Pairs(init), reqs[|reqs| - 1].0, PersonnelOf(reqs[|reqs| - 1].1), p);
    }
  }

  /** A personnel conflict is reported for a person exactly when the person is
      requested more than once over all requests, and it names every requesting
      team in order. */
  lemma {:induction false} ConflictIffRequestedTwice(reqs: seq<(string, ResourceRequest)>, p: string)
    ensures (exists c :: c in Analysis(reqs).conflictAreas && c.resource == p) <==> Occurrences(reqs, p) > 1
    ensures forall c :: c in Analysis(reqs).conflictAreas && c.resource == p ==>
              c.conflictingTeams == TeamsFor(Pairs(reqs), p)
  {
    var pairs := Pairs(reqs);
    var index := PersonnelIndex(pairs);
    PersonnelIndexLookup(pairs, p);
    TeamsForOccurrences(reqs, p);
    forall c | c in Conflicts(index) && c.resource == p
      ensures c.conflictingTeams == TeamsFor(pairs, p) && |TeamsFor(pairs, p)| > 1
    {
      ConflictsMembers(index, c);
      var k :| 0 <= k < |index| && index[k] == (c.resource, c.conflictingTeams) && |index[k].1| > 1;
      LookupAt(index, k);
    }
    if Occurrences(reqs, p) > 1 {
      var i :| 0 <= i < |index| && Keys(index)[i] == p;
      LookupAt(index, i);
      var c := PersonnelConflict(p, index[i].1);
      ConflictsMembers(index, c);
      assert c in Conflicts(index);
    }
  }

  /** The totals are the sums of the per-team values, a missing value counting
      as zero. */
  lemma {:induction false} TotalsOfConcatenation(reqs: seq<(string, ResourceRequest)>, team: string, r: ResourceRequest)
    ensures TotalBudget(reqs + [(team, r)]) == TotalBudget(reqs) + BudgetOf(r)
    ensures TotalTime(reqs + [(team, r)]) == TotalTime(reqs) + TimeOf(r)
    ensures r.budget.None? ==> TotalBudget(reqs + [(team, r)]) == TotalBudget(reqs)
  {
    assert (reqs + [(team, r)])[..|reqs|] == reqs;
  }

  // ---------------------------------------------------------------------
  // create_allocation_plan
  // ---------------------------------------------------------------------

  /** `priority_order.get(priority, 2)`. */
  function PriorityWeight(priority: string): (w: nat)
    ensures 1 <= w <= 3
    ensures w == 3 <==> priority == "high"
    ensures w == 1 <==> priority == "low"
  {
    if priority == "high" then 3 else if priority == "medium" then 2 else if priority == "low" then 1 else 2
  }

  /** The ascending key whose stable sort is Python's stable descending sort by
      weight. */
  function UrgencyKey(e: (string, ResourceRequest)): nat {
    3 - PriorityWeight(PriorityOf(e.1))
  }

  function SortedByPriority(reqs: seq<(string, ResourceRequest)>): seq<(string, ResourceRequest)> {
    SortBy(reqs, UrgencyKey)
  }

  datatype AllocationStatus = Approved | RequiresHumanDecision

  datatype AllocationLine = AllocationLine(
    team: string,
    priority: string,
    budget: int,
    timeWeeks: int,
    status: AllocationStatus)

  /** The lines written so far and the running totals. */
  datatype Allocation = Allocation(lines: seq<AllocationLine>, allocatedBudget: int, allocatedTime: int)

  /** The greedy pass over requests already in processing order. */
  function Greedy(s: seq<(string, ResourceRequest)>, capBudget: int, capTime: int): (a: Allocation)
    ensures |a.lines| == |s|
  {
    if s == [] then Allocation([], 0, 0)
    else
      var prev := Greedy(s[..|s| - 1], capBudget, capTime);
      var e := s[|s| - 1];
      var b := BudgetOf(e.1);
      var t := TimeOf(e.1);
      if prev.allocatedBudget + b <= capBudget && prev.allocatedTime + t <= capTime then
        Allocation(prev.lines + [AllocationLine(e.0, PriorityOf(e.1), b, t, Approved)],
                   prev.allocatedBudget + b, prev.allocatedTime + t)
      else
        Allocation(prev.lines + [AllocationLine(e.0, PriorityOf(e.1), b, t, RequiresHumanDecision)],
                   prev.allocatedBudget, prev.allocatedTime)
  }

  function ApprovedBudget(lines: seq<AllocationLine>): int {
    if lines == [] then 0
    else ApprovedBudget(lines[..|lines| - 1]) + if lines[|lines| - 1].status == Approved then lines[|lines| - 1].budget else 0
  }

  function ApprovedTime(lines: seq<AllocationLine>): int {
    if lines == [] then 0
    else ApprovedTime(lines[..|lines| - 1]) + if lines[|lines| - 1].status == Approved then lines[|lines| - 1].timeWeeks else 0
  }

  /** Each line describes the request in the same position; the running totals
      are the sums over the approved lines only; with caps that are not
      negative the totals stay within them. */
  lemma {:induction false} GreedyTotals(s: seq<(string, ResourceRequest)>, capBudget: int, capTime: int)
    ensures var a := Greedy(s, capBudget, capTime);
            a.allocatedBudget == ApprovedBudget(a.lines) && a.allocatedTime == ApprovedTime(a.lines)
    ensures var a := Greedy(s, capBudget, capTime);
            forall k :: 0 <= k < |s| ==>
              a.lines[k].team == s[k].0 && a.lines[k].budget == BudgetOf(s[k].1) &&
              a.lines[k].timeWeeks == TimeOf(s[k].1) && a.lines[k].priority == PriorityOf(s[k].1)
    ensures var a := Greedy(s, capBudget, capTime);
            0 <= capBudget && 0 <= capTime ==> a.allocatedBudget <= capBudget && a.allocatedTime <= capTime
  {
    if s != [] {
      var init := s[..|s| - 1];
      GreedyTotals(init, capBudget, capTime);
      var a := Greedy(s, capBudget, capTime);
      assert a.lines[..|a.lines| - 1] == Greedy(init, capBudget, capTime).lines;
      forall k | 0 <= k < |init| ensures a.lines[k] == Greedy(init, capBudget, capTime).lines[k] && s[k] == init[k] {}
    }
  }

  /** The lines for a prefix of the requests are a prefix of the lines: a
      decision is never revisited. */
  lemma {:induction false} GreedyPrefix(s: seq<(string, ResourceRequest)>, capBudget: int, capTime: int, n: nat)
    requires n <= |s|
    ensures Greedy(s[..n], capBudget, capTime).lines == Greedy(s, capBudget, capTime).lines[..n]
  {
    if n < |s| {
      var init := s[..|s| - 1];
      GreedyPrefix(init, capBudget, capTime, n);
      assert init[..n] == s[..n];
      assert Greedy(s, capBudget, capTime).lines[..|s| - 1] == Greedy(init, capBudget, capTime).lines;
    } else {
      assert s[..n] == s;
    }
  }

  /** A request is approved exactly when it fits, on both budget and time, on
      top of what the requests before it were granted. */
  lemma {:induction false} ApprovedIffFits(s: seq<(string, ResourceRequest)>, capBudget: int, capTime: int, k: nat)
    requires k < |s|
    ensures var before := Greedy(s[..k], capBudget, capTime);
            Greedy(s, capBudget, capTime).lines[k].status == Approved <==>
              before.allocatedBudget + BudgetOf(s[k].1) <= capBudget &&
              before.allocatedTime + TimeOf(s[k].1) <= capTime
  {
    GreedyPrefix(s, capBudget, capTime, k + 1);
    assert s[..k + 1][..k] == s[..k];
  }

  datatype AvailableResources = AvailableResources(budget: Option<int>, timelineWeeks: Option<int>)

  datatype AllocationPlan = AllocationPlan(
    analysis: ResourceAnalysis,
    availableBudget: int,
    availableTimeline: int,
    lines: seq<AllocationLine>)

  /** `create_allocation_plan` on values: one allocation line per request,
      within the available budget and timeline (0 when not given). */
  function AllocationPlanOf(reqs: seq<(string, ResourceRequest)>, available: AvailableResources): (r: AllocationPlan)
    ensures |r.lines| == |reqs|
    ensures r.availableBudget == available.budget.GetOr(0) && r.availableTimeline == available.timelineWeeks.GetOr(0)
  {
    var capBudget := available.budget.GetOr(0);
    var capTime := available.timelineWeeks.GetOr(0);
    AllocationPlan(Analysis(reqs), capBudget, capTime, Greedy(SortedByPriority(reqs), capBudget, capTime).lines)
  }

  /** Every request gets exactly one line, the lines are in non-increasing
      priority weight, and requests of equal weight keep their input order. */
  lemma {:induction false} AllocationOrder(reqs: seq<(string, ResourceRequest)>, available: AvailableResources, k: nat)
    ensures var plan := AllocationPlanOf(reqs, available);
            |plan.lines| == |reqs| &&
            (forall i, j :: 0 <= i < j < |reqs| ==>
               PriorityWeight(plan.lines[i].priority) >= PriorityWeight(plan.lines[j].priority))
    ensures WithKey(SortedByPriority(reqs), UrgencyKey, k) == WithKey(reqs, UrgencyKey, k)
    ensures multiset(SortedByPriority(reqs)) == multiset(reqs)
  {
    var s := SortedByPriority(reqs);
    SortBySorted(reqs, UrgencyKey);
    SortByStable(reqs, UrgencyKey, k);
    SortByPermutation(reqs, UrgencyKey);
    GreedyTotals(s, available.budget.GetOr(0), available.timelineWeeks.GetOr(0));
    forall i, j | 0 <= i < j < |reqs| ensures UrgencyKey(s[i]) <= UrgencyKey(s[j]) {}
  }

  /** A lower-priority request that comes later can be approved after a
      higher-priority one was refused: the pass does not stop at the first
      request that does not fit. */
  lemma LaterLowPriorityCanBeApproved()
    ensures var reqs := [("big", ResourceRequest(Some(400), Some(2), None, Some("high"), None)),
                         ("small", ResourceRequest(Some(50), Some(2), None, Some("low"), None))];
            var plan := AllocationPlanOf(reqs, AvailableResources(Some(100), Some(10)));
            plan.lines[0].team == "big" && plan.lines[0].status == RequiresHumanDecision &&
            plan.lines[1].team == "small" && plan.lines[1].status == Approved
  {
    var big := ("big", ResourceRequest(Some(400), Some(2), None, Some("high"), None));
    var small := ("small", ResourceRequest(Some(50), Some(2), None, Some("low"), None));
    var reqs := [big, small];
    assert UrgencyKey(big) == 0 && UrgencyKey(small) == 2;
    assert reqs[1..] == [small];
    assert SortBy([small], UrgencyKey) == Insert(small, [], UrgencyKey) == [small];
    assert SortedByPriority(reqs) == Insert(big, [small], UrgencyKey) == reqs;
    assert reqs[..1] == [big];
    var none: seq<(string, ResourceRequest)> := [];
    assert [big][..0] == none;
    assert Greedy(none, 100, 10) == Allocation([], 0, 0);
    assert BudgetOf(big.1) == 400 && TimeOf(big.1) == 2 && PriorityOf(big.1) == "high";
    assert BudgetOf(small.1) == 50 && TimeOf(small.1) == 2 && PriorityOf(small.1) == "low";
    var first := Greedy([big], 100, 10);
    assert first == Allocation([AllocationLine("big", "high", 400, 2, RequiresHumanDecision)], 0, 0);
    assert Greedy(reqs, 100, 10).lines ==
           first.lines + [AllocationLine("small", "low", 50, 2, Approved)];
  }

  /** One more request extends every part of the analysis by that request. */
  lemma {:induction false} AnalysisStep(reqs: seq<(string, ResourceRequest)>, i: nat)
    requires i < |reqs|
    ensures TotalBudget(reqs[..i + 1]) == TotalBudget(reqs[..i]) + BudgetOf(reqs[i].1)
    ensures TotalTime(reqs[..i + 1]) == TotalTime(reqs[..i]) + TimeOf(reqs[i].1)
    ensures PriorityAnalysis(reqs[..i + 1]) == PriorityAnalysis(reqs[..i]) + [(reqs[i].0, PriorityOf(reqs[i].1))]
    ensures Pairs(reqs[..i + 1]) == Pairs(reqs[..i]) + PersonPairs(reqs[i].0, PersonnelOf(reqs[i].1))
  {
    assert reqs[..i + 1][..i] == reqs[..i];
  }

  /** One more requested person extends the index by that request. */
  lemma {:induction false} IndexStep(pre: seq<(string, string)>, team: string, people: seq<string>, j: nat)
    requires j < |people|
    ensures PersonnelIndex(pre + PersonPairs(team, people[..j + 1])) ==
            AddRequest(PersonnelIndex(pre + PersonPairs(team, people[..j])), people[j], team)
  {
    var shorter := pre + PersonPairs(team, people[..j]);
    assert PersonPairs(team, people[..j + 1]) == PersonPairs(team, people[..j]) + [(people[j], team)];
    var extended := shorter + [(people[j], team)];
    assert pre + PersonPairs(team, people[..j + 1]) == extended;
    assert extended[..|extended| - 1] == shorter;
  }

  // ---------------------------------------------------------------------
  // The agent
  // ---------------------------------------------------------------------

  /** The inner loop of `analyze_resource_requirements`: each person of one
      request is entered in the index under the requesting team. */
  method IndexPersonnel(index: seq<(string, seq<string>)>, done: seq<(string, ResourceRequest)>,
                        team: string, people: seq<string>)
    returns (r: seq<(string, seq<string>)>)
    requires index == PersonnelIndex(Pairs(done))
    ensures r == PersonnelIndex(Pairs(done) + PersonPairs(team, people))
  {
    ghost var pre := Pairs(done);
    assert people[..0] == [] && pre + PersonPairs(team, people[..0]) == pre;
    r := index;
    var j := 0;
    while j < |people|
      invariant 0 <= j <= |people|
      invariant r == PersonnelIndex(pre + PersonPairs(team, people[..j]))
    {
      IndexStep(pre, team, people, j);
      r := AddRequest(r, people[j], team);
      j := j + 1;
    }
    assert people[..j] == people;
  }

  /** The conflict scan of `analyze_resource_requirements`: every person
      requested by more than one team, in index order. */
  method CollectConflicts(index: seq<(string, seq<string>)>) returns (conflicts: seq<Conflict>)
    ensures conflicts == Conflicts(index)
  {
    conflicts := [];
    var k := 0;
    while k < |index|
      invariant 0 <= k <= |index|
      invariant conflicts == Conflicts(index[..k])
    {
      assert index[..k + 1][..k] == index[..k];
      if |index[k].1| > 1 {
        conflicts := conflicts + [PersonnelConflict(index[k].0, index[k].1)];
      }
      k := k + 1;
    }
    assert index[..k] == index;
  }

  class ResourceManager {
    const base: OuterAgentBase.BaseOuterAgent

    constructor ()
      ensures base.name == "ResourceManager" && base.Valid() && fresh(base)
    {
      base := new OuterAgentBase.BaseOuterAgent("ResourceManager");
    }

    /** `analyze_resource_requirements`: totals, priorities, the person index
        and the personnel conflicts, in one pass and a second over the index. */
    method AnalyzeResourceRequirements(reqs: seq<(string, ResourceRequest)>) returns (a: ResourceAnalysis)
      ensures a == Analysis(reqs)
    {
      var totalBudget := 0;
      var totalTime := 0;
      var priorities: seq<(string, string)> := [];
      var index: seq<(string, seq<string>)> := [];
      var i := 0;
      while i < |reqs|
        invariant 0 <= i <= |reqs|
        invariant totalBudget == TotalBudget(reqs[..i]) && totalTime == TotalTime(reqs[..i])
        invariant priorities == PriorityAnalysis(reqs[..i])
        invariant index == PersonnelIndex(Pairs(reqs[..i]))
      {
        var (team, request) := reqs[i];
        AnalysisStep(reqs, i);
        totalBudget := totalBudget + BudgetOf(request);
        totalTime := totalTime + TimeOf(request);
        priorities := priorities + [(team, PriorityOf(request))];
        index := IndexPersonnel(index, reqs[..i], team, PersonnelOf(request));
        i := i + 1;
      }
      assert reqs[..i] == reqs;
      var conflicts := CollectConflicts(index);
      a := ResourceAnalysis(totalBudget, totalTime, index, priorities, conflicts);
    }

    /** `create_allocation_plan`: the analysis, then the requests in priority
        order, each approved when it fits under both caps together with what
        was approved before it, and otherwise left for a human decision. */
    method CreateAllocationPlan(reqs: seq<(string, ResourceRequest)>, available: AvailableResources)
      returns (plan: AllocationPlan)
      ensures plan == AllocationPlanOf(reqs, available)
    {
      var analysis := AnalyzeResourceRequirements(reqs);
      var capBudget := available.budget.GetOr(0);
      var capTime := available.timelineWeeks.GetOr(0);
      var sorted := SortBy(reqs, UrgencyKey);
      var allocatedBudget := 0;
      var allocatedTime := 0;
      var lines: seq<AllocationLine> := [];
      var i := 0;
      while i < |sorted|
        invariant 0 <= i <= |sorted|
        invariant Greedy(sorted[..i], capBudget, capTime) == Allocation(lines, allocatedBudget, allocatedTime)
      {
        assert sorted[..i + 1][..i] == sorted[..i];
        var (team, request) := sorted[i];
        var teamBudget := BudgetOf(request);
        var teamTime := TimeOf(request);
        if allocatedBudget + teamBudget <= capBudget && allocatedTime + teamTime <= capTime {
          lines := lines + [AllocationLine(team, PriorityOf(request), teamBudget, teamTime, Approved)];
          allocatedBudget := allocatedBudget + teamBudget;
          allocatedTime := allocatedTime + teamTime;
        } else {
          lines := lines + [AllocationLine(team, PriorityOf(request), teamBudget, teamTime, RequiresHumanDecision)];
        }
        i := i + 1;
      }
      assert sorted[..i] == sorted;
      plan := AllocationPlan(analysis, capBudget, capTime, lines);
    }
  }
}
