/** The team coordinator of the outer layer (agents/outer_team_agents.py,
    `TeamCoordinatorAgent`): a dependency relation between team outputs found by
    counting shared keywords, and an integration order that sorts the teams by
    how many teams depend on them. */
module TeamCoordination {
  import opened Text
  import opened Dict
  import opened StableSort
  import OuterAgentBase

  /** The fixed vocabulary whose shared use suggests a dependency. */
  const CommonKeywords: seq<string> :=
    ["data", "requirements", "design", "implementation", "strategy", "analysis", "content", "technical"]

  /** The minimum number of shared keywords for a dependency. */
  const DependencyThreshold: nat := 2

  /** The number of keywords of `kws` found in both texts. */
  function SharedCount(kws: seq<string>, a: string, b: string): (n: nat)
    ensures n <= |kws|
  {
    if kws == [] then 0
    else SharedCount(kws[1..], a, b) + if Contains(a, kws[0]) && Contains(b, kws[0]) then 1 else 0
  }

  function SharedSet(kws: seq<string>, a: string, b: string): set<string> {
    set kw | kw in kws && Contains(a, kw) && Contains(b, kw)
  }

  /** For a vocabulary without repeats, the count is the number of distinct
      keywords the two texts share. */
  lemma {:induction false} SharedCountIsSetSize(kws: seq<string>, a: string, b: string)
    requires forall i, j :: 0 <= i < j < |kws| ==> kws[i] != kws[j]
    ensures SharedCount(kws, a, b) == |SharedSet(kws, a, b)|
  {
    if kws != [] {
      var rest := kws[1..];
      assert forall i, j :: 0 <= i < j < |rest| ==> rest[i] != rest[j] by {
        forall i, j | 0 <= i < j < |rest| ensures rest[i] != rest[j] {
          assert rest[i] == kws[i + 1] && rest[j] == kws[j + 1];
        }
      }
      SharedCountIsSetSize(rest, a, b);
      assert kws == [kws[0]] + rest;
      assert kws[0] !in rest by {
        forall j | 0 <= j < |rest| ensures rest[j] != kws[0] { assert rest[j] == kws[j + 1]; }
      }
      if Contains(a, kws[0]) && Contains(b, kws[0]) {
        assert SharedSet(kws, a, b) == SharedSet(rest, a, b) + {kws[0]};
      } else {
        assert SharedSet(kws, a, b) == SharedSet(rest, a, b);
      }
    }
  }

  lemma CommonKeywordsDistinct()
    ensures forall i, j :: 0 <= i < j < |CommonKeywords| ==> CommonKeywords[i] != CommonKeywords[j]
  {
  }

  /** `overlap_score`: shared keywords of the two lower-cased outputs. */
  function OverlapScore(output1: string, output2: string): (n: nat)
    ensures n <= |CommonKeywords|
  {
    SharedCount(CommonKeywords, Lower(output1), Lower(output2))
  }

  /** The score is the number of distinct keywords both outputs contain. */
  lemma {:induction false} OverlapScoreIsSetSize(output1: string, output2: string)
    ensures OverlapScore(output1, output2) == |SharedSet(CommonKeywords, Lower(output1), Lower(output2))|
  {
    CommonKeywordsDistinct();
    SharedCountIsSetSize(CommonKeywords, Lower(output1), Lower(output2));
  }

  /** The score does not depend on which output is taken first. */
  lemma {:induction false} OverlapScoreSymmetric(output1: string, output2: string)
    ensures OverlapScore(output1, output2) == OverlapScore(output2, output1)
  {
    OverlapScoreIsSetSize(output1, output2);
    OverlapScoreIsSetSize(output2, output1);
    assert SharedSet(CommonKeywords, Lower(output1), Lower(output2)) ==
           SharedSet(CommonKeywords, Lower(output2), Lower(output1));
  }

  predicate DependsOn(output1: string, output2: string) {
    OverlapScore(output1, output2) >= DependencyThreshold
  }

  /** The teams among the first `n` that team `i` depends on, in input order. */
  function DepsAmong(outputs: seq<(string, string)>, i: nat, n: nat): (r: seq<string>)
    requires i < |outputs| && n <= |outputs|
    ensures |r| <= n
  {
    if n == 0 then []
    else DepsAmong(outputs, i, n - 1) +
         if n - 1 != i && DependsOn(outputs[i].1, outputs[n - 1].1) then [outputs[n - 1].0] else []
  }

  lemma {:induction false} DepsAmongStep(outputs: seq<(string, string)>, i: nat, j: nat)
    requires i < |outputs| && j < |outputs|
    ensures DepsAmong(outputs, i, j + 1) ==
            DepsAmong(outputs, i, j) + if j != i && DependsOn(outputs[i].1, outputs[j].1) then [outputs[j].0] else []
  {
  }

  /** The dependency lists, one per team, in the order of the input. */
  function DependencyMap(outputs: seq<(string, string)>): (r: seq<(string, seq<string>)>)
    ensures |r| == |outputs|
    ensures Keys(r) == Keys(outputs)
  {
    var r := seq(|outputs|, i requires 0 <= i < |outputs| => (outputs[i].0, DepsAmong(outputs, i, |outputs|)));
    assert forall k :: 0 <= k < |r| ==> Keys(r)[k] == Keys(outputs)[k];
    r
  }

  lemma {:induction false} DepsAmongMembers(outputs: seq<(string, string)>, i: nat, n: nat, t: string)
    requires i < |outputs| && n <= |outputs|
    ensures t in DepsAmong(outputs, i, n) <==>
            exists j :: 0 <= j < n && j != i && outputs[j].0 == t && DependsOn(outputs[i].1, outputs[j].1)
  {
    if n > 0 {
      var m := n - 1;
      DepsAmongMembers(outputs, i, m, t);
      var added := m != i && DependsOn(outputs[i].1, outputs[m].1);
      assert DepsAmong(outputs, i, n) == DepsAmong(outputs, i, m) + if added then [outputs[m].0] else [];
      if t in DepsAmong(outputs, i, n) && t !in DepsAmong(outputs, i, m) {
        assert added && outputs[m].0 == t;
      }
      if exists j :: 0 <= j < n && j != i && outputs[j].0 == t && DependsOn(outputs[i].1, outputs[j].1) {
        var j :| 0 <= j < n && j != i && outputs[j].0 == t && DependsOn(outputs[i].1, outputs[j].1);
        if j == m {
          assert added;
        }
      }
    }
  }

  /** Team `i` lists a team name exactly when that name belongs to another entry
      whose output shares at least two keywords with its own. */
  lemma {:induction false} DependencyMapMembers(outputs: seq<(string, string)>, i: nat, t: string)
    requires i < |outputs|
    ensures DependencyMap(outputs)[i].0 == outputs[i].0
    ensures t in DependencyMap(outputs)[i].1 <==>
            exists j :: 0 <= j < |outputs| && j != i && outputs[j].0 == t &&
                        OverlapScore(outputs[i].1, outputs[j].1) >= 2
  {
    DepsAmongMembers(outputs, i, |outputs|, t);
  }

  /** No team depends on itself. */
  lemma {:induction false} NoSelfDependency(outputs: seq<(string, string)>, i: nat)
    requires UniqueKeys(outputs) && i < |outputs|
    ensures outputs[i].0 !in DependencyMap(outputs)[i].1
  {
    DependencyMapMembers(outputs, i, outputs[i].0);
  }

  /** The relation is symmetric: team `i` lists team `j` exactly when team `j`
      lists team `i`. */
  lemma {:induction false} DependencySymmetric(outputs: seq<(string, string)>, i: nat, j: nat)
    requires UniqueKeys(outputs) && i < |outputs| && j < |outputs|
    ensures outputs[j].0 in DependencyMap(outputs)[i].1 <==> outputs[i].0 in DependencyMap(outputs)[j].1
  {
    DependencyMapMembers(outputs, i, outputs[j].0);
    DependencyMapMembers(outputs, j, outputs[i].0);
    OverlapScoreSymmetric(outputs[i].1, outputs[j].1);
  }

  // ---------------------------------------------------------------------
  // In-degrees and the integration order
  // ---------------------------------------------------------------------

  /** How many times `t` is listed as a dependency, over all lists. */
  function InDegree(deps: seq<(string, seq<string>)>, t: string): nat {
    if deps == [] then 0
    else InDegree(deps[..|deps| - 1], t) + multiset(deps[|deps| - 1].1)[t]
  }

  /** The integration order: the teams ascending by in-degree, ties in input
      order. */
  function IntegrationOrder(deps: seq<(string, seq<string>)>): (r: seq<string>)
    ensures |r| == |deps|
  {
    SortBy(Keys(deps), t => InDegree(deps, t))
  }

  /** The order holds every team exactly once, never puts a team after one with
      a smaller in-degree (so teams nobody depends on come first), and keeps
      teams of equal in-degree in their input order. */
  lemma {:induction false} IntegrationOrderProperties(deps: seq<(string, seq<string>)>, k: nat)
    ensures multiset(IntegrationOrder(deps)) == multiset(Keys(deps))
    ensures forall i, j :: 0 <= i < j < |deps| ==>
              InDegree(deps, IntegrationOrder(deps)[i]) <= InDegree(deps, IntegrationOrder(deps)[j])
    ensures WithKey(IntegrationOrder(deps), t => InDegree(deps, t), k) ==
            WithKey(Keys(deps), t => InDegree(deps, t), k)
  {
    var key := t => InDegree(deps, t);
    SortByPermutation(Keys(deps), key);
    SortBySorted(Keys(deps), key);
    SortByStable(Keys(deps), key, k);
  }

  // ---------------------------------------------------------------------
  // The agent
  // ---------------------------------------------------------------------

  /** The content of a generated integration plan: the dependency lists and the
      recommended order (the surrounding prose is not modelled). */
  datatype IntegrationPlan = IntegrationPlan(
    dependencies: seq<(string, seq<string>)>,
    order: seq<string>)

  class TeamCoordinator {
    const base: OuterAgentBase.BaseOuterAgent
    var teamDependencies: seq<(string, seq<string>)>
    var integrationPlans: map<nat, IntegrationPlan>

    constructor ()
      ensures base.name == "TeamCoordinator" && base.Valid() && fresh(base)
      ensures teamDependencies == [] && integrationPlans == map[]
    {
      base := new OuterAgentBase.BaseOuterAgent("TeamCoordinator");
      teamDependencies := [];
      integrationPlans := map[];
    }

    /** The inner loop of `analyze_team_dependencies`: the teams that team `i`
        depends on. */
    static method ListDependencies(outputs: seq<(string, string)>, i: nat) returns (listed: seq<string>)
      requires i < |outputs|
      ensures listed == DepsAmong(outputs, i, |outputs|)
    {
      listed := [];
      var j := 0;
      while j < |outputs|
        invariant 0 <= j <= |outputs|
        invariant listed == DepsAmong(outputs, i, j)
      {
        DepsAmongStep(outputs, i, j);
        if i != j && OverlapScore(outputs[i].1, outputs[j].1) >= DependencyThreshold {
          listed := listed + [outputs[j].0];
        }
        j := j + 1;
      }
    }

    /** `analyze_team_dependencies`: for each team, the other teams whose output
        shares at least two keywords with its own; the result is also stored. */
    method AnalyzeTeamDependencies(outputs: seq<(string, string)>) returns (deps: seq<(string, seq<string>)>)
      requires UniqueKeys(outputs)
      modifies this
      ensures deps == DependencyMap(outputs)
      ensures teamDependencies == deps && integrationPlans == old(integrationPlans)
    {
      deps := [];
      var i := 0;
      while i < |outputs|
        invariant 0 <= i <= |outputs|
        invariant |deps| == i
        invariant forall k :: 0 <= k < i ==> deps[k] == (outputs[k].0, DepsAmong(outputs, k, |outputs|))
        invariant integrationPlans == old(integrationPlans)
      {
        var listed := ListDependencies(outputs, i);
        deps := deps + [(outputs[i].0, listed)];
        i := i + 1;
      }
      assert forall k :: 0 <= k < |deps| ==> deps[k] == DependencyMap(outputs)[k];
      assert deps == DependencyMap(outputs);
      teamDependencies := deps;
    }

    /** `_calculate_integration_order`: in-degrees counted in one pass over the
        lists (only for names that are teams), then a stable sort by them. */
    method CalculateIntegrationOrder(deps: seq<(string, seq<string>)>) returns (order: seq<string>)
      ensures order == IntegrationOrder(deps)
    {
      var teams := Keys(deps);
      var inDegree: map<string, nat> := map t | t in teams :: 0;
      var i := 0;
      while i < |deps|
        invariant 0 <= i <= |deps|
        invariant forall t :: t in inDegree <==> t in teams
        invariant forall t :: t in inDegree ==> inDegree[t] == InDegree(deps[..i], t)
      {
        var listed := deps[i].1;
        var j := 0;
        while j < |listed|
          invariant 0 <= j <= |listed|
          invariant forall t :: t in inDegree <==> t in teams
          invariant forall t :: t in inDegree ==> inDegree[t] == InDegree(deps[..i], t) + multiset(listed[..j])[t]
        {
          var dep := listed[j];
          assert listed[..j + 1] == listed[..j] + [dep];
          if dep in inDegree {
            inDegree := inDegree[dep := inDegree[dep] + 1];
          }
          j := j + 1;
        }
        assert listed[..j] == listed;
        assert deps[..i + 1][..i] == deps[..i];
        i := i + 1;
      }
      assert deps[..i] == deps;
      var key := t => if t in inDegree then inDegree[t] else 0;
      SortByAgree(teams, key, t => InDegree(deps, t));
      order := SortBy(teams, key);
    }

    /** `create_integration_plan`: the dependency analysis, then the order
        computed from it, recorded under the generation time. */
    method CreateIntegrationPlan(outputs: seq<(string, string)>, timestamp: nat) returns (plan: IntegrationPlan)
      requires UniqueKeys(outputs)
      modifies this
      ensures plan.dependencies == DependencyMap(outputs)
      ensures plan.order == IntegrationOrder(DependencyMap(outputs))
      ensures teamDependencies == plan.dependencies
      ensures integrationPlans == old(integrationPlans)[timestamp := plan]
    {
      var deps := AnalyzeTeamDependencies(outputs);
      var order := CalculateIntegrationOrder(deps);
      plan := IntegrationPlan(deps, order);
      integrationPlans := integrationPlans[timestamp := plan];
    }
  }

  /** The integration order is a permutation of the analysed teams. */
  lemma {:induction false} PlanOrderIsPermutation(outputs: seq<(string, string)>)
    ensures multiset(IntegrationOrder(DependencyMap(outputs))) == multiset(Keys(outputs))
  {
    IntegrationOrderProperties(DependencyMap(outputs), 0);
  }
}
