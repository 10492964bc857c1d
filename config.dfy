/** Configuration of the framework (config.py): the language-model settings with
    the key-required check, the team limits read from the environment, and the
    scenario table with its fallback. */
module Config {
  import opened Wrappers
  import opened Dict

  const DefaultModel: string := "gpt-4-turbo-preview"
  const DefaultTemperature: real := 0.1
  const DefaultMaxTokens: nat := 2000
  const DefaultTimeout: nat := 120

  // ---------------------------------------------------------------------
  // Language-model configuration
  // ---------------------------------------------------------------------

  datatype ModelEntry = ModelEntry(model: string, apiKey: string, temperature: real, maxTokens: nat)
  datatype LlmConfig = LlmConfig(configList: seq<ModelEntry>, timeout: nat)

  /** Python's truth test on an optional string: `None` and `""` are false. */
  predicate Present(key: Option<string>) {
    key.Some? && key.value != []
  }

  /** `get_llm_config(api_key)`: an explicit key wins, otherwise the one found in
      the environment (`envKey`); with neither, a ValueError. */
  function GetLlmConfig(apiKey: Option<string>, envKey: Option<string>): (r: Result<LlmConfig>)
    ensures r.Err? <==> !Present(apiKey) && !Present(envKey)
    ensures r.Ok? ==> |r.value.configList| == 1 && r.value.timeout == DefaultTimeout
    ensures r.Ok? ==> var e := r.value.configList[0];
              e.model == DefaultModel && e.temperature == DefaultTemperature &&
              e.maxTokens == DefaultMaxTokens && e.apiKey != [] &&
              e.apiKey == (if Present(apiKey) then apiKey.value else envKey.value)
  {
    var key := if Present(apiKey) then apiKey else envKey;
    if !Present(key) then Err("ValueError", "OpenAI API key is required")
    else Ok(LlmConfig([ModelEntry(DefaultModel, key.value, DefaultTemperature, DefaultMaxTokens)],
                      DefaultTimeout))
  }

  // ---------------------------------------------------------------------
  // Team limits
  // ---------------------------------------------------------------------

  /** The class-level limits, each read once from an environment variable with a
      default; the environment is given as the optional values found there. */
  datatype Settings = Settings(
    maxInnerTeams: int,
    maxAgentsPerTeam: int,
    humanInterventionTimeout: int,
    autoApproveThreshold: real)

  function LoadSettings(maxTeams: Option<int>, maxAgents: Option<int>,
                        timeout: Option<int>, threshold: Option<real>): (s: Settings)
    ensures maxTeams.None? ==> s.maxInnerTeams == 5
    ensures maxAgents.None? ==> s.maxAgentsPerTeam == 10
    ensures timeout.None? ==> s.humanInterventionTimeout == 300
    ensures threshold.None? ==> s.autoApproveThreshold == 0.8
    ensures maxTeams.Some? ==> s.maxInnerTeams == maxTeams.value
    ensures maxAgents.Some? ==> s.maxAgentsPerTeam == maxAgents.value
    ensures timeout.Some? ==> s.humanInterventionTimeout == timeout.value
    ensures threshold.Some? ==> s.autoApproveThreshold == threshold.value
  {
    Settings(maxTeams.GetOr(5), maxAgents.GetOr(10), timeout.GetOr(300), threshold.GetOr(0.8))
  }

  datatype TeamConfig = TeamConfig(
    maxInnerTeams: int,
    maxAgentsPerTeam: int,
    humanInterventionTimeout: int,
    autoApproveThreshold: real)

  /** `get_team_config()`: exactly the four limits, unchanged. */
  function GetTeamConfig(s: Settings): (r: TeamConfig)
    ensures r.maxInnerTeams == s.maxInnerTeams && r.maxAgentsPerTeam == s.maxAgentsPerTeam
    ensures r.humanInterventionTimeout == s.humanInterventionTimeout
    ensures r.autoApproveThreshold == s.autoApproveThreshold
  {
    TeamConfig(s.maxInnerTeams, s.maxAgentsPerTeam, s.humanInterventionTimeout, s.autoApproveThreshold)
  }

  // ---------------------------------------------------------------------
  // Scenarios
  // ---------------------------------------------------------------------

  datatype ScenarioConfig = ScenarioConfig(
    name: string,
    description: string,
    expectedDuration: nat,
    complexity: string,
    humanInterventionsExpected: nat)

  const AvailableScenarios: seq<string> := ["product_launch", "crisis_management", "interactive"]

  const ProductLaunch := ScenarioConfig(
    "Product Launch Planning", "Plan comprehensive launch strategy for new product", 1800, "medium", 8)
  const CrisisManagement := ScenarioConfig(
    "Crisis Management Response", "Develop rapid response to business crisis", 1200, "high", 12)
  const Interactive := ScenarioConfig(
    "Interactive Demonstration", "Custom interactive demonstration", 2400, "variable", 10)

  const ScenarioTable: seq<(string, ScenarioConfig)> :=
    [("product_launch", ProductLaunch), ("crisis_management", CrisisManagement), ("interactive", Interactive)]

  /** `get_scenario_config(scenario)`: the table entry, or the interactive entry
      for a name the table does not hold. */
  function GetScenarioConfig(scenario: string): (r: ScenarioConfig)
    ensures scenario == "product_launch" ==> r == ProductLaunch
    ensures scenario == "crisis_management" ==> r == CrisisManagement
    ensures scenario == "interactive" ==> r == Interactive
    ensures scenario !in AvailableScenarios ==> r == Interactive
  {
    LookupScenarioTable(scenario);
    Lookup(ScenarioTable, scenario).GetOr(Interactive)
  }

  /** The three entries of the table, one lookup at a time. */
  lemma {:induction false} LookupScenarioTable(scenario: string)
    ensures Lookup(ScenarioTable, scenario) ==
            if scenario == "product_launch" then Some(ProductLaunch)
            else if scenario == "crisis_management" then Some(CrisisManagement)
            else if scenario == "interactive" then Some(Interactive)
            else None
  {
    var t1 := ScenarioTable[1..];
    var t2 := t1[1..];
    assert t1 == [("crisis_management", CrisisManagement), ("interactive", Interactive)];
    assert t2 == [("interactive", Interactive)];
    assert t2[1..] == [];
    if scenario != "product_launch" {
      assert Lookup(ScenarioTable, scenario) == Lookup(t1, scenario);
      if scenario != "crisis_management" {
        assert Lookup(t1, scenario) == Lookup(t2, scenario);
        if scenario != "interactive" {
          assert Lookup(t2, scenario) == Lookup(t2[1..], scenario);
        }
      }
    }
  }

  /** Every advertised scenario name has its own entry in the table, and the
      table holds no other names. */
  lemma {:induction false} AvailableScenariosHaveEntries(scenario: string)
    ensures scenario in AvailableScenarios <==> Lookup(ScenarioTable, scenario).Some?
  {
    LookupScenarioTable(scenario);
  }
}
