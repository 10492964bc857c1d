/** The human-in-the-loop proxies (agents/user_proxy_integration.py): how a
    human's reply is read as approval, rejection, an override, extra context or
    a constraint list, the log of every question asked, and the summary of all
    interventions. The reply itself is a parameter: console input is not part
    of this model. */
module UserProxy {
  import opened Wrappers
  import opened Text
  import opened StableSort
  import ResourceManagement

  /** `HumanInterventionResult`. */
  datatype InterventionResult = InterventionResult(
    approved: bool,
    feedback: string,
    additionalContext: string,
    constraints: seq<string>,
    overrideDecision: string,
    timestamp: nat)

  /** A result carrying only a decision and the reply as feedback. */
  function Decision(approved: bool, feedback: string, timestamp: nat): InterventionResult {
    InterventionResult(approved, feedback, "", [], "", timestamp)
  }

  /** `response.lower().strip()`. */
  function Normalized(response: string): string {
    Strip(Lower(response))
  }

  /** A normalised reply has no upper-case letter. */
  lemma {:induction false} NormalizedNoUpper(response: string)
    ensures forall k :: 0 <= k < |Normalized(response)| ==> !IsUpperAscii(Normalized(response)[k])
  {
    StripKeepsNoUpper(Lower(response));
  }

  /** Normalising a normalised reply changes nothing: it has no upper-case
      letter and no surrounding white space. */
  lemma {:induction false} NormalizedIdempotent(response: string)
    ensures Normalized(Normalized(response)) == Normalized(response)
  {
    var n := Normalized(response);
    NormalizedNoUpper(response);
    LowerOfLower(n);
    if n != [] {
      StripUnchanged(n);
    }
  }

  // ---------------------------------------------------------------------
  // request_approval
  // ---------------------------------------------------------------------

  const ApproveWords: seq<string> := ["approve", "yes", "y"]
  const RejectWords: seq<string> := ["reject", "no", "n"]

  /** No approval word is a rejection word, and no word of either list starts
      with "modify". */
  lemma {:induction false} ApprovalWordsDistinct(key: string)
    ensures key in ApproveWords ==> key !in RejectWords && !StartsWith(key, "modify")
    ensures key in RejectWords ==> !StartsWith(key, "modify")
  {
    if key in ApproveWords || key in RejectWords {
      assert |key| < 6 || key == "approve" || key == "reject";
      if key == "approve" {
        assert key[0] != 'm';
      } else if key == "reject" {
        assert key[..6][0] != 'm';
      }
    }
  }

  /** The reading of a reply to an approval request. A reply that is neither an
      approval, a rejection nor a modification counts as approval. */
  function ClassifyApproval(response: string, timestamp: nat): (r: InterventionResult)
    ensures r.feedback == response && r.timestamp == timestamp
    ensures r.approved <==> Normalized(response) !in RejectWords && !StartsWith(Normalized(response), "modify")
    ensures StartsWith(Normalized(response), "modify") ==> r.overrideDecision == Strip(Drop(response, 6))
    ensures !StartsWith(Normalized(response), "modify") ==> r.overrideDecision == ""
    ensures r.additionalContext == "" && r.constraints == []
  {
    var key := Normalized(response);
    ApprovalWordsDistinct(key);
    if key in ApproveWords then Decision(true, response, timestamp)
    else if key in RejectWords then Decision(false, response, timestamp)
    else if StartsWith(key, "modify") then
      InterventionResult(false, response, "", [], Strip(Drop(response, 6)), timestamp)
    else Decision(true, response, timestamp)
  }

  /** Whatever follows the six letters of "modify" becomes the override, a
      separator included: "modify: x" is overridden by ": x". */
  lemma {:induction false} ModifyCutKeepsRest(rest: string, timestamp: nat)
    ensures !ClassifyApproval("modify" + rest, timestamp).approved
    ensures ClassifyApproval("modify" + rest, timestamp).overrideDecision == Strip(rest)
  {
    NormalizedModifyPrefix(rest);
    DropConcat("modify", rest, 6);
    assert Drop(rest, 0) == rest;
  }

  lemma {:induction false} NormalizedModifyPrefix(rest: string)
    ensures StartsWith(Normalized("modify" + rest), "modify")
  {
    LowerConcat("modify", rest);
    LowerOfLower("modify");
    StripAfterPrefix("modify", Lower(rest));
  }

  /** The word is recognised after stripping, but the cut is made in the raw
      reply: two leading spaces move the cut two characters into the reply, so
      "  modify: x" is overridden by "fy: x". */
  lemma {:induction false} LeadingSpacesShiftTheCut(t: string, timestamp: nat)
    requires StartsWith(Normalized(t), "modify")
    ensures !ClassifyApproval("  " + t, timestamp).approved
    ensures ClassifyApproval("  " + t, timestamp).overrideDecision == Strip(Drop(t, 4))
  {
    LeadingSpacesIgnored(t);
    assert |t| >= 6;
    DropConcat("  ", t, 6);
  }

  lemma {:induction false} LeadingSpacesIgnored(t: string)
    ensures Normalized("  " + t) == Normalized(t)
  {
    LowerConcat("  ", t);
    assert Lower("  ") == [' '] + [' '];
    assert [' '] + [' '] + Lower(t) == [' '] + ([' '] + Lower(t));
    TrimStartSpace(' ', [' '] + Lower(t));
    TrimStartSpace(' ', Lower(t));
  }

  /** An empty reply, like any unrecognised one, is taken as approval. */
  lemma {:induction false} EmptyReplyApproves(timestamp: nat)
    ensures ClassifyApproval("", timestamp).approved
    ensures ClassifyApproval("", timestamp).feedback == ""
  {
    assert Normalized("") == "";
  }

  /** Spaces around a reply do not change its reading. */
  lemma {:induction false} NormalizedPadded(response: string)
    ensures Normalized(" " + response + " ") == Normalized(response)
  {
    LowerConcat(" " + response, " ");
    LowerConcat(" ", response);
    assert Lower(" ") == " ";
    StripPadded(Lower(response), ' ');
  }

  /** Surrounding spaces do not change the decision. */
  lemma {:induction false} PaddingKeepsDecision(response: string, timestamp: nat)
    ensures ClassifyApproval(" " + response + " ", timestamp).approved == ClassifyApproval(response, timestamp).approved
  {
    NormalizedPadded(response);
  }

  /** Case does not matter: "No" rejects. */
  lemma {:induction false} CapitalisedNoRejects(timestamp: nat)
    ensures !ClassifyApproval("No", timestamp).approved
  {
    assert Lower("No") == "no";
    StripUnchanged("no");
  }

  // ---------------------------------------------------------------------
  // request_context_addition
  // ---------------------------------------------------------------------

  /** The reply is the additional context unless it is "none"; either way the
      request is approved. */
  function ClassifyContext(response: string, timestamp: nat): (r: InterventionResult)
    ensures r.approved && r.constraints == [] && r.overrideDecision == ""
    ensures r.additionalContext == if Normalized(response) == "none" then "" else response
  {
    if Normalized(response) == "none" then InterventionResult(true, "", "", [], "", timestamp)
    else InterventionResult(true, "", response, [], "", timestamp)
  }

  // ---------------------------------------------------------------------
  // request_constraint_setting
  // ---------------------------------------------------------------------

  /** `[c for c in cs if c != x]`. */
  function RemoveAll(cs: seq<string>, x: string): (r: seq<string>)
    ensures |r| == |cs| - multiset(cs)[x]
    ensures forall c :: c in r <==> c in cs && c != x
    ensures forall c :: c != x ==> multiset(r)[c] == multiset(cs)[c]
  {
    if cs == [] then []
    else
      assert cs == [cs[0]] + cs[1..];
      if cs[0] == x then RemoveAll(cs[1..], x) else [cs[0]] + RemoveAll(cs[1..], x)
  }

  /** Removal keeps the remaining constraints in their order: it never changes
      a list without the removed text. */
  lemma {:induction false} RemoveAbsent(cs: seq<string>, x: string)
    requires x !in cs
    ensures RemoveAll(cs, x) == cs
  {
    if cs != [] {
      assert cs == [cs[0]] + cs[1..];
      RemoveAbsent(cs[1..], x);
    }
  }

  /** `[c.strip() for c in text.split(';')]`: one constraint per ';'-field
      of the text, in order, each stripped of surrounding white space. The
      fields are the separator-free pieces that join back into the text. */
  function SplitConstraints(text: string): (r: seq<string>)
    ensures |r| == multiset(text)[';'] + 1
    ensures forall k :: 0 <= k < |r| ==> ';' !in r[k]
    ensures exists fields: seq<string> ::
              |fields| == |r| && Join(fields, ';') == text &&
              forall k :: 0 <= k < |r| ==> ';' !in fields[k] && r[k] == Strip(fields[k])
  {
    SplitCount(text, ';');
    JoinSplit(text, ';');
    var pieces := Split(text, ';');
    var r := StripAll(pieces);
    forall k | 0 <= k < |r| ensures ';' !in r[k] {
      StripContained(pieces[k]);
      ContainedChars(pieces[k], r[k]);
    }
    assert |pieces| == |r| && Join(pieces, ';') == text &&
           forall k :: 0 <= k < |r| ==> ';' !in pieces[k] && r[k] == Strip(pieces[k]);
    r
  }

  /** The reply's command chooses the new constraint list: accept, add one,
      remove every copy of one, or replace the list; any other reply is itself
      the new list. Every branch approves. */
  function ClassifyConstraints(response: string, proposed: seq<string>, timestamp: nat): (r: InterventionResult)
    ensures r.approved && r.feedback == "" && r.additionalContext == "" && r.overrideDecision == ""
    ensures Normalized(response) == "accept" ==> r.constraints == proposed
    ensures Normalized(response) != "accept" && StartsWith(Normalized(response), "add:") ==>
              r.constraints == proposed + [Strip(Drop(response, 4))]
    ensures Normalized(response) != "accept" && !StartsWith(Normalized(response), "add:") &&
            StartsWith(Normalized(response), "remove:") ==>
              r.constraints == RemoveAll(proposed, Strip(Drop(response, 7)))
    ensures Normalized(response) != "accept" && !StartsWith(Normalized(response), "add:") &&
            !StartsWith(Normalized(response), "remove:") && StartsWith(Normalized(response), "replace:") ==>
              r.constraints == SplitConstraints(Strip(Drop(response, 8)))
    ensures Normalized(response) != "accept" && !StartsWith(Normalized(response), "add:") &&
            !StartsWith(Normalized(response), "remove:") && !StartsWith(Normalized(response), "replace:") ==>
              r.constraints == SplitConstraints(response)
    ensures |r.constraints| >= 1 || proposed == [] || StartsWith(Normalized(response), "remove:") ||
            Normalized(response) == "accept"
  {
    var key := Normalized(response);
    var constraints :=
      if key == "accept" then proposed
      else if StartsWith(key, "add:") then proposed + [Strip(Drop(response, 4))]
      else if StartsWith(key, "remove:") then RemoveAll(proposed, Strip(Drop(response, 7)))
      else if StartsWith(key, "replace:") then SplitConstraints(Strip(Drop(response, 8)))
      else SplitConstraints(response);
    InterventionResult(true, "", "", constraints, "", timestamp)
  }

  /** An empty reply is no command: it falls through to the last branch and
      replaces the proposed list with one empty constraint. */
  lemma {:induction false} FallbackNeverEmpty(timestamp: nat)
    ensures ClassifyConstraints("", ["x"], timestamp).constraints == [""]
  {
    assert Normalized("") == "";
    assert Split("", ';') == [[]];
  }

  // ---------------------------------------------------------------------
  // Validation of outputs
  // ---------------------------------------------------------------------

  const TeamApprovalWords: seq<string> := ["approve", "approved", "good", "ok"]
  const FinalApprovalWords: seq<string> := ["approve", "accept", "good", "ready"]

  /** `validate_team_output`: approval only for an exact approval word. */
  function ValidateTeamReply(response: string, timestamp: nat): (r: InterventionResult)
    ensures r.approved <==> Normalized(response) in TeamApprovalWords
    ensures r.feedback == response
  {
    Decision(Normalized(response) in TeamApprovalWords, response, timestamp)
  }

  predicate MentionsApproval(response: string) {
    exists k :: 0 <= k < |FinalApprovalWords| && Contains(Lower(response), FinalApprovalWords[k])
  }

  /** `validate_final_output`: approval when an approval word occurs anywhere in
      the lower-cased reply. */
  function ValidateFinalReply(response: string, timestamp: nat): (r: InterventionResult)
    ensures r.approved <==> MentionsApproval(response)
    ensures r.feedback == response
  {
    Decision(MentionsApproval(response), response, timestamp)
  }

  lemma ApprovedContainsApprove()
    ensures Contains(TeamApprovalWords[1], FinalApprovalWords[0])
  {
    assert TeamApprovalWords[1][0..7] == FinalApprovalWords[0];
    ContainsAt(TeamApprovalWords[1], FinalApprovalWords[0], 0);
  }

  /** A string holding one of the first three team-approval words holds a
      final-approval word. */
  lemma {:induction false} TeamWordHoldsFinalWord(lowered: string, key: string)
    requires Contains(lowered, key)
    requires key == TeamApprovalWords[0] || key == TeamApprovalWords[1] || key == TeamApprovalWords[2]
    ensures exists k :: 0 <= k < |FinalApprovalWords| && Contains(lowered, FinalApprovalWords[k])
  {
    var k := if key == TeamApprovalWords[2] then 2 else 0;
    if key == TeamApprovalWords[1] {
      ApprovedContainsApprove();
      ContainsTrans(lowered, key, FinalApprovalWords[0]);
    }
    assert Contains(lowered, FinalApprovalWords[k]);
  }

  /** Every exact team-approval word except "ok" also approves a final output. */
  lemma {:induction false} TeamApprovalImpliesFinal(response: string, timestamp: nat)
    requires ValidateTeamReply(response, timestamp).approved && Normalized(response) != "ok"
    ensures ValidateFinalReply(response, timestamp).approved
  {
    StripContained(Lower(response));
    TeamWordHoldsFinalWord(Lower(response), Normalized(response));
  }

  /** A substring is never longer than the string. */
  lemma {:induction false} ContainsLength(s: string, sub: string)
    requires Contains(s, sub)
    ensures |sub| <= |s|
  {
    var i := ContainsWitness(s, sub);
  }

  lemma NormalizedOk()
    ensures Normalized("ok") == "ok"
  {
    LowerOfLower("ok");
    StripUnchanged("ok");
  }

  /** The team proxy accepts "ok", which the final validator rejects. */
  lemma OkApprovesOnlyTeamOutput()
    ensures ValidateTeamReply("ok", 0).approved
    ensures !ValidateFinalReply("ok", 0).approved
  {
    NormalizedOk();
    LowerOfLower("ok");
    forall k | 0 <= k < |FinalApprovalWords| ensures !Contains("ok", FinalApprovalWords[k]) {
      assert 2 < |FinalApprovalWords[k]| by { assert k == 0 || k == 1 || k == 2 || k == 3; }
      if Contains("ok", FinalApprovalWords[k]) {
        ContainsLength("ok", FinalApprovalWords[k]);
      }
    }
  }

  lemma NormalizedNotGood()
    ensures Normalized("not good") == "not good"
  {
    LowerOfLower("not good");
    StripUnchanged("not good");
  }

  lemma NotGoodIsNoTeamWord()
    ensures "not good" !in TeamApprovalWords
  {
    assert "not good"[0] != TeamApprovalWords[1][0];
  }

  /** The substring test approves a reply that negates an approval word... */
  lemma {:induction false} NotGoodPassesFinal(timestamp: nat)
    ensures ValidateFinalReply("not good", timestamp).approved
  {
    LowerOfLower("not good");
    assert "not good"[4..8] == FinalApprovalWords[2];
    ContainsAt("not good", FinalApprovalWords[2], 4);
  }

  /** ...which the exact test of a team output rejects. */
  lemma {:induction false} NotGoodFailsTeam(timestamp: nat)
    ensures !ValidateTeamReply("not good", timestamp).approved
  {
    NormalizedNotGood();
    NotGoodIsNoTeamWord();
  }

  // ---------------------------------------------------------------------
  // The proxies and their logs
  // ---------------------------------------------------------------------

  /** What was asked, without its prose. */
  datatype Prompt =
    | ApprovalPrompt(decision: string, context: string)
    | ContextPrompt(currentContext: string)
    | ConstraintPrompt(proposed: seq<string>)
    | TeamValidationPrompt(team: string, agentsInvolved: seq<string>, domain: string, output: string)
    | CoordinationPrompt(teamOutputs: seq<(string, string)>, plan: string)
    | AllocationPrompt(requests: seq<(string, ResourceManagement.ResourceRequest)>)
    | FinalValidationPrompt(consolidatedOutput: string, contributions: seq<(string, string)>)

  datatype InterventionRecord = InterventionRecord(
    timestamp: nat,
    prompt: Prompt,
    response: string,
    role: string,
    teamContext: string)

  class EnhancedUserProxy {
    const name: string
    const role: string
    const teamContext: string
    var interventionHistory: seq<InterventionRecord>

    constructor (name: string, role: string, teamContext: string)
      ensures this.name == name && this.role == role && this.teamContext == teamContext
      ensures interventionHistory == []
    {
      this.name := name;
      this.role := role;
      this.teamContext := teamContext;
      interventionHistory := [];
    }

    /** `get_human_input`: the human's reply is returned unchanged and the
        exchange is logged, exactly once. */
    method GetHumanInput(prompt: Prompt, reply: string, timestamp: nat) returns (response: string)
      modifies this
      ensures response == reply
      ensures interventionHistory == old(interventionHistory) + [InterventionRecord(timestamp, prompt, reply, role, teamContext)]
    {
      response := reply;
      interventionHistory := interventionHistory + [InterventionRecord(timestamp, prompt, reply, role, teamContext)];
    }

    method RequestApproval(decision: string, context: string, reply: string, timestamp: nat)
      returns (r: InterventionResult)
      modifies this
      ensures r == ClassifyApproval(reply, timestamp)
      ensures interventionHistory ==
              old(interventionHistory) + [InterventionRecord(timestamp, ApprovalPrompt(decision, context), reply, role, teamContext)]
    {
      var response := GetHumanInput(ApprovalPrompt(decision, context), reply, timestamp);
      r := ClassifyApproval(response, timestamp);
    }

    method RequestContextAddition(currentContext: string, reply: string, timestamp: nat)
      returns (r: InterventionResult)
      modifies this
      ensures r == ClassifyContext(reply, timestamp)
      ensures interventionHistory ==
              old(interventionHistory) + [InterventionRecord(timestamp, ContextPrompt(currentContext), reply, role, teamContext)]
    {
      var response := GetHumanInput(ContextPrompt(currentContext), reply, timestamp);
      r := ClassifyContext(response, timestamp);
    }

    method RequestConstraintSetting(proposed: seq<string>, reply: string, timestamp: nat)
      returns (r: InterventionResult)
      modifies this
      ensures r == ClassifyConstraints(reply, proposed, timestamp)
      ensures interventionHistory ==
              old(interventionHistory) + [InterventionRecord(timestamp, ConstraintPrompt(proposed), reply, role, teamContext)]
    {
      var response := GetHumanInput(ConstraintPrompt(proposed), reply, timestamp);
      r := ClassifyConstraints(response, proposed, timestamp);
    }
  }

  class InnerTeamUserProxy {
    const teamName: string
    const domainExpertise: string
    const proxy: EnhancedUserProxy

    constructor (teamName: string, domainExpertise: string)
      ensures this.teamName == teamName && this.domainExpertise == domainExpertise
      ensures proxy.name == teamName + "_HumanExpert" && proxy.role == domainExpertise + " Expert"
      ensures proxy.teamContext == "Inner Team: " + teamName
      ensures proxy.interventionHistory == [] && fresh(proxy)
    {
      this.teamName := teamName;
      this.domainExpertise := domainExpertise;
      proxy := new EnhancedUserProxy(teamName + "_HumanExpert", domainExpertise + " Expert", "Inner Team: " + teamName);
    }

    /** `validate_team_output`. */
    method ValidateTeamOutput(output: string, agentsInvolved: seq<string>, reply: string, timestamp: nat)
      returns (r: InterventionResult)
      modifies proxy
      ensures r == ValidateTeamReply(reply, timestamp)
      ensures proxy.interventionHistory == old(proxy.interventionHistory) +
              [InterventionRecord(timestamp, TeamValidationPrompt(teamName, agentsInvolved, domainExpertise, output),
                                  reply, proxy.role, proxy.teamContext)]
    {
      var response := proxy.GetHumanInput(TeamValidationPrompt(teamName, agentsInvolved, domainExpertise, output),
                                          reply, timestamp);
      r := ValidateTeamReply(response, timestamp);
    }
  }

  datatype CoordinationDecision = CoordinationDecision(
    timestamp: nat, teamOutputs: seq<(string, string)>, coordinationPlan: string, humanDecision: string)

  datatype AllocationDecision = AllocationDecision(
    timestamp: nat, requests: seq<(string, ResourceManagement.ResourceRequest)>, allocationDecision: string)

  class OuterTeamUserProxy {
    const proxy: EnhancedUserProxy
    var teamCoordinationHistory: seq<CoordinationDecision>
    var resourceAllocationDecisions: seq<AllocationDecision>

    constructor ()
      ensures proxy.name == "ProjectDirector_Human" && proxy.role == "Project Director"
      ensures proxy.teamContext == "Outer Team: Project Coordination"
      ensures proxy.interventionHistory == [] && fresh(proxy)
      ensures teamCoordinationHistory == [] && resourceAllocationDecisions == []
    {
      proxy := new EnhancedUserProxy("ProjectDirector_Human", "Project Director", "Outer Team: Project Coordination");
      teamCoordinationHistory := [];
      resourceAllocationDecisions := [];
    }

    /** `coordinate_teams`: always approved; one log entry in each log. */
    method CoordinateTeams(teamOutputs: seq<(string, string)>, plan: string, reply: string, timestamp: nat)
      returns (r: InterventionResult)
      modifies this, proxy
      ensures r == Decision(true, reply, timestamp)
      ensures teamCoordinationHistory ==
              old(teamCoordinationHistory) + [CoordinationDecision(timestamp, teamOutputs, plan, reply)]
      ensures resourceAllocationDecisions == old(resourceAllocationDecisions)
      ensures proxy.interventionHistory == old(proxy.interventionHistory) +
              [InterventionRecord(timestamp, CoordinationPrompt(teamOutputs, plan), reply, proxy.role, proxy.teamContext)]
    {
      var response := proxy.GetHumanInput(CoordinationPrompt(teamOutputs, plan), reply, timestamp);
      teamCoordinationHistory := teamCoordinationHistory + [CoordinationDecision(timestamp, teamOutputs, plan, response)];
      r := Decision(true, response, timestamp);
    }

    /** `allocate_resources`: always approved; one log entry in each log. */
    method AllocateResources(requests: seq<(string, ResourceManagement.ResourceRequest)>, reply: string, timestamp: nat)
      returns (r: InterventionResult)
      modifies this, proxy
      ensures r == Decision(true, reply, timestamp)
      ensures resourceAllocationDecisions ==
              old(resourceAllocationDecisions) + [AllocationDecision(timestamp, requests, reply)]
      ensures teamCoordinationHistory == old(teamCoordinationHistory)
      ensures proxy.interventionHistory == old(proxy.interventionHistory) +
              [InterventionRecord(timestamp, AllocationPrompt(requests), reply, proxy.role, proxy.teamContext)]
    {
      var response := proxy.GetHumanInput(AllocationPrompt(requests), reply, timestamp);
      resourceAllocationDecisions := resourceAllocationDecisions + [AllocationDecision(timestamp, requests, response)];
      r := Decision(true, response, timestamp);
    }

    /** `validate_final_output`. */
    method ValidateFinalOutput(consolidated: string, contributions: seq<(string, string)>, reply: string, timestamp: nat)
      returns (r: InterventionResult)
      modifies proxy
      ensures r == ValidateFinalReply(reply, timestamp)
      ensures proxy.interventionHistory == old(proxy.interventionHistory) +
              [InterventionRecord(timestamp, FinalValidationPrompt(consolidated, contributions),
                                  reply, proxy.role, proxy.teamContext)]
    {
      var response := proxy.GetHumanInput(FinalValidationPrompt(consolidated, contributions), reply, timestamp);
      r := ValidateFinalReply(response, timestamp);
    }
  }

  // ---------------------------------------------------------------------
  // get_intervention_summary
  // ---------------------------------------------------------------------

  datatype InterventionKind = InnerTeam | OuterTeam

  datatype TimelineEntry = TimelineEntry(timestamp: nat, team: string, kind: InterventionKind, role: string)

  datatype InterventionSummary = InterventionSummary(
    totalInterventions: nat,
    innerTeamInterventions: seq<(string, nat)>,
    outerTeamInterventions: nat,
    timeline: seq<TimelineEntry>)

  function EntriesOf(history: seq<InterventionRecord>, team: string, kind: InterventionKind): (r: seq<TimelineEntry>)
    ensures |r| == |history|
    ensures forall k :: 0 <= k < |history| ==>
              r[k] == TimelineEntry(history[k].timestamp, team, kind, history[k].role)
  {
    seq(|history|, k requires 0 <= k < |history| => TimelineEntry(history[k].timestamp, team, kind, history[k].role))
  }

  function InnerCount(inner: seq<(string, seq<InterventionRecord>)>): nat {
    if inner == [] then 0 else InnerCount(inner[..|inner| - 1]) + |inner[|inner| - 1].1|
  }

  /** The timeline before sorting: inner teams in order, then the outer proxy. */
  function RawTimeline(inner: seq<(string, seq<InterventionRecord>)>): (r: seq<TimelineEntry>)
    ensures |r| == InnerCount(inner)
  {
    if inner == [] then []
    else RawTimeline(inner[..|inner| - 1]) + EntriesOf(inner[|inner| - 1].1, inner[|inner| - 1].0, InnerTeam)
  }

  /** The number of interventions of each inner team, in team order. */
  function TeamCounts(teams: seq<(string, seq<InterventionRecord>)>): (r: seq<(string, nat)>)
    ensures |r| == |teams| && forall k :: 0 <= k < |teams| ==> r[k] == (teams[k].0, |teams[k].1|)
  {
    if teams == [] then [] else TeamCounts(teams[..|teams| - 1]) + [(teams[|teams| - 1].0, |teams[|teams| - 1].1|)]
  }

  function TimestampKey(e: TimelineEntry): nat { e.timestamp }

  /** The summary over the inner proxies' histories (given by team name) and the
      outer proxy's history; an absent group contributes no history. */
  function SummaryOf(teams: seq<(string, seq<InterventionRecord>)>, outerHistory: seq<InterventionRecord>): InterventionSummary
  {
    var raw := RawTimeline(teams) + EntriesOf(outerHistory, "outer_coordination", OuterTeam);
    InterventionSummary(
      InnerCount(teams) + |outerHistory|,
      TeamCounts(teams),
      |outerHistory|,
      SortBy(raw, TimestampKey))
  }

  /** The total counts every intervention once; the timeline holds exactly the
      collected entries, sorted by time, entries with equal times kept in
      collection order. */
  lemma {:induction false} SummaryProperties(teams: seq<(string, seq<InterventionRecord>)>, outerHistory: seq<InterventionRecord>, t: nat)
    ensures var s := SummaryOf(teams, outerHistory);
            s.totalInterventions == InnerCount(teams) + s.outerTeamInterventions &&
            |s.timeline| == s.totalInterventions &&
            SortedBy(s.timeline, TimestampKey)
    ensures var raw := RawTimeline(teams) + EntriesOf(outerHistory, "outer_coordination", OuterTeam);
            multiset(SummaryOf(teams, outerHistory).timeline) == multiset(raw) &&
            WithKey(SummaryOf(teams, outerHistory).timeline, TimestampKey, t) == WithKey(raw, TimestampKey, t)
  {
    var raw := RawTimeline(teams) + EntriesOf(outerHistory, "outer_coordination", OuterTeam);
    SortBySorted(raw, TimestampKey);
    SortByPermutation(raw, TimestampKey);
    SortByStable(raw, TimestampKey, t);
  }

  function HistoriesOf(inner: seq<(string, InnerTeamUserProxy)>): (r: seq<(string, seq<InterventionRecord>)>)
    reads set k | 0 <= k < |inner| :: inner[k].1
    reads set k | 0 <= k < |inner| :: inner[k].1.proxy
    ensures |r| == |inner|
    ensures forall k :: 0 <= k < |inner| ==> r[k] == (inner[k].0, inner[k].1.proxy.interventionHistory)
  {
    if inner == [] then []
    else [(inner[0].0, inner[0].1.proxy.interventionHistory)] + HistoriesOf(inner[1..])
  }

  /** The inner loop of `get_intervention_summary`: one timeline entry per
      record of one history, in order. */
  method AppendEntries(timeline: seq<TimelineEntry>, history: seq<InterventionRecord>, team: string, kind: InterventionKind)
    returns (r: seq<TimelineEntry>)
    ensures r == timeline + EntriesOf(history, team, kind)
  {
    r := timeline;
    var j := 0;
    while j < |history|
      invariant 0 <= j <= |history|
      invariant r == timeline + EntriesOf(history[..j], team, kind)
    {
      assert EntriesOf(history[..j + 1], team, kind) ==
             EntriesOf(history[..j], team, kind) + [TimelineEntry(history[j].timestamp, team, kind, history[j].role)];
      r := r + [TimelineEntry(history[j].timestamp, team, kind, history[j].role)];
      j := j + 1;
    }
    assert history[..j] == history;
  }

  /** What the loop over the inner proxies has collected from `teams`. */
  predicate Collected(teams: seq<(string, seq<InterventionRecord>)>, total: nat, counts: seq<(string, nat)>,
                      timeline: seq<TimelineEntry>) {
    total == InnerCount(teams) && counts == TeamCounts(teams) && timeline == RawTimeline(teams)
  }

  /** One more inner team extends the counts and the timeline by its own. */
  lemma {:induction false} CollectStep(teams: seq<(string, seq<InterventionRecord>)>, i: nat, total: nat, counts: seq<(string, nat)>,
                    timeline: seq<TimelineEntry>, team: string, history: seq<InterventionRecord>)
    requires i < |teams| && teams[i] == (team, history) && Collected(teams[..i], total, counts, timeline)
    ensures Collected(teams[..i + 1], total + |history|, counts + [(team, |history|)],
                      timeline + EntriesOf(history, team, InnerTeam))
  {
    assert teams[..i + 1][..i] == teams[..i];
  }

  /** The inner collection followed by the outer entries is the summary. */
  lemma {:induction false} SummaryAssembled(teams: seq<(string, seq<InterventionRecord>)>, outerHistory: seq<InterventionRecord>,
                         total: nat, counts: seq<(string, nat)>, timeline: seq<TimelineEntry>,
                         outerEntries: seq<TimelineEntry>)
    requires Collected(teams, total, counts, timeline)
    requires outerEntries == [] + EntriesOf(outerHistory, "outer_coordination", OuterTeam)
    ensures SummaryOf(teams, outerHistory) ==
            InterventionSummary(total + |outerHistory|, counts, |outerHistory|, SortBy(timeline + outerEntries, TimestampKey))
  {
    assert [] + EntriesOf(outerHistory, "outer_coordination", OuterTeam) == EntriesOf(outerHistory, "outer_coordination", OuterTeam);
  }

  /** The loop of `get_intervention_summary` over the inner proxies. */
  method CollectInner(proxies: seq<(string, InnerTeamUserProxy)>)
    returns (total: nat, counts: seq<(string, nat)>, timeline: seq<TimelineEntry>)
    ensures Collected(HistoriesOf(proxies), total, counts, timeline)
  {
    ghost var teams := HistoriesOf(proxies);
    total, counts, timeline := 0, [], [];
    var i := 0;
    while i < |proxies|
      invariant 0 <= i <= |proxies| && Collected(teams[..i], total, counts, timeline)
    {
      var team := proxies[i].0;
      var history := proxies[i].1.proxy.interventionHistory;
      assert teams[i] == (team, history);
      CollectStep(teams, i, total, counts, timeline, team, history);
      counts := counts + [(team, |history|)];
      total := total + |history|;
      timeline := AppendEntries(timeline, history, team, InnerTeam);
      i := i + 1;
    }
    assert teams[..i] == teams;
  }

  /** `get_intervention_summary`: counts per inner team, the outer count, and
      the timeline collected in one pass and then sorted by time. */
  method GetInterventionSummary(inner: Option<seq<(string, InnerTeamUserProxy)>>, outer: Option<OuterTeamUserProxy>)
    returns (s: InterventionSummary)
    ensures s == SummaryOf(if inner.Some? then HistoriesOf(inner.value) else [],
                           if outer.Some? then outer.value.proxy.interventionHistory else [])
  {
    // The outer proxy's entries are gathered first and appended last, so that
    // the inner histories are read after the last call.
    var outerHistory: seq<InterventionRecord> := if outer.Some? then outer.value.proxy.interventionHistory else [];
    var outerCount := |outerHistory|;
    var outerEntries := AppendEntries([], outerHistory, "outer_coordination", OuterTeam);
    var total: nat := 0;
    var counts: seq<(string, nat)> := [];
    var timeline: seq<TimelineEntry> := [];
    if inner.Some? {
      total, counts, timeline := CollectInner(inner.value);
    }
    SummaryAssembled(if inner.Some? then HistoriesOf(inner.value) else [], outerHistory, total, counts, timeline, outerEntries);
    total := total + outerCount;
    timeline := timeline + outerEntries;
    s := InterventionSummary(total, counts, outerCount, SortBy(timeline, TimestampKey));
  }
}
