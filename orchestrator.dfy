/**
 * `ClaudeOrchestrator` (core/claude_orchestrator.py): keyword rules that
 * turn a query into an ordered list of agent steps, and the text that
 * reports what each agent did. All tests run on the lower-cased query.
 */
module Orchestrator {
  import opened Text
  import opened Values

  /** The agents a plan can name; `AgentText` is the name the plan carries. */
  datatype AgentName =
    | ContractRepositorySearch | HighSpeedContractDataExtractor | ObligationRecurrenceRecommender
    | ServiceLevelComplianceEvaluator | ContractTemplateHarmonizer | GuidedContractCreationAssistant
    | DefinitionsConsistencyChecker | LegalResearchAssistant | PlaybookBuilder | SupplierOnboardingCopilot
    | TeamsCollaborationConnector | HumanAssistant

  function AgentText(a: AgentName): string {
    match a
    case ContractRepositorySearch => "ContractRepositorySearch"
    case HighSpeedContractDataExtractor => "HighSpeedContractDataExtractor"
    case ObligationRecurrenceRecommender => "ObligationRecurrenceRecommender"
    case ServiceLevelComplianceEvaluator => "ServiceLevelComplianceEvaluator"
    case ContractTemplateHarmonizer => "ContractTemplateHarmonizer"
    case GuidedContractCreationAssistant => "GuidedContractCreationAssistant"
    case DefinitionsConsistencyChecker => "DefinitionsConsistencyChecker"
    case LegalResearchAssistant => "LegalResearchAssistant"
    case PlaybookBuilder => "PlaybookBuilder"
    case SupplierOnboardingCopilot => "SupplierOnboardingCopilot"
    case TeamsCollaborationConnector => "TeamsCollaborationConnector"
    case HumanAssistant => "HumanAssistant"
  }

  /** One entry `{"agent": ..., "task": ...}` of an execution plan. */
  datatype PlanStep = PlanStep(agent: AgentName, task: string)

  /** `agent_capabilities`: the agents the orchestrator knows (by their `AgentText` names), with what each does. */
  function Capabilities(): map<AgentName, string> {
    map[
      ContractRepositorySearch := "Search and analyze contracts across repository",
      HighSpeedContractDataExtractor := "Extract specific data from contracts",
      ObligationRecurrenceRecommender := "Set up recurring obligation schedules",
      ServiceLevelComplianceEvaluator := "Evaluate SLA compliance",
      ContractTemplateHarmonizer := "Harmonize contract templates",
      GuidedContractCreationAssistant := "Create new contracts interactively",
      DefinitionsConsistencyChecker := "Check definition consistency",
      LegalResearchAssistant := "Provide legal research and guidance",
      PlaybookBuilder := "Build contract review playbooks",
      SupplierOnboardingCopilot := "Handle supplier onboarding",
      TeamsCollaborationConnector := "Integrate with Microsoft Teams",
      HumanAssistant := "Request clarification from user"]
  }

  /** `any(term in query for term in terms)`. */
  predicate AnyOccurs(query: string, terms: seq<string>) {
    exists i :: 0 <= i < |terms| && Contains(query, terms[i])
  }

  const CreationTerms: seq<string> := ["create contract with", "draft comprehensive", "new agreement with requirements",
                                        "build contract for", "generate contract with specific"]
  const AuditTerms: seq<string> := ["compliance audit", "review all contracts for", "audit sla performance",
                                     "check obligation compliance", "evaluate contract compliance"]
  const ReviewTerms: seq<string> := ["review contract thoroughly", "analyze contract completely",
                                      "comprehensive contract review", "full contract analysis"]
  const SupplierTerms: seq<string> := ["onboard new supplier", "supplier management", "vendor onboarding with contract"]
  const TemplateTerms: seq<string> := ["standardize templates", "harmonize contract templates", "unify contract formats"]

  predicate NeedsContractCreation(q: string) { AnyOccurs(q, CreationTerms) }
  predicate NeedsComplianceAudit(q: string) { AnyOccurs(q, AuditTerms) }
  predicate NeedsContractReview(q: string) { AnyOccurs(q, ReviewTerms) }
  predicate NeedsSupplierManagement(q: string) { AnyOccurs(q, SupplierTerms) }
  predicate NeedsTemplateWork(q: string) { AnyOccurs(q, TemplateTerms) }

  /** `_route_single_task`: the first keyword that occurs picks the agent; the task is the query itself. */
  function RouteSingleTask(query: string): (step: PlanStep)
    ensures step.task == query
  {
    var q := Lower(query);
    if Contains(q, "search") || Contains(q, "find contracts") then PlanStep(ContractRepositorySearch, query)
    else if Contains(q, "extract data") then PlanStep(HighSpeedContractDataExtractor, query)
    else if Contains(q, "create") && Contains(q, "contract") then PlanStep(GuidedContractCreationAssistant, query)
    else if Contains(q, "legal research") then PlanStep(LegalResearchAssistant, query)
    else if Contains(q, "supplier") then PlanStep(SupplierOnboardingCopilot, query)
    else if Contains(q, "sla") then PlanStep(ServiceLevelComplianceEvaluator, query)
    else if Contains(q, "obligation") then PlanStep(ObligationRecurrenceRecommender, query)
    else if Contains(q, "definition") then PlanStep(DefinitionsConsistencyChecker, query)
    else if Contains(q, "playbook") then PlanStep(PlaybookBuilder, query)
    else if Contains(q, "teams") then PlanStep(TeamsCollaborationConnector, query)
    else PlanStep(HumanAssistant, query)
  }

  /** The workflows, in the order they are tried. */
  datatype Workflow = Creation | Audit | Review | Supplier | Template | Single

  /** The first workflow whose test accepts the lower-cased query. */
  function WorkflowOf(q: string): Workflow {
    if NeedsContractCreation(q) then Creation
    else if NeedsComplianceAudit(q) then Audit
    else if NeedsContractReview(q) then Review
    else if NeedsSupplierManagement(q) then Supplier
    else if NeedsTemplateWork(q) then Template
    else Single
  }

  /** `if b: plan.append(step)`. */
  function AppendIf(plan: seq<PlanStep>, b: bool, step: PlanStep): (r: seq<PlanStep>)
    ensures b ==> r == plan + [step]
    ensures !b ==> r == plan
  {
    if b then plan + [step] else plan
  }

  /** The contract-creation steps for `query`, `q` being its lower-cased text. */
  function CreationSteps(query: string, q: string): seq<PlanStep> {
    var p0 := AppendIf([], Contains(q, "legal requirements") || Contains(q, "compliance"),
                       PlanStep(LegalResearchAssistant, "Research legal requirements for: " + query));
    var p1 := AppendIf(p0, Contains(q, "template") || Contains(q, "similar contracts"),
                       PlanStep(ContractRepositorySearch, "Find similar contract templates for: " + query));
    p1 + [PlanStep(GuidedContractCreationAssistant, "Create contract based on: " + query)]
       + [PlanStep(DefinitionsConsistencyChecker, "Validate definitions in created contract")]
  }

  function AuditSteps(query: string, q: string): seq<PlanStep> {
    var p0 := [PlanStep(ContractRepositorySearch, "Find all contracts for compliance review: " + query)];
    var p1 := AppendIf(p0, Contains(q, "sla"), PlanStep(ServiceLevelComplianceEvaluator, "Evaluate SLA compliance: " + query));
    var p2 := AppendIf(p1, Contains(q, "obligations"),
                       PlanStep(ObligationRecurrenceRecommender, "Review obligation compliance: " + query));
    p2 + [PlanStep(PlaybookBuilder, "Generate compliance report for: " + query)]
  }

  function ReviewSteps(query: string): seq<PlanStep> {
    [PlanStep(HighSpeedContractDataExtractor, "Extract key data from contract: " + query),
     PlanStep(DefinitionsConsistencyChecker, "Check definition consistency: " + query)]
  }

  function SupplierSteps(query: string, q: string): seq<PlanStep> {
    AppendIf([PlanStep(SupplierOnboardingCopilot, "Handle supplier onboarding: " + query)],
             Contains(q, "contract"), PlanStep(GuidedContractCreationAssistant, "Create supplier contract: " + query))
  }

  function TemplateSteps(query: string): seq<PlanStep> {
    [PlanStep(ContractRepositorySearch, "Find templates to standardize: " + query),
     PlanStep(ContractTemplateHarmonizer, "Harmonize contract templates: " + query)]
  }

  /** The steps of the selected workflow, before the `if not plan` default. */
  function WorkflowSteps(query: string): seq<PlanStep> {
    var q := Lower(query);
    match WorkflowOf(q)
    case Creation => CreationSteps(query, q)
    case Audit => AuditSteps(query, q)
    case Review => ReviewSteps(query)
    case Supplier => SupplierSteps(query, q)
    case Template => TemplateSteps(query)
    case Single => [RouteSingleTask(query)]
  }

  /** What `create_execution_plan(query)` returns. */
  function PlanFor(query: string): seq<PlanStep> {
    var steps := WorkflowSteps(query);
    if steps == [] then [PlanStep(HumanAssistant, "Need clarification for: " + query)] else steps
  }

  /** `create_execution_plan`: the first workflow whose test accepts the query appends its steps. */
  method CreateExecutionPlan(userQuery: string) returns (plan: seq<PlanStep>)
    ensures plan == PlanFor(userQuery)
  {
    var queryLower := Lower(userQuery);
    if NeedsContractCreation(queryLower) {
      plan := AppendCreationSteps(userQuery, queryLower);
      CreationCase(userQuery);
    } else if NeedsComplianceAudit(queryLower) {
      plan := AppendAuditSteps(userQuery, queryLower);
      AuditCase(userQuery);
    } else if NeedsContractReview(queryLower) {
      plan := AppendReviewSteps(userQuery);
      ReviewCase(userQuery);
    } else if NeedsSupplierManagement(queryLower) {
      plan := AppendSupplierSteps(userQuery, queryLower);
      SupplierCase(userQuery);
    } else if NeedsTemplateWork(queryLower) {
      plan := AppendTemplateSteps(userQuery);
      TemplateCase(userQuery);
    } else {
      plan := [RouteSingleTask(userQuery)];
      SingleCase(userQuery);
    }
    if plan == [] {
      plan := plan + [PlanStep(HumanAssistant, "Need clarification for: " + userQuery)];
    }
  }

  /** The appends of the contract-creation branch, on an empty plan. */
  method AppendCreationSteps(userQuery: string, queryLower: string) returns (plan: seq<PlanStep>)
    ensures plan == CreationSteps(userQuery, queryLower)
  {
    plan := [];
    ghost var legal := Contains(queryLower, "legal requirements") || Contains(queryLower, "compliance");
    if Contains(queryLower, "legal requirements") || Contains(queryLower, "compliance") {
      plan := plan + [PlanStep(LegalResearchAssistant, "Research legal requirements for: " + userQuery)];
    }
    assert plan == AppendIf([], legal, PlanStep(LegalResearchAssistant, "Research legal requirements for: " + userQuery));
    ghost var p0 := plan;
    ghost var similar := Contains(queryLower, "template") || Contains(queryLower, "similar contracts");
    if Contains(queryLower, "template") || Contains(queryLower, "similar contracts") {
      plan := plan + [PlanStep(ContractRepositorySearch, "Find similar contract templates for: " + userQuery)];
    }
    assert plan == AppendIf(p0, similar, PlanStep(ContractRepositorySearch, "Find similar contract templates for: " + userQuery));
    plan := plan + [PlanStep(GuidedContractCreationAssistant, "Create contract based on: " + userQuery)];
    plan := plan + [PlanStep(DefinitionsConsistencyChecker, "Validate definitions in created contract")];
  }

  /** The appends of the compliance-audit branch. */
  method AppendAuditSteps(userQuery: string, queryLower: string) returns (plan: seq<PlanStep>)
    ensures plan == AuditSteps(userQuery, queryLower)
  {
    plan := [PlanStep(ContractRepositorySearch, "Find all contracts for compliance review: " + userQuery)];
    ghost var p0 := plan;
    if Contains(queryLower, "sla") {
      plan := plan + [PlanStep(ServiceLevelComplianceEvaluator, "Evaluate SLA compliance: " + userQuery)];
    }
    assert plan == AppendIf(p0, Contains(queryLower, "sla"),
                            PlanStep(ServiceLevelComplianceEvaluator, "Evaluate SLA compliance: " + userQuery));
    ghost var p1 := plan;
    if Contains(queryLower, "obligations") {
      plan := plan + [PlanStep(ObligationRecurrenceRecommender, "Review obligation compliance: " + userQuery)];
    }
    assert plan == AppendIf(p1, Contains(queryLower, "obligations"),
                            PlanStep(ObligationRecurrenceRecommender, "Review obligation compliance: " + userQuery));
    plan := plan + [PlanStep(PlaybookBuilder, "Generate compliance report for: " + userQuery)];
  }

  /** The appends of the contract-review branch. */
  method AppendReviewSteps(userQuery: string) returns (plan: seq<PlanStep>)
    ensures plan == ReviewSteps(userQuery)
  {
    plan := [PlanStep(HighSpeedContractDataExtractor, "Extract key data from contract: " + userQuery)];
    plan := plan + [PlanStep(DefinitionsConsistencyChecker, "Check definition consistency: " + userQuery)];
  }

  /** The appends of the supplier branch. */
  method AppendSupplierSteps(userQuery: string, queryLower: string) returns (plan: seq<PlanStep>)
    ensures plan == SupplierSteps(userQuery, queryLower)
  {
    plan := [PlanStep(SupplierOnboardingCopilot, "Handle supplier onboarding: " + userQuery)];
    if Contains(queryLower, "contract") {
      plan := plan + [PlanStep(GuidedContractCreationAssistant, "Create supplier contract: " + userQuery)];
    }
  }

  /** The appends of the template branch. */
  method AppendTemplateSteps(userQuery: string) returns (plan: seq<PlanStep>)
    ensures plan == TemplateSteps(userQuery)
  {
    plan := [PlanStep(ContractRepositorySearch, "Find templates to standardize: " + userQuery)];
    plan := plan + [PlanStep(ContractTemplateHarmonizer, "Harmonize contract templates: " + userQuery)];
  }

  // The workflow steps, one selected workflow at a time.

  lemma {:induction false} CreationCase(query: string)
    requires NeedsContractCreation(Lower(query))
    ensures WorkflowSteps(query) == CreationSteps(query, Lower(query))
  {
  }

  lemma {:induction false} AuditCase(query: string)
    requires !NeedsContractCreation(Lower(query)) && NeedsComplianceAudit(Lower(query))
    ensures WorkflowSteps(query) == AuditSteps(query, Lower(query))
  {
  }

  lemma {:induction false} ReviewCase(query: string)
    requires !NeedsContractCreation(Lower(query)) && !NeedsComplianceAudit(Lower(query))
    requires NeedsContractReview(Lower(query))
    ensures WorkflowSteps(query) == ReviewSteps(query)
  {
  }

  lemma {:induction false} SupplierCase(query: string)
    requires !NeedsContractCreation(Lower(query)) && !NeedsComplianceAudit(Lower(query))
    requires !NeedsContractReview(Lower(query)) && NeedsSupplierManagement(Lower(query))
    ensures WorkflowSteps(query) == SupplierSteps(query, Lower(query))
  {
  }

  lemma {:induction false} TemplateCase(query: string)
    requires !NeedsContractCreation(Lower(query)) && !NeedsComplianceAudit(Lower(query))
    requires !NeedsContractReview(Lower(query)) && !NeedsSupplierManagement(Lower(query))
    requires NeedsTemplateWork(Lower(query))
    ensures WorkflowSteps(query) == TemplateSteps(query)
  {
  }

  lemma {:induction false} SingleCase(query: string)
    requires WorkflowOf(Lower(query)) == Single
    ensures WorkflowSteps(query) == [RouteSingleTask(query)]
  {
  }

  // ----- properties of the plans -----

  /** Every workflow adds at least one step, so the `HumanAssistant` default never applies and no plan is empty. */
  lemma {:induction false} PlanNonEmpty(query: string)
    ensures WorkflowSteps(query) != []
    ensures PlanFor(query) == WorkflowSteps(query)
    ensures |PlanFor(query)| >= 1
  {
  }

  /** Every agent a plan names is one the orchestrator knows. */
  lemma {:induction false} PlanAgentsKnown(query: string)
    ensures forall i :: 0 <= i < |PlanFor(query)| ==> PlanFor(query)[i].agent in Capabilities()
  {
    var p := PlanFor(query);
    forall i | 0 <= i < |p| ensures p[i].agent in Capabilities() {
      AgentKnown(p[i].agent);
    }
  }

  /** `agent_capabilities` has an entry for every agent name. */
  lemma {:induction false} AgentKnown(a: AgentName)
    ensures a in Capabilities()
  {
  }

  /** A creation plan ends with the creation assistant and then the definitions checker; legal research comes first exactly when asked for. */
  lemma {:induction false} CreationPlanShape(query: string)
    requires NeedsContractCreation(Lower(query))
    ensures var p := PlanFor(query);
      |p| >= 2
      && p[|p| - 2].agent == GuidedContractCreationAssistant
      && p[|p| - 1].agent == DefinitionsConsistencyChecker
      && (p[0].agent == LegalResearchAssistant
          <==> Contains(Lower(query), "legal requirements") || Contains(Lower(query), "compliance"))
  {
    PlanNonEmpty(query);
  }

  /**
   * An audit plan (no creation keyword) starts with the repository search
   * and ends with the playbook builder, with the SLA step and the
   * obligations step in between exactly when their keywords occur.
   */
  lemma {:induction false} AuditPlanShape(query: string)
    requires !NeedsContractCreation(Lower(query)) && NeedsComplianceAudit(Lower(query))
    ensures var p := PlanFor(query);
      |p| >= 2
      && p[0].agent == ContractRepositorySearch
      && p[|p| - 1].agent == PlaybookBuilder
      && |p| == 2 + (if Contains(Lower(query), "sla") then 1 else 0) + (if Contains(Lower(query), "obligations") then 1 else 0)
      && (Contains(Lower(query), "sla") ==> p[1].agent == ServiceLevelComplianceEvaluator)
      && (Contains(Lower(query), "obligations") ==> p[|p| - 2].agent == ObligationRecurrenceRecommender)
  {
    PlanNonEmpty(query);
  }

  /** A query no workflow test accepts becomes one step: the routed agent with the query itself as task. */
  lemma {:induction false} SinglePlanIsRouted(query: string)
    requires WorkflowOf(Lower(query)) == Single
    ensures PlanFor(query) == [RouteSingleTask(query)]
    ensures PlanFor(query)[0].task == query
  {
  }

  /** First match wins: a creation keyword decides the workflow whatever else the query says. */
  lemma {:induction false} CreationWins(query: string)
    requires NeedsContractCreation(Lower(query))
    ensures WorkflowOf(Lower(query)) == Creation
    ensures PlanFor(query)[|PlanFor(query)| - 1] == PlanStep(DefinitionsConsistencyChecker, "Validate definitions in created contract")
  {
    PlanNonEmpty(query);
  }

  /** The single-task route falls back to `HumanAssistant` only when no keyword occurs. */
  lemma {:induction false} RouteDefaultsToHuman(query: string)
    ensures RouteSingleTask(query).agent == HumanAssistant <==>
      var q := Lower(query);
      !(Contains(q, "search") || Contains(q, "find contracts") || Contains(q, "extract data")
        || (Contains(q, "create") && Contains(q, "contract")) || Contains(q, "legal research")
        || Contains(q, "supplier") || Contains(q, "sla") || Contains(q, "obligation")
        || Contains(q, "definition") || Contains(q, "playbook") || Contains(q, "teams"))
  {
  }

  /** `search` is tested first: it wins over every later keyword. */
  lemma {:induction false} SearchRoutesFirst(query: string)
    requires Contains(Lower(query), "search")
    ensures RouteSingleTask(query) == PlanStep(ContractRepositorySearch, query)
  {
  }

  // ----- `synthesize_response` -----

  /** `str(x)`: the text of a string, the Python text of a scalar, `show` for a container. */
  function ValueText(v: Value, show: Value -> string): string {
    if v.Str? then v.s else if IsScalar(v) then ScalarText(v) else show(v)
  }

  /** `result.get(key, default)` turned into text. */
  function FieldText(m: map<string, Value>, key: string, default: string, show: Value -> string): (t: string)
    ensures key !in m ==> t == default
  {
    if key in m then ValueText(m[key], show) else default
  }

  function Header(query: string): string {
    "**Claude Orchestrator for:** " + query + "\n"
  }

  /** The line for the `i`-th result (counting from 1). */
  function ResultLine(i: nat, result: map<string, Value>, show: Value -> string): string {
    NatToString(i) + ". " + FieldText(result, "agent_name", "Unknown", show)
      + " received '" + FieldText(result, "task_description", "Unknown task", show)
      + "' and performed task to generate: " + FieldText(result, "result", "No output", show)
  }

  /**
   * What `enumerate` goes through for `agent_results`: a list, or nothing
   * for an empty string or dict; `None` where the loop would raise (no
   * iterable, or an entry that is not a dict and so has no `get`).
   */
  function ResultEntries(executionResults: map<string, Value>): (es: Option<seq<map<string, Value>>>)
  {
    var v := if "agent_results" in executionResults then executionResults["agent_results"] else List([]);
    if v == Str("") || v == Dict(map[]) then Some([])
    else if v.List? && forall i :: 0 <= i < |v.items| ==> v.items[i].Dict? then
      Some(seq(|v.items|, i requires 0 <= i < |v.items| && v.items[i].Dict? => v.items[i].fields))
    else None
  }

  /** The parts joined into the response: the header, then one numbered line per result. */
  function ResponseParts(query: string, entries: seq<map<string, Value>>, show: Value -> string): (parts: seq<string>)
    ensures |parts| == |entries| + 1
    ensures parts[0] == Header(query)
    ensures forall i :: 1 <= i < |parts| ==> parts[i] == ResultLine(i, entries[i - 1], show)
  {
    [Header(query)] + seq(|entries|, i requires 0 <= i < |entries| => ResultLine(i + 1, entries[i], show))
  }

  /** `synthesize_response`: `None` where it would raise. */
  method SynthesizeResponse(initialQuery: string, executionResults: map<string, Value>, show: Value -> string)
    returns (response: Option<string>)
    ensures ResultEntries(executionResults).None? ==> response.None?
    ensures ResultEntries(executionResults).Some? ==>
      response == Some(Join(ResponseParts(initialQuery, ResultEntries(executionResults).value, show), "\n"))
  {
    var entries := ResultEntries(executionResults);
    if entries.None? {
      return None;
    }
    var results := entries.value;
    var responseParts := [Header(initialQuery)];
    var i := 0;
    while i < |results|
      invariant 0 <= i <= |results|
      invariant |responseParts| == i + 1
      invariant responseParts[0] == Header(initialQuery)
      invariant forall k :: 1 <= k <= i ==> responseParts[k] == ResultLine(k, results[k - 1], show)
    {
      var agentName := FieldText(results[i], "agent_name", "Unknown", show);
      var task := FieldText(results[i], "task_description", "Unknown task", show);
      var output := FieldText(results[i], "result", "No output", show);
      responseParts := responseParts + [NatToString(i + 1) + ". " + agentName + " received '" + task
                                        + "' and performed task to generate: " + output];
      i := i + 1;
    }
    assert responseParts == ResponseParts(initialQuery, results, show);
    return Some(Join(responseParts, "\n"));
  }
}
