/**
 * `BaseAgent` and `AgentRegistry` (core/base_agent.py): the wrapper every
 * agent's `run` goes through (input checks, the input-requirement check,
 * recording the outcome in the execution state, turning every exception
 * into an error text) and the name-to-agent registry.
 *
 * What an agent does itself (`_execute_task`) and the conversion of a
 * legacy state dict into an `ExecutionState` are parameters of an agent.
 */
module BaseAgent {
  import opened Text
  import opened Values
  import opened StateModels

  /** `AgentMetadata`. */
  datatype AgentMetadata = AgentMetadata(
    name: string,
    description: string,
    capabilities: seq<string>,
    inputRequirements: seq<string>,
    outputTypes: seq<string>,
    dependencies: seq<string>,
    version: string)

  /** What `_execute_task(task, state)` does: returns a text or raises, having updated the state either way. */
  datatype TaskOutcome = TaskDone(result: string, st: StateRec) | TaskRaised(msg: string, st: StateRec)

  /** What `_convert_legacy_state(state)` gives: an execution state, or the text of what it raised. */
  datatype Conversion = Converted(st: StateRec) | ConversionRaised(msg: string)

  /**
   * What `run` returns, and the execution state it built and recorded the
   * outcome in (`None` when it failed before that state existed).
   */
  datatype RunOutcome = RunOutcome(reply: string, recorded: Option<StateRec>)

  // ----- `_validate_inputs` -----

  /**
   * A requirement is missing when it is not a metadata key, not an
   * attribute of the state and its lower-case form does not occur in the
   * lower-cased task.
   */
  predicate IsMissing(req: string, metadataKeys: set<string>, attrs: set<string>, task: string) {
    req !in metadataKeys && req !in attrs && !Contains(Lower(task), Lower(req))
  }

  /** The missing requirements, in their order. */
  function MissingInputs(reqs: seq<string>, metadataKeys: set<string>, attrs: set<string>, task: string): (m: seq<string>)
    ensures forall x :: x in m <==> x in reqs && IsMissing(x, metadataKeys, attrs, task)
    ensures |m| <= |reqs|
  {
    if reqs == [] then []
    else
      var first := if IsMissing(reqs[0], metadataKeys, attrs, task) then [reqs[0]] else [];
      first + MissingInputs(reqs[1..], metadataKeys, attrs, task)
  }

  /** `MissingInputs` on the suffix `reqs[i..]`. */
  lemma {:induction false} MissingUnfold(reqs: seq<string>, i: nat, metadataKeys: set<string>, attrs: set<string>, task: string)
    requires i < |reqs|
    ensures MissingInputs(reqs[i..], metadataKeys, attrs, task) ==
      (if IsMissing(reqs[i], metadataKeys, attrs, task) then [reqs[i]] else [])
      + MissingInputs(reqs[i + 1..], metadataKeys, attrs, task)
  {
    assert reqs[i..][0] == reqs[i];
    assert reqs[i..][1..] == reqs[i + 1..];
  }

  /** Nothing is missing exactly when no requirement is. */
  lemma {:induction false} NoneMissing(reqs: seq<string>, metadataKeys: set<string>, attrs: set<string>, task: string)
    ensures MissingInputs(reqs, metadataKeys, attrs, task) == []
            <==> forall x :: x in reqs ==> !IsMissing(x, metadataKeys, attrs, task)
  {
    var m := MissingInputs(reqs, metadataKeys, attrs, task);
    if m != [] {
      assert m[0] in m;
    }
  }

  /** Python's `str()` of a list of strings (the texts are assumed free of quotes and backslashes). */
  function ListText(xs: seq<string>): string {
    "[" + Join(seq(|xs|, i requires 0 <= i < |xs| => "'" + xs[i] + "'"), ", ") + "]"
  }

  function MissingMessage(missing: seq<string>): string {
    "Missing required inputs: " + ListText(missing)
  }

  /** The text `run` returns for an exception. */
  function ErrorText(name: string, msg: string): string {
    "Error in " + name + ": " + msg
  }

  /** `_validate_inputs`: `None` when it passes, otherwise the text of the `ValueError` it raises. */
  function Validation(reqs: seq<string>, st: StateRec, attrs: set<string>, task: string): (err: Option<string>)
    ensures err.None? <==> forall x :: x in reqs ==> !IsMissing(x, st.metadata.Keys, attrs, task)
    ensures err.Some? ==> err.value == MissingMessage(MissingInputs(reqs, st.metadata.Keys, attrs, task))
  {
    var missing := MissingInputs(reqs, st.metadata.Keys, attrs, task);
    NoneMissing(reqs, st.metadata.Keys, attrs, task);
    if missing == [] then None else Some(MissingMessage(missing))
  }

  // ----- `run` -----

  /**
   * `run(task, state)`: the two input checks, the conversion, the
   * requirement check and the task; `execution_state` exists once the
   * conversion succeeded, and from then on every outcome is recorded in it.
   */
  function RunSpec(meta: AgentMetadata, execute: (string, StateRec) -> TaskOutcome,
                   convert: map<string, Value> -> Conversion, attrs: set<string>,
                   task: string, state: Value): RunOutcome
  {
    if task == "" then RunOutcome(ErrorText(meta.name, "Task must be a non-empty string"), None)
    else if !state.Dict? then RunOutcome(ErrorText(meta.name, "State must be a dictionary"), None)
    else
      match convert(state.fields)
      case ConversionRaised(m) => RunOutcome(ErrorText(meta.name, m), None)
      case Converted(st) =>
        var err := Validation(meta.inputRequirements, st, attrs, task);
        if err.Some? then
          RunOutcome(ErrorText(meta.name, err.value),
                     Some(AddResult(st, AgentResult(meta.name, task, ErrorText(meta.name, err.value), Failed, err))))
        else
          match execute(task, st)
          case TaskRaised(m, st2) =>
            RunOutcome(ErrorText(meta.name, m),
                       Some(AddResult(st2, AgentResult(meta.name, task, ErrorText(meta.name, m), Failed, Some(m)))))
          case TaskDone(res, st2) =>
            RunOutcome(res, Some(AddResult(st2, AgentResult(meta.name, task, res, Completed, None))))
  }

  /** An agent: its metadata, its `_execute_task`, and what the wrapper needs to build a state. */
  class Agent {
    const metadata: AgentMetadata
    const execute: (string, StateRec) -> TaskOutcome
    /** `_convert_legacy_state` (it draws a fresh `uuid4` when the dict has no session id). */
    const convert: map<string, Value> -> Conversion
    /** The names `hasattr` finds on an `ExecutionState`. */
    const attrs: set<string>

    constructor (metadata: AgentMetadata, execute: (string, StateRec) -> TaskOutcome,
                 convert: map<string, Value> -> Conversion, attrs: set<string>)
      ensures this.metadata == metadata && this.execute == execute
      ensures this.convert == convert && this.attrs == attrs
    {
      this.metadata := metadata;
      this.execute := execute;
      this.convert := convert;
      this.attrs := attrs;
    }

    /** `get_name`. */
    function GetName(): (name: string)
      ensures name == metadata.name
    {
      metadata.name
    }

    /** `_validate_inputs`: the loop collecting `missing_requirements`. */
    method ValidateInputs(task: string, state: ExecutionState) returns (err: Option<string>)
      ensures err == Validation(metadata.inputRequirements, state.Rec(), attrs, task)
    {
      var reqs := metadata.inputRequirements;
      var missing: seq<string> := [];
      var i := 0;
      while i < |reqs|
        invariant 0 <= i <= |reqs|
        invariant MissingInputs(reqs, state.metadata.Keys, attrs, task)
                  == missing + MissingInputs(reqs[i..], state.metadata.Keys, attrs, task)
      {
        MissingUnfold(reqs, i, state.metadata.Keys, attrs, task);
        ghost var rest := MissingInputs(reqs[i + 1..], state.metadata.Keys, attrs, task);
        var requirement := reqs[i];
        if requirement !in state.metadata && requirement !in attrs && !Contains(Lower(task), Lower(requirement)) {
          assert missing + ([requirement] + rest) == (missing + [requirement]) + rest;
          missing := missing + [requirement];
        } else {
          assert [] + rest == rest;
        }
        i := i + 1;
      }
      assert reqs[i..] == [];
      assert missing == MissingInputs(reqs, state.metadata.Keys, attrs, task);
      assert state.Rec().metadata == state.metadata;
      if missing != [] {
        return Some(MissingMessage(missing));
      }
      return None;
    }

    /**
     * `run`: never raises. Besides the reply it hands back the value of the
     * execution state it recorded the outcome in, when that state exists.
     */
    method Run(task: string, state: Value) returns (reply: string, recorded: Option<StateRec>)
      ensures RunOutcome(reply, recorded) == RunSpec(metadata, execute, convert, attrs, task, state)
    {
      if task == "" {
        return ErrorText(metadata.name, "Task must be a non-empty string"), None;
      }
      if !state.Dict? {
        return ErrorText(metadata.name, "State must be a dictionary"), None;
      }
      var conversion := convert(state.fields);
      if conversion.ConversionRaised? {
        return ErrorText(metadata.name, conversion.msg), None;
      }
      var executionState := new ExecutionState(conversion.st);
      var err := ValidateInputs(task, executionState);
      if err.Some? {
        reply := ErrorText(metadata.name, err.value);
        executionState.AddAgentResult(metadata.name, task, reply, Failed, err);
        return reply, Some(executionState.Rec());
      }
      var outcome := execute(task, executionState.Rec());
      executionState.SetRec(outcome.st);
      match outcome {
        case TaskRaised(m, _) =>
          reply := ErrorText(metadata.name, m);
          executionState.AddAgentResult(metadata.name, task, reply, Failed, Some(m));
        case TaskDone(res, _) =>
          reply := res;
          executionState.AddAgentResult(metadata.name, task, res, Completed, None);
      }
      recorded := Some(executionState.Rec());
    }
  }

  // ----- properties of `run` and `_validate_inputs` -----

  /** A requirement is reported missing exactly when all three lookups fail. */
  lemma {:induction false} ValidationReportsMissing(reqs: seq<string>, st: StateRec, attrs: set<string>, task: string, req: string)
    requires Validation(reqs, st, attrs, task).Some?
    ensures req in MissingInputs(reqs, st.metadata.Keys, attrs, task)
        <==> req in reqs && req !in st.metadata && req !in attrs && !Contains(Lower(task), Lower(req))
  {
  }

  /** The check raises exactly when some requirement is missing. */
  lemma {:induction false} ValidationRaisesIffMissing(reqs: seq<string>, st: StateRec, attrs: set<string>, task: string)
    ensures Validation(reqs, st, attrs, task).Some? <==> exists x :: x in reqs && IsMissing(x, st.metadata.Keys, attrs, task)
  {
  }

  /** An empty task or a state that is not a dict gives an error text and records nothing. */
  lemma {:induction false} RunRejectsBadInputs(meta: AgentMetadata, execute: (string, StateRec) -> TaskOutcome,
                            convert: map<string, Value> -> Conversion, attrs: set<string>, task: string, state: Value)
    requires task == "" || !state.Dict?
    ensures RunSpec(meta, execute, convert, attrs, task, state).recorded.None?
    ensures task == "" ==> RunSpec(meta, execute, convert, attrs, task, state).reply
                           == ErrorText(meta.name, "Task must be a non-empty string")
    ensures task != "" ==> RunSpec(meta, execute, convert, attrs, task, state).reply
                           == ErrorText(meta.name, "State must be a dictionary")
  {
  }

  /** A task that returns is recorded as one `COMPLETED` result after what the task left in the state. */
  lemma {:induction false} RunRecordsSuccess(meta: AgentMetadata, execute: (string, StateRec) -> TaskOutcome,
                          convert: map<string, Value> -> Conversion, attrs: set<string>, task: string, state: Value)
    requires task != "" && state.Dict? && convert(state.fields).Converted?
    requires Validation(meta.inputRequirements, convert(state.fields).st, attrs, task).None?
    requires execute(task, convert(state.fields).st).TaskDone?
    ensures RunSpec(meta, execute, convert, attrs, task, state).reply == execute(task, convert(state.fields).st).result
    ensures RunSpec(meta, execute, convert, attrs, task, state).recorded.Some?
    ensures RunSpec(meta, execute, convert, attrs, task, state).recorded.value.results
            == execute(task, convert(state.fields).st).st.results
               + [AgentResult(meta.name, task, execute(task, convert(state.fields).st).result, Completed, None)]
  {
  }

  /**
   * Every failure once the state exists is recorded as one `FAILED` result
   * whose error message is the exception's text and whose result is the reply.
   */
  lemma {:induction false} RunRecordsFailure(meta: AgentMetadata, execute: (string, StateRec) -> TaskOutcome,
                          convert: map<string, Value> -> Conversion, attrs: set<string>, task: string, state: Value)
    requires task != "" && state.Dict? && convert(state.fields).Converted?
    requires Validation(meta.inputRequirements, convert(state.fields).st, attrs, task).Some?
             || execute(task, convert(state.fields).st).TaskRaised?
    ensures RunSpec(meta, execute, convert, attrs, task, state).recorded.Some?
    ensures StartsWith(RunSpec(meta, execute, convert, attrs, task, state).reply, "Error in " + meta.name + ": ")
    ensures var o := RunSpec(meta, execute, convert, attrs, task, state);
      o.recorded.Some? && |o.recorded.value.results| >= 1
      && o.recorded.value.results[|o.recorded.value.results| - 1].status == Failed
      && o.recorded.value.results[|o.recorded.value.results| - 1].result == o.reply
      && o.recorded.value.results[|o.recorded.value.results| - 1].errorMessage.Some?
      && o.reply == ErrorText(meta.name, o.recorded.value.results[|o.recorded.value.results| - 1].errorMessage.value)
  {
    var st := convert(state.fields).st;
    var o := RunSpec(meta, execute, convert, attrs, task, state);
    assert StartsWith(o.reply, "Error in " + meta.name + ": ") by {
      var err := Validation(meta.inputRequirements, st, attrs, task);
      var m := if err.Some? then err.value else execute(task, st).msg;
      assert o.reply == ("Error in " + meta.name + ": ") + m;
    }
  }

  // ----- the registry -----

  /** The registered agents that list `capability`. */
  function WithCapability(agents: map<string, Agent>, capability: string): (m: map<string, Agent>)
    ensures forall k :: k in m <==> k in agents && capability in agents[k].metadata.capabilities
    ensures forall k :: k in m ==> m[k] == agents[k]
  {
    map k | k in agents && capability in agents[k].metadata.capabilities :: agents[k]
  }

  /** `AgentRegistry`: the `_agents` dict updated in place. */
  class AgentRegistry {
    var agents: map<string, Agent>

    constructor ()
      ensures agents == map[]
    {
      agents := map[];
    }

    /** `register`: stored under the agent's own name, replacing an earlier one of that name. */
    method Register(agent: Agent)
      modifies this
      ensures agents == old(agents)[agent.GetName() := agent]
      ensures GetAgent(agent.GetName()) == Some(agent)
      ensures forall k :: k != agent.GetName() ==> GetAgent(k) == old(GetAgent(k))
    {
      agents := agents[agent.GetName() := agent];
    }

    /** `get_agent`. */
    function GetAgent(name: string): (a: Option<Agent>)
      reads this
      ensures name in agents ==> a == Some(agents[name])
      ensures name !in agents ==> a == None
    {
      if name in agents then Some(agents[name]) else None
    }

    /** `list_agents`: each name with its agent's metadata. */
    function ListAgents(): (m: map<string, AgentMetadata>)
      reads this
      ensures m.Keys == agents.Keys
      ensures forall k :: k in m ==> m[k] == agents[k].metadata
    {
      map k | k in agents :: agents[k].metadata
    }

    /** `get_agents_by_capability`: the loop over `_agents.items()`. */
    method GetAgentsByCapability(capability: string) returns (matching: map<string, Agent>)
      ensures matching == WithCapability(agents, capability)
    {
      matching := map[];
      var remaining := agents.Keys;
      while remaining != {}
        invariant remaining <= agents.Keys
        invariant forall k :: k in matching <==> k in agents && k !in remaining && capability in agents[k].metadata.capabilities
        invariant forall k :: k in matching ==> matching[k] == agents[k]
        decreases remaining
      {
        var name :| name in remaining;
        if capability in agents[name].metadata.capabilities {
          matching := matching[name := agents[name]];
        }
        remaining := remaining - {name};
      }
    }

    /** `clear`. */
    method Clear()
      modifies this
      ensures agents == map[]
      ensures forall k :: GetAgent(k) == None
    {
      agents := map[];
    }
  }
}
