/**
 * `ReviewDecisionAgent` (agents/review_decision.py): a stand-in reviewer
 * that flips a review status between `"Approved"` and `"Changes Required"`
 * and writes it to `state.metadata["review_status"]`, so that plan loops
 * have a condition that changes. `json.loads` and `json.dumps` are
 * parameters.
 */
module ReviewDecision {
  import opened Text
  import opened Values
  import opened StateModels
  import opened BaseAgent

  /** `_create_default_metadata`. */
  function ReviewMetadata(): AgentMetadata {
    AgentMetadata("ReviewDecisionAgent", "Simulates human-in-the-loop review decisions for testing loops.",
                  ["review_decision"], ["question_context"], ["review_status"], [], "1.0.0")
  }

  /** `params = json.loads(task) if task else {}`, falling back to `{"raw": task}` when the text is not JSON. */
  function Params(tryParse: string -> Option<Value>, task: string): (p: Value)
    ensures task == "" ==> p == Dict(map[])
    ensures task != "" && tryParse(task).None? ==> p == Dict(map["raw" := Str(task)])
  {
    if task == "" then Dict(map[])
    else if tryParse(task).Some? then tryParse(task).value
    else Dict(map["raw" := Str(task)])
  }

  /** `prev`: the parameter when it is truthy, otherwise what the state's metadata holds. */
  function Previous(params: map<string, Value>, metadata: map<string, Value>): (prev: Value)
    ensures Truthy(Get(params, "previous_review_status")) ==> prev == params["previous_review_status"]
    ensures !Truthy(Get(params, "previous_review_status")) ==> prev == Get(metadata, "review_status")
  {
    Or(Get(params, "previous_review_status"), Get(metadata, "review_status"))
  }

  /** The toggle: approve after `"Changes Required"` or when there is nothing before, otherwise ask for changes. */
  function NextStatus(prev: Value): (s: string)
    ensures s == "Approved" <==> prev == Str("Changes Required") || prev == Null
    ensures s != "Approved" ==> s == "Changes Required"
  {
    if prev == Str("Changes Required") || prev == Null then "Approved" else "Changes Required"
  }

  /** The reply: `json.dumps({"review_status": new_status})`. */
  function Reply(dumps: Value -> string, status: string): string {
    dumps(Dict(map["review_status" := Str(status)]))
  }

  /**
   * `_execute_task(task, state)`. Parsed parameters that are not a dict make
   * `params.get` raise, which `run` reports.
   */
  function ReviewExecute(tryParse: string -> Option<Value>, dumps: Value -> string, task: string, st: StateRec): TaskOutcome {
    var params := Params(tryParse, task);
    if !params.Dict? then TaskRaised("'" + TypeName(params) + "' object has no attribute 'get'", st)
    else
      var status := NextStatus(Previous(params.fields, st.metadata));
      TaskDone(Reply(dumps, status), st.(metadata := st.metadata["review_status" := Str(status)]))
  }

  /** The agent `ReviewDecisionAgent()` builds. */
  method NewReviewDecisionAgent(tryParse: string -> Option<Value>, dumps: Value -> string,
                                convert: map<string, Value> -> Conversion, attrs: set<string>)
    returns (agent: Agent)
    ensures fresh(agent)
    ensures agent.metadata == ReviewMetadata() && agent.convert == convert && agent.attrs == attrs
    ensures forall task, st :: agent.execute(task, st) == ReviewExecute(tryParse, dumps, task, st)
  {
    agent := new Agent(ReviewMetadata(), (task, st) => ReviewExecute(tryParse, dumps, task, st), convert, attrs);
  }

  /** `_execute_task` on an `ExecutionState` object: the status is written to its metadata in place. */
  method ExecuteTask(tryParse: string -> Option<Value>, dumps: Value -> string, task: string, state: ExecutionState)
    returns (outcome: TaskOutcome)
    modifies state
    ensures outcome == ReviewExecute(tryParse, dumps, task, old(state.Rec()))
    ensures state.Rec() == outcome.st
  {
    var params := Params(tryParse, task);
    if !params.Dict? {
      return TaskRaised("'" + TypeName(params) + "' object has no attribute 'get'", state.Rec());
    }
    var prev := Previous(params.fields, state.metadata);
    var newStatus := NextStatus(prev);
    state.SetMetadata("review_status", Str(newStatus));
    outcome := TaskDone(Reply(dumps, newStatus), state.Rec());
  }

  // ----- properties -----

  /** The two statuses alternate: each call flips the other one. */
  lemma {:induction false} StatusAlternates(s: string)
    requires s == "Approved" || s == "Changes Required"
    ensures NextStatus(Str(s)) != s
    ensures NextStatus(Str(NextStatus(Str(s)))) == s
  {
  }

  /** After the call the state's metadata holds exactly the status in the reply. */
  lemma {:induction false} MetadataMatchesReply(tryParse: string -> Option<Value>, dumps: Value -> string, task: string, st: StateRec)
    requires ReviewExecute(tryParse, dumps, task, st).TaskDone?
    ensures exists status ::
      (status == "Approved" || status == "Changes Required")
      && ReviewExecute(tryParse, dumps, task, st).result == Reply(dumps, status)
      && ReviewExecute(tryParse, dumps, task, st).st.metadata == st.metadata["review_status" := Str(status)]
  {
    var params := Params(tryParse, task);
    var status := NextStatus(Previous(params.fields, st.metadata));
    assert status == "Approved" || status == "Changes Required";
  }

  /** A truthy `previous_review_status` in the parameters decides, whatever the metadata holds. */
  lemma {:induction false} ParameterTakesPrecedence(tryParse: string -> Option<Value>, dumps: Value -> string, task: string,
                                 st: StateRec, prev: Value)
    requires task != "" && tryParse(task).Some? && tryParse(task).value.Dict?
    requires Get(tryParse(task).value.fields, "previous_review_status") == prev && Truthy(prev)
    ensures ReviewExecute(tryParse, dumps, task, st).TaskDone?
    ensures ReviewExecute(tryParse, dumps, task, st).result == Reply(dumps, NextStatus(prev))
  {
  }

  /** A task that is not JSON falls back to the status in the metadata. */
  lemma {:induction false} RawTaskUsesMetadata(tryParse: string -> Option<Value>, dumps: Value -> string, task: string, st: StateRec)
    requires task != "" && tryParse(task).None?
    ensures ReviewExecute(tryParse, dumps, task, st).TaskDone?
    ensures ReviewExecute(tryParse, dumps, task, st).result == Reply(dumps, NextStatus(Get(st.metadata, "review_status")))
  {
    assert Get(map["raw" := Str(task)], "previous_review_status") == Null;
  }

  /**
   * Two calls with a task that is not JSON, the second on the state the
   * first left: the second reply carries the other status.
   */
  lemma {:induction false} ToggleAcrossRuns(tryParse: string -> Option<Value>, dumps: Value -> string, task: string, st: StateRec)
    requires task != "" && tryParse(task).None?
    ensures var first := ReviewExecute(tryParse, dumps, task, st);
      var second := ReviewExecute(tryParse, dumps, task, first.st);
      first.TaskDone? && second.TaskDone?
      && second.result == Reply(dumps, NextStatus(Str(NextStatus(Get(st.metadata, "review_status")))))
      && NextStatus(Str(NextStatus(Get(st.metadata, "review_status")))) != NextStatus(Get(st.metadata, "review_status"))
  {
    var first := ReviewExecute(tryParse, dumps, task, st);
    RawTaskUsesMetadata(tryParse, dumps, task, st);
    RawTaskUsesMetadata(tryParse, dumps, task, first.st);
    var s := NextStatus(Get(st.metadata, "review_status"));
    assert Get(first.st.metadata, "review_status") == Str(s);
    StatusAlternates(s);
  }
}
