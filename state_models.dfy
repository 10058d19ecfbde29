/**
 * The records of core/state_models.py: the execution state that collects
 * agent results and counts finished steps, and the conversation memory that
 * keeps turns and formats the recent ones.
 *
 * Timestamps are integers supplied by the caller (there is no clock).
 */
module StateModels {
  import opened Text
  import opened Values

  datatype TaskStatus = Pending | InProgress | Completed | Failed

  /** One agent execution as recorded in the state (its timestamp is not modelled). */
  datatype AgentResult = AgentResult(
    agentName: string,
    taskDescription: string,
    result: string,
    status: TaskStatus,
    errorMessage: Option<string>)

  /** The value of an `ExecutionState`: the fields the modelled code reads or writes. */
  datatype StateRec = StateRec(
    sessionId: string,
    originalQuery: string,
    results: seq<AgentResult>,
    currentStep: int,
    totalSteps: int,
    endTime: Option<int>,
    metadata: map<string, Value>)

  /** The statuses that finish a step. */
  predicate FinishesStep(status: TaskStatus) {
    status == Completed || status == Failed
  }

  /** `add_agent_result` on the value of a state. */
  function AddResult(s: StateRec, r: AgentResult): (t: StateRec)
    ensures t.results == s.results + [r]
    ensures t.currentStep == s.currentStep + (if FinishesStep(r.status) then 1 else 0)
    ensures t.(results := s.results, currentStep := s.currentStep) == s
  {
    s.(results := s.results + [r], currentStep := s.currentStep + (if FinishesStep(r.status) then 1 else 0))
  }

  /** `is_completed` on the value of a state. */
  predicate Completes(s: StateRec) {
    s.currentStep >= s.totalSteps
  }

  /** `mark_completed` on the value of a state. */
  function MarkCompletedRec(s: StateRec, now: int): (t: StateRec)
    ensures s.endTime.None? ==> t == s.(endTime := Some(now))
    ensures s.endTime.Some? ==> t == s
  {
    if s.endTime.None? then s.(endTime := Some(now)) else s
  }

  /** The entries of `rs` whose agent name is `name`, in their order. */
  function WithName(rs: seq<AgentResult>, name: string): (out: seq<AgentResult>)
    ensures |out| <= |rs|
    ensures forall x :: x in out ==> x in rs && x.agentName == name
    ensures forall x :: x in rs && x.agentName == name ==> x in out
  {
    if rs == [] then []
    else (if rs[0].agentName == name then [rs[0]] else []) + WithName(rs[1..], name)
  }

  /** The entries of `rs` whose status is `Failed`, in their order. */
  function FailedOnly(rs: seq<AgentResult>): (out: seq<AgentResult>)
    ensures |out| <= |rs|
    ensures forall x :: x in out ==> x in rs && x.status == Failed
    ensures forall x :: x in rs && x.status == Failed ==> x in out
  {
    if rs == [] then []
    else (if rs[0].status == Failed then [rs[0]] else []) + FailedOnly(rs[1..])
  }

  /** Filtering by name is a homomorphism of concatenation: it keeps order and multiplicity. */
  lemma {:induction false} WithNameAppend(a: seq<AgentResult>, b: seq<AgentResult>, name: string)
    ensures WithName(a + b, name) == WithName(a, name) + WithName(b, name)
    decreases |a|
  {
    if a == [] {
      assert a + b == b;
    } else {
      assert (a + b)[1..] == a[1..] + b;
      assert (a + b)[0] == a[0];
      WithNameAppend(a[1..], b, name);
    }
  }

  /** Filtering by failure is a homomorphism of concatenation: it keeps order and multiplicity. */
  lemma {:induction false} FailedOnlyAppend(a: seq<AgentResult>, b: seq<AgentResult>)
    ensures FailedOnly(a + b) == FailedOnly(a) + FailedOnly(b)
    decreases |a|
  {
    if a == [] {
      assert a + b == b;
    } else {
      assert (a + b)[1..] == a[1..] + b;
      assert (a + b)[0] == a[0];
      FailedOnlyAppend(a[1..], b);
    }
  }

  /** Recording a result adds it to the filtered views it belongs to, at their end. */
  lemma {:induction false} AddResultFilters(s: StateRec, r: AgentResult, name: string)
    ensures WithName(AddResult(s, r).results, name)
         == WithName(s.results, name) + (if r.agentName == name then [r] else [])
    ensures FailedOnly(AddResult(s, r).results)
         == FailedOnly(s.results) + (if r.status == Failed then [r] else [])
  {
    WithNameSnoc(s.results, r, name);
    FailedOnlySnoc(s.results, r);
  }

  /** Appending one result extends the name filter by it exactly when the name matches. */
  lemma {:induction false} WithNameSnoc(rs: seq<AgentResult>, r: AgentResult, name: string)
    ensures WithName(rs + [r], name) == WithName(rs, name) + (if r.agentName == name then [r] else [])
  {
    WithNameAppend(rs, [r], name);
    assert [r][1..] == [];
    assert WithName([r], name) == (if r.agentName == name then [r] else []) + WithName([], name);
  }

  /** Appending one result extends the failed filter by it exactly when it failed. */
  lemma {:induction false} FailedOnlySnoc(rs: seq<AgentResult>, r: AgentResult)
    ensures FailedOnly(rs + [r]) == FailedOnly(rs) + (if r.status == Failed then [r] else [])
  {
    FailedOnlyAppend(rs, [r]);
    assert [r][1..] == [];
    assert FailedOnly([r]) == (if r.status == Failed then [r] else []) + FailedOnly([]);
  }

  /** Recording results never makes a completed state incomplete. */
  lemma {:induction false} CompletionIsStable(s: StateRec, r: AgentResult)
    requires Completes(s)
    ensures Completes(AddResult(s, r))
  {
  }

  /** Marking completion twice keeps the first time. */
  lemma {:induction false} MarkCompletedIdempotent(s: StateRec, t1: int, t2: int)
    ensures MarkCompletedRec(MarkCompletedRec(s, t1), t2) == MarkCompletedRec(s, t1)
    ensures MarkCompletedRec(s, t1).endTime.Some?
  {
  }

  /**
   * The construction-time check of `current_step`, as it behaves: the
   * validator reads `total_steps` from the fields validated before it, and
   * `current_step` is declared first, so the bound it compares with is the
   * default 0. It runs only when `current_step` is given explicitly.
   */
  function CreateAsWritten(sessionId: string, query: string, currentStep: Option<int>, totalSteps: int): (r: Option<StateRec>)
    ensures r.Some? <==> (currentStep.None? || currentStep.value <= 0)
  {
    var step := if currentStep.Some? then currentStep.value else 0;
    if currentStep.Some? && step > 0 then None
    else Some(StateRec(sessionId, query, [], step, totalSteps, None, map[]))
  }

  /** The check the validator's message describes: a given `current_step` may not exceed `total_steps`. */
  function Create(sessionId: string, query: string, currentStep: Option<int>, totalSteps: int): (r: Option<StateRec>)
    ensures r.Some? <==> (currentStep.None? || currentStep.value <= totalSteps)
    ensures r.Some? ==>
      (r.value.results == [] && r.value.totalSteps == totalSteps && r.value.endTime.None?
       && r.value.currentStep == (if currentStep.Some? then currentStep.value else 0))
  {
    var step := if currentStep.Some? then currentStep.value else 0;
    if currentStep.Some? && step > totalSteps then None
    else Some(StateRec(sessionId, query, [], step, totalSteps, None, map[]))
  }

  /** A state built with `current_step=1, total_steps=3` is refused as written and accepted as intended. */
  lemma {:induction false} CreateCounterexample()
    ensures CreateAsWritten("s", "q", Some(1), 3).None?
    ensures Create("s", "q", Some(1), 3).Some?
  {
  }

  /** `ExecutionState`: the result history grows in place together with the step counter. */
  class ExecutionState {
    var sessionId: string
    var originalQuery: string
    var agentResults: seq<AgentResult>
    var currentStep: int
    var totalSteps: int
    var endTime: Option<int>
    var metadata: map<string, Value>

    /** The state's value. */
    function Rec(): StateRec
      reads this
    {
      StateRec(sessionId, originalQuery, agentResults, currentStep, totalSteps, endTime, metadata)
    }

    /** A state holding the given value (construction after the validator accepted it). */
    constructor (s: StateRec)
      ensures Rec() == s
    {
      sessionId := s.sessionId;
      originalQuery := s.originalQuery;
      agentResults := s.results;
      currentStep := s.currentStep;
      totalSteps := s.totalSteps;
      endTime := s.endTime;
      metadata := s.metadata;
    }

    /** Replaces the state's value (what an agent's own updates of the state amount to). */
    method SetRec(s: StateRec)
      modifies this
      ensures Rec() == s
    {
      sessionId := s.sessionId;
      originalQuery := s.originalQuery;
      agentResults := s.results;
      currentStep := s.currentStep;
      totalSteps := s.totalSteps;
      endTime := s.endTime;
      metadata := s.metadata;
    }

    /** `add_agent_result`: one entry appended, the counter bumped for a finished step. */
    method AddAgentResult(agentName: string, taskDescription: string, result: string,
                          status: TaskStatus, errorMessage: Option<string>)
      modifies this
      ensures agentResults == old(agentResults) + [AgentResult(agentName, taskDescription, result, status, errorMessage)]
      ensures currentStep == old(currentStep) + (if FinishesStep(status) then 1 else 0)
      ensures Rec() == AddResult(old(Rec()), AgentResult(agentName, taskDescription, result, status, errorMessage))
    {
      agentResults := agentResults + [AgentResult(agentName, taskDescription, result, status, errorMessage)];
      if status == Completed || status == Failed {
        currentStep := currentStep + 1;
      }
    }

    /** `metadata[key] = value`. */
    method SetMetadata(key: string, value: Value)
      modifies this
      ensures Rec() == old(Rec()).(metadata := old(metadata)[key := value])
    {
      metadata := metadata[key := value];
    }

    /** `get_agent_results_by_name`. */
    function AgentResultsByName(name: string): (rs: seq<AgentResult>)
      reads this
      ensures forall x :: x in rs <==> x in agentResults && x.agentName == name
    {
      WithName(agentResults, name)
    }

    /** `get_failed_results`. */
    function FailedResults(): (rs: seq<AgentResult>)
      reads this
      ensures forall x :: x in rs <==> x in agentResults && x.status == Failed
    {
      FailedOnly(agentResults)
    }

    /** `is_completed`. */
    function IsCompleted(): (b: bool)
      reads this
      ensures b <==> currentStep >= totalSteps
    {
      Completes(Rec())
    }

    /** `mark_completed`: the end time is set once and then kept. */
    method MarkCompleted(now: int)
      modifies this
      ensures Rec() == MarkCompletedRec(old(Rec()), now)
      ensures old(endTime).Some? ==> endTime == old(endTime)
      ensures old(endTime).None? ==> endTime == Some(now)
    {
      if endTime.None? {
        endTime := Some(now);
      }
    }
  }

  /** `ExecutionState(session_id=..., original_query=..., current_step=..., total_steps=...)`: `None` where the validator raises. */
  method NewExecutionState(sessionId: string, query: string, currentStep: Option<int>, totalSteps: int)
    returns (state: Option<ExecutionState>)
    ensures state.Some? <==> Create(sessionId, query, currentStep, totalSteps).Some?
    ensures state.Some? ==> fresh(state.value) && state.value.Rec() == Create(sessionId, query, currentStep, totalSteps).value
  {
    var r := Create(sessionId, query, currentStep, totalSteps);
    if r.None? {
      return None;
    }
    var st := new ExecutionState(r.value);
    state := Some(st);
  }

  // ----- conversation memory -----

  /** One exchange (its timestamp is not modelled). */
  datatype ConversationTurn = ConversationTurn(userInput: string, assistantResponse: string, executionState: Option<StateRec>)

  /** Python's `xs[k:]` for any integer `k`. */
  function SliceFrom<T>(xs: seq<T>, k: int): (r: seq<T>)
    ensures k >= 0 ==> r == xs[if k <= |xs| then k else |xs|..]
    ensures k < 0 ==> r == xs[if -k <= |xs| then |xs| + k else 0..]
  {
    var start := if k >= 0 then (if k <= |xs| then k else |xs|) else (if -k <= |xs| then |xs| + k else 0);
    xs[start..]
  }

  /** `turns[-n:] if len(turns) >= n else turns`. */
  function RecentOf(turns: seq<ConversationTurn>, n: int): (r: seq<ConversationTurn>)
    ensures 0 < n <= |turns| ==> r == turns[|turns| - n..] && |r| == n
    ensures n == 0 || n > |turns| ==> r == turns
    ensures n < 0 ==> r == turns[if -n <= |turns| then -n else |turns|..]
  {
    if |turns| >= n then SliceFrom(turns, -n) else turns
  }

  /** The two lines a turn contributes to the context. */
  function TurnLines(t: ConversationTurn): seq<string> {
    ["User: " + t.userInput, "Assistant: " + t.assistantResponse]
  }

  /** The context lines of a sequence of turns. */
  function ContextLines(turns: seq<ConversationTurn>): (lines: seq<string>)
    ensures |lines| == 2 * |turns|
  {
    if turns == [] then [] else ContextLines(turns[..|turns| - 1]) + TurnLines(turns[|turns| - 1])
  }

  /** Line `2k` quotes the user of turn `k` and line `2k + 1` the assistant. */
  lemma {:induction false} ContextLinesAt(turns: seq<ConversationTurn>, k: nat)
    requires k < |turns|
    ensures ContextLines(turns)[2 * k] == "User: " + turns[k].userInput
    ensures ContextLines(turns)[2 * k + 1] == "Assistant: " + turns[k].assistantResponse
    decreases |turns|
  {
    if k < |turns| - 1 {
      var init := turns[..|turns| - 1];
      ContextLinesAt(init, k);
      assert init[k] == turns[k];
    }
  }

  /** `ConversationMemory`: the turns of a session, appended in place. */
  class ConversationMemory {
    var sessionId: string
    var turns: seq<ConversationTurn>
    var updatedAt: int
    var metadata: map<string, Value>

    constructor (sessionId: string, now: int)
      ensures this.sessionId == sessionId && turns == [] && updatedAt == now && metadata == map[]
    {
      this.sessionId := sessionId;
      turns := [];
      updatedAt := now;
      metadata := map[];
    }

    /** `add_turn`. */
    method AddTurn(userInput: string, assistantResponse: string, executionState: Option<StateRec>, now: int)
      modifies this
      ensures turns == old(turns) + [ConversationTurn(userInput, assistantResponse, executionState)]
      ensures updatedAt == now && sessionId == old(sessionId) && metadata == old(metadata)
    {
      turns := turns + [ConversationTurn(userInput, assistantResponse, executionState)];
      updatedAt := now;
    }

    /** `get_recent_turns(n)`. */
    function RecentTurns(n: int): (r: seq<ConversationTurn>)
      reads this
      ensures 0 < n <= |turns| ==> r == turns[|turns| - n..]
      ensures n == 0 || n > |turns| ==> r == turns
    {
      RecentOf(turns, n)
    }

    /** `get_context_string(max_turns)`: two lines per recent turn, joined by newlines. */
    method GetContextString(maxTurns: int) returns (text: string)
      ensures text == Join(ContextLines(RecentOf(turns, maxTurns)), "\n")
    {
      var recent := RecentTurns(maxTurns);
      var parts: seq<string> := [];
      var i := 0;
      while i < |recent|
        invariant 0 <= i <= |recent|
        invariant parts == ContextLines(recent[..i])
      {
        assert recent[..i + 1][..i] == recent[..i];
        parts := parts + ["User: " + recent[i].userInput];
        parts := parts + ["Assistant: " + recent[i].assistantResponse];
        i := i + 1;
      }
      assert recent[..i] == recent;
      text := Join(parts, "\n");
    }

    /** `clear`. */
    method Clear(now: int)
      modifies this
      ensures turns == [] && updatedAt == now && sessionId == old(sessionId) && metadata == old(metadata)
    {
      turns := [];
      updatedAt := now;
    }
  }
}
