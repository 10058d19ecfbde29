/**
 * The meaning of running a plan with `PlanExecutor` (core/executor.py), as
 * functions from the executor's mutable record (step outputs, trace, step
 * counter, execution state) to the outcome of a node and the new record.
 * `Executor.PlanExecutor` runs plans imperatively and is proved to compute
 * exactly these functions.
 *
 * What the executor cannot see is a parameter (`Ctx`): the registered agent
 * names and what running an agent returns, the condition evaluator,
 * `json.dumps` (plain and with sorted keys) and `json.loads`.
 */
module Semantics {
  import opened Text
  import opened Values
  import opened Paths
  import opened Templates
  import opened StateModels
  import opened Plan

  datatype Phase = Pre | Post

  /** The entries of the execution trace, one constructor per `"event"` value. */
  datatype Event =
    | StartPlan(rootId: Option<string>)
    | EndPlan(rootId: Option<string>)
    | LoopEnter(id: Option<string>)
    | LoopExit(id: Option<string>)
    | BranchEnter(id: Option<string>)
    | BranchExit(id: Option<string>)
    | BranchSelectWhen(id: Option<string>, when: string)
    | BranchSelectKey(id: Option<string>, value: string)
    | ParallelStart(id: Option<string>, children: seq<Option<string>>)
    | ParallelEnd(id: Option<string>)
    | AgentStart(stepId: string, agentId: Option<string>, params: Value)
    | AgentEnd(stepId: string, agentId: Option<string>)
    | LoopIterStart(id: Option<string>, iter: nat)
    | LoopIterIdentical(id: Option<string>, iter: nat)
    | LoopMaxIters(id: Option<string>, iter: nat)
    | LoopConditionFalse(id: Option<string>, iter: nat, phase: Phase)
    | LoopConditionTrue(id: Option<string>, iter: nat, phase: Phase)
    | Hitl(message: string)

  /** The exceptions a run can end with; `AgentFailure` is whatever an agent's `run` raised. */
  datatype ExcKind = PlanValidationError | RuntimeError | TypeError | AgentFailure
  datatype Exc = Exc(kind: ExcKind, msg: string)

  /** How running a node ends: with a value, or with an exception propagating to the caller. */
  datatype Outcome = Normal(value: Value) | Raised(exc: Exc)

  /** What calling `agent.run(task, state)` gives: a result, or an exception with its text. */
  datatype HandlerResult = Returned(v: Value) | Threw(msg: string)

  /**
   * The executor's surroundings: the names in the agent registry, what each
   * agent returns for a task text and a state dict, `SafeEvaluator.eval`
   * (already `False` wherever the expression fails), `json.dumps`,
   * `json.dumps(..., sort_keys=True)`, `json.loads`, and the configured
   * `max_iters` default and global step cap.
   */
  datatype Ctx = Ctx(
    registered: set<string>,
    handler: (string, string, Value) -> HandlerResult,
    cond: (string, Scope) -> bool,
    dumps: Value -> string,
    serialize: Value -> string,
    tryParse: string -> Option<Value>,
    defaultMaxIters: int,
    stepCap: int)

  /** The executor's mutable record: `steps_outputs`, `trace`, `total_steps_executed` and its state. */
  datatype Run = Run(steps: map<string, Value>, trace: seq<Event>, total: nat, st: StateRec)

  /** The outcome of running a node and the record afterwards. */
  datatype Res = Res(out: Outcome, run: Run)

  // ----- the execution state as code sees it -----

  function StatusText(s: TaskStatus): string {
    match s
    case Pending => "pending"
    case InProgress => "in_progress"
    case Completed => "completed"
    case Failed => "failed"
  }

  function OptText(o: Option<string>): Value {
    if o.Some? then Str(o.value) else Null
  }

  function ResultView(r: AgentResult): Value {
    Dict(map[
      "agent_name" := Str(r.agentName),
      "task_description" := Str(r.taskDescription),
      "result" := Str(r.result),
      "status" := Str(StatusText(r.status)),
      "error_message" := OptText(r.errorMessage)])
  }

  /** `state.dict()`, and what `state.<field>` reads. */
  function View(s: StateRec): Value {
    Dict(map[
      "session_id" := Str(s.sessionId),
      "original_query" := Str(s.originalQuery),
      "agent_results" := List(seq(|s.results|, i requires 0 <= i < |s.results| => ResultView(s.results[i]))),
      "current_step" := Int(s.currentStep),
      "total_steps" := Int(s.totalSteps),
      "end_time" := if s.endTime.Some? then Int(s.endTime.value) else Null,
      "metadata" := Dict(s.metadata)])
  }

  /** What a `SafeEvaluator` or `TemplateResolver` made now sees. */
  function ScopeOf(r: Run): Scope {
    Scope(View(r.st), r.steps)
  }

  // ----- small effects -----

  function Emit(r: Run, e: Event): (r2: Run)
    ensures r2 == r.(trace := r.trace + [e])
  {
    r.(trace := r.trace + [e])
  }

  /** The escalation record `_route_to_human_and_stop` adds to the state. */
  function EscalationResult(msg: string): AgentResult {
    AgentResult("HumanAssistant", msg, msg, Failed, Some(msg))
  }

  /** `_route_to_human_and_stop(msg)`: a failed `HumanAssistant` result in the state and a `hitl` event. */
  function Escalate(r: Run, msg: string): (r2: Run)
    ensures r2 == r.(st := AddResult(r.st, EscalationResult(msg)), trace := r.trace + [Hitl(msg)])
  {
    r.(st := AddResult(r.st, EscalationResult(msg)), trace := r.trace + [Hitl(msg)])
  }

  /** `if step_id: self.steps_outputs[step_id] = res` after a branch or loop that ended normally. */
  function Finish(n: Node, x: Res): (y: Res)
    ensures x.out.Raised? || !HasId(n) ==> y == x
    ensures x.out.Normal? && HasId(n) ==> y == Res(x.out, x.run.(steps := x.run.steps[n.id.value := x.out.value]))
  {
    if x.out.Normal? && HasId(n) then Res(x.out, x.run.(steps := x.run.steps[n.id.value := x.out.value])) else x
  }

  // ----- agents -----

  /** `_resolve_agent`'s table from plan-level agent ids to registered agent names. */
  function AgentTarget(agentId: Option<string>): Option<string> {
    if agentId == Some("talk_to_document") then Some("TalktoDocument")
    else if agentId == Some("playbook_generator") then Some("PlaybookBuilder")
    else if agentId == Some("service_level_agent") then Some("ServiceLevelComplianceEvaluator")
    else if agentId == Some("obligations_manager") then Some("ObligationsManager")
    else if agentId == Some("report_synthesizer") then Some("MediatorAgent")
    else if agentId == Some("human_assistant") then Some("HumanAssistant")
    else None
  }

  /** `f"{agent_id}"`. */
  function AgentIdText(agentId: Option<string>): string {
    if agentId.Some? then agentId.value else "None"
  }

  function UnknownAgentMessage(aid: string, stepId: string): string {
    "Unknown agent_id '" + aid + "' at step '" + stepId + "'"
  }

  function AgentFailedMessage(aid: string, stepId: string, e: string): string {
    "Agent '" + aid + "' failed at step '" + stepId + "': " + e
  }

  /** The id an agent step's output is stored under: its own, or `step_<counter>`. */
  function StepIdOf(n: Node, counter: nat): string {
    if HasId(n) then n.id.value else "step_" + NatToString(counter)
  }

  /** The container `_run_agent` writes to `state.metadata["last_step"]`. */
  function LastStep(agentId: Option<string>, v: Value): Value {
    Dict(map["agent" := OptText(agentId), "result" := v, "parsed" := Null, "vars_set" := List([])])
  }

  /** `_run_agent` after the counter is bumped: render, resolve, call, record. */
  function CallAgent(c: Ctx, n: Node, stepId: string, r1: Run): Res {
    var params := Render(ScopeOf(r1), c.tryParse, c.dumps, n.parameters);
    var aid := AgentIdText(n.agentId);
    var target := AgentTarget(n.agentId);
    if target.None? || target.value !in c.registered then
      Res(Raised(Exc(RuntimeError, "Unknown agent: " + aid)), Escalate(r1, UnknownAgentMessage(aid, stepId)))
    else
      var r2 := Emit(r1, AgentStart(stepId, n.agentId, params));
      AfterHandler(n, stepId, r2, c.handler(target.value, c.dumps(params), View(r2.st)))
  }

  /** What `_run_agent` does with the agent's answer: escalate on an exception, otherwise store and trace it. */
  function AfterHandler(n: Node, stepId: string, r2: Run, reply: HandlerResult): Res {
    match reply
    case Threw(e) =>
      Res(Raised(Exc(AgentFailure, e)), Escalate(r2, AgentFailedMessage(AgentIdText(n.agentId), stepId, e)))
    case Returned(v) =>
      Res(Normal(v), r2.(steps := r2.steps[stepId := v],
                         trace := r2.trace + [AgentEnd(stepId, n.agentId)],
                         st := r2.st.(metadata := r2.st.metadata["last_step" := LastStep(n.agentId, v)])))
  }

  /** `_run_agent`: the counter goes up first, and a step without an id is named after it. */
  function EvalAgent(c: Ctx, n: Node, r: Run): Res {
    CallAgent(c, n, StepIdOf(n, r.total + 1), r.(total := r.total + 1))
  }

  // ----- branches -----

  /** Case `j` of an explicit branch fires: it has a `when` and the condition holds. */
  predicate Fires(cases: seq<Case>, j: int, sc: Scope, cond: (string, Scope) -> bool)
    requires 0 <= j < |cases|
  {
    cases[j].when.Some? && cond(cases[j].when.value, sc)
  }

  /** Indices `j >= from` of the cases whose `when` is present and evaluates true, in order. */
  function MatchesFrom(cases: seq<Case>, from: nat, sc: Scope, cond: (string, Scope) -> bool): (ms: seq<nat>)
    requires from <= |cases|
    ensures forall i :: 0 <= i < |ms| ==> from <= ms[i] < |cases| && cases[ms[i]].when.Some?
    decreases |cases| - from
  {
    if from == |cases| then []
    else
      (if Fires(cases, from, sc, cond) then [from] else [])
        + MatchesFrom(cases, from + 1, sc, cond)
  }

  /** Index of the first case keyed `key`, or `|entries|`. */
  function FindKey(entries: seq<KeyCase>, key: string): (k: nat)
    ensures k <= |entries|
    ensures k < |entries| ==> entries[k].key == key
    ensures forall j :: 0 <= j < k ==> entries[j].key != key
  {
    if entries == [] then 0
    else if entries[0].key == key then 0
    else 1 + FindKey(entries[1..], key)
  }

  /** The path a key-form branch reads: the key itself, or `state.<key>`. */
  function BranchPath(key: string): string {
    if StartsWith(key, "state.") || StartsWith(key, "steps.") then key else "state." + key
  }

  function NoMatchNoElseMessage(n: Node): string {
    "Branch '" + IdText(n) + "' ambiguous: no condition matched and no else provided"
  }

  function MultipleMatchMessage(n: Node): string {
    "Branch '" + IdText(n) + "' ambiguous: multiple conditions matched"
  }

  function InvalidBranchMessage(n: Node): string {
    "Branch '" + IdText(n) + "' invalid specification"
  }

  function NoCaseMessage(n: Node, v: Value): string
    requires IsScalar(v)
  {
    "Branch '" + IdText(n) + "' has no matching case for value '" + ScalarText(v) + "' and no else"
  }

  /** The explicit form applies: `branch` is a dict whose `cases` is a list. */
  predicate ExplicitForm(n: Node) {
    n.branch.Some? && n.branch.value.cases.CaseList?
  }

  /** `_run_branch`. */
  function EvalBranch(c: Ctx, n: Node, r: Run): Res
    decreases n, 3, 0
  {
    var sc := ScopeOf(r);
    if ExplicitForm(n) then
      var ms := MatchesFrom(n.branch.value.cases.items, 0, sc, c.cond);
      if |ms| == 1 then
        var k := ms[0];
        var r1 := Emit(r, BranchSelectWhen(n.id, n.branch.value.cases.items[k].when.value));
        Finish(n, EvalTasks(c, n.branch.value.cases.items[k].tasks, r1, Null))
      else if |ms| == 0 then
        if n.branch.value.elseTasks == [] then Res(Normal(Null), Escalate(r, NoMatchNoElseMessage(n)))
        else Finish(n, EvalTasks(c, n.branch.value.elseTasks, r, Null))
      else
        Res(Normal(Null), Escalate(r, MultipleMatchMessage(n)))
    else if n.branchKey == "" || n.cases.NotAMapping? then
      Res(Normal(Null), Escalate(r, InvalidBranchMessage(n)))
    else
      var v := ValueAt(sc, c.tryParse, BranchPath(n.branchKey));
      if v.List? || v.Dict? then
        Res(Raised(Exc(TypeError, "unhashable type: '" + TypeName(v) + "'")), r)
      else if v.Str? && FindKey(n.cases.entries, v.s) < |n.cases.entries| then
        var r1 := Emit(r, BranchSelectKey(n.id, v.s));
        Finish(n, EvalTasks(c, n.cases.entries[FindKey(n.cases.entries, v.s)].tasks, r1, Null))
      else if FindKey(n.cases.entries, "else") < |n.cases.entries| then
        var r1 := Emit(r, BranchSelectKey(n.id, "else"));
        Finish(n, EvalTasks(c, n.cases.entries[FindKey(n.cases.entries, "else")].tasks, r1, Null))
      else
        Res(Normal(Null), Escalate(r, NoCaseMessage(n, v)))
  }

  // ----- loops -----

  /** Why a loop stopped. */
  datatype Stop = PreFalse | Identical | MaxIters | PostFalse | BodyRaised

  /** The outcome of a loop, the body results in order, why it stopped, and the record afterwards. */
  datatype LoopRes = LoopRes(out: Outcome, outs: seq<Value>, stop: Stop, run: Run)

  /** `int(loop.get("max_iters", self.max_iters))`. */
  function MaxItersOf(c: Ctx, spec: LoopSpec): int {
    if spec.maxIters.Some? then spec.maxIters.value else c.defaultMaxIters
  }

  /** `result` between iterations: the last body result, `None` before the first. */
  function LastOf(outs: seq<Value>): Value {
    if outs == [] then Null else outs[|outs| - 1]
  }

  function IdenticalMessage(n: Node): string {
    "Loop '" + IdText(n) + "' detected identical outputs across iterations; halting for HITL"
  }

  /** After one iteration: go on with the results so far and the record, or stop with the loop's outcome. */
  datatype Iter = Again(outs: seq<Value>, run: Run) | Halt(res: LoopRes)

  /**
   * One pass through the `while True` body of `_run_loop`, iteration `|outs|`,
   * `outs` being the body results so far (so `last_serialized` is the
   * serialisation of their last one and `result` their last one).
   */
  function LoopIteration(c: Ctx, n: Node, spec: LoopSpec, maxI: int, outs: seq<Value>, r: Run): (it: Iter)
    ensures it.Again? ==> |it.outs| == |outs| + 1 && |it.outs| < maxI && it.outs[..|outs|] == outs
    decreases n, 1, 0
  {
    var r1 := Emit(r, LoopIterStart(n.id, |outs|));
    if !spec.doWhile && spec.condition.Some? && !c.cond(spec.condition.value, ScopeOf(r1)) then
      Halt(LoopRes(Normal(LastOf(outs)), outs, PreFalse, r1))
    else
      var x := EvalTasks(c, n.tasks, r1, Null);
      match x.out
      case Raised(e) => Halt(LoopRes(Raised(e), outs, BodyRaised, x.run))
      case Normal(v) => AfterBody(c, n, spec, maxI, outs, v, x.run)
  }

  /** The rest of an iteration once the body returned `v`: the no-progress guard, the cap, the condition. */
  function AfterBody(c: Ctx, n: Node, spec: LoopSpec, maxI: int, outs: seq<Value>, v: Value, r: Run): (it: Iter)
    ensures it.Again? ==> it.outs == outs + [v] && |it.outs| < maxI
    ensures it.Halt? ==> it.res.outs == outs + [v] && it.res.out == Normal(v)
  {
    var i := |outs|;
    var outs2 := outs + [v];
    if outs != [] && c.serialize(v) == c.serialize(LastOf(outs)) then
      Halt(LoopRes(Normal(v), outs2, Identical, Escalate(Emit(r, LoopIterIdentical(n.id, i)), IdenticalMessage(n))))
    else if i + 1 >= maxI then
      Halt(LoopRes(Normal(v), outs2, MaxIters, Emit(r, LoopMaxIters(n.id, i + 1))))
    else if spec.doWhile && spec.condition.Some? && !c.cond(spec.condition.value, ScopeOf(r)) then
      Halt(LoopRes(Normal(v), outs2, PostFalse, Emit(r, LoopConditionFalse(n.id, i + 1, Post))))
    else
      Again(outs2, Emit(r, LoopConditionTrue(n.id, i + 1, if spec.doWhile then Post else Pre)))
  }

  /** The `while True` loop of `_run_loop` from iteration `|outs|` on. */
  function EvalLoopFrom(c: Ctx, n: Node, spec: LoopSpec, maxI: int, outs: seq<Value>, r: Run): LoopRes
    requires |outs| == 0 || |outs| < maxI
    decreases n, 2, if maxI > |outs| then maxI - |outs| else 0
  {
    match LoopIteration(c, n, spec, maxI, outs, r)
    case Halt(lr) => lr
    case Again(outs2, r2) => EvalLoopFrom(c, n, spec, maxI, outs2, r2)
  }

  /** `_run_loop`. */
  function EvalLoop(c: Ctx, n: Node, r: Run): Res
    requires n.loop.Some?
    decreases n, 3, 0
  {
    var lr := EvalLoopFrom(c, n, n.loop.value, MaxItersOf(c, n.loop.value), [], r);
    Finish(n, Res(lr.out, lr.run))
  }

  // ----- sequences and parallel blocks -----

  /** `res = last; for child in ts: res = self._run_node(child)`. */
  function EvalTasks(c: Ctx, ts: seq<Node>, r: Run, last: Value): Res
    decreases ts, 0, 0
  {
    if ts == [] then Res(Normal(last), r)
    else
      var x := EvalNode(c, ts[0], r);
      match x.out
      case Raised(_) => x
      case Normal(v) => EvalTasks(c, ts[1..], x.run, v)
  }

  function ParallelFailedMessage(cid: string, e: string): string {
    "Parallel step '" + cid + "' failed: " + e
  }

  /** The outcomes of a parallel block's children, in list order, and the record after the last one. */
  datatype Futures = Futures(outs: seq<Outcome>, run: Run)

  /**
   * `{ex.submit(self._run_node, child): child for child in tasks}`: every
   * child runs, one after the other, whatever the others return; an
   * exception stays in its future until the results are read.
   */
  function RunChildren(c: Ctx, ts: seq<Node>, r: Run): (fs: Futures)
    ensures |fs.outs| == |ts|
    decreases ts, 0, 0
  {
    if ts == [] then Futures([], r)
    else
      var x := EvalNode(c, ts[0], r);
      var rest := RunChildren(c, ts[1..], x.run);
      Futures([x.out] + rest.outs, rest.run)
  }

  /** How reading the futures ends: every result collected, or the first child that raised. */
  datatype Gathered = AllDone(results: map<string, Value>) | ChildRaised(cid: string, exc: Exc)

  /** The `for fut in as_completed(futures)` loop from future `i` on, the futures taken in list order. */
  function Gather(ts: seq<Node>, outs: seq<Outcome>, i: nat, acc: map<string, Value>): Gathered
    requires |outs| == |ts| && i <= |ts|
    decreases |ts| - i
  {
    if i == |ts| then AllDone(acc)
    else
      match outs[i]
      case Raised(e) => ChildRaised(ChildKey(ts[i]), e)
      case Normal(v) => Gather(ts, outs, i + 1, acc[ChildKey(ts[i]) := v])
  }

  /** `_run_parallel`: all children run, then the first failure escalates and re-raises. */
  function EvalParallel(c: Ctx, n: Node, r: Run): Res
    decreases n, 3, 0
  {
    var r1 := Emit(r, ParallelStart(n.id, ChildIds(n.tasks)));
    var fs := RunChildren(c, n.tasks, r1);
    match Gather(n.tasks, fs.outs, 0, map[])
    case ChildRaised(cid, e) => Res(Raised(e), Escalate(fs.run, ParallelFailedMessage(cid, e.msg)))
    case AllDone(results) =>
      var steps := if HasId(n) then fs.run.steps[n.id.value := Dict(results)] else fs.run.steps;
      Res(Normal(Dict(results)), fs.run.(steps := steps, trace := fs.run.trace + [ParallelEnd(n.id)]))
  }

  // ----- dispatch -----

  function CapMessage(): string {
    "Global step cap exceeded"
  }

  /** `_run_node`: the step cap first, then a dict `loop`, then `branch`/`branch_key`, then `type`. */
  function EvalNode(c: Ctx, n: Node, r: Run): Res
    decreases n, 4, 0
  {
    if r.total >= c.stepCap then Res(Raised(Exc(RuntimeError, CapMessage())), r)
    else if n.loop.Some? then
      var x := EvalLoop(c, n, Emit(r, LoopEnter(n.id)));
      if x.out.Raised? then x else Res(x.out, Emit(x.run, LoopExit(n.id)))
    else if n.branch.Some? || n.branchKey != "" then
      var x := EvalBranch(c, n, Emit(r, BranchEnter(n.id)));
      if x.out.Raised? then x else Res(x.out, Emit(x.run, BranchExit(n.id)))
    else if n.kind == Some("sequential") then EvalTasks(c, n.tasks, r, Null)
    else if n.kind == Some("parallel") then EvalParallel(c, n, r)
    else if n.kind == Some("agent_call") then EvalAgent(c, n, r)
    else Res(Normal(Null), r)
  }

  // ----- whole plans -----

  /** What `execute` returns, or the exception it raises. */
  datatype ExecResult =
    | Done(finalOutput: Value, steps: map<string, Value>, trace: seq<Event>)
    | Aborted(exc: Exc)

  datatype Exec = Exec(result: ExecResult, run: Run)

  /** `execute(plan)`. */
  function ExecutePlan(c: Ctx, plan: PlanDoc, r: Run): Exec {
    if plan.root.None? then Exec(Aborted(Exc(PlanValidationError, "Plan missing root")), r)
    else
      var root := plan.root.value;
      match CheckIds(root, {})
      case Duplicate(d) => Exec(Aborted(Exc(PlanValidationError, "Duplicate step id: " + d)), r)
      case Unique(_) =>
        var x := EvalNode(c, root, Emit(r, StartPlan(root.id)));
        match x.out
        case Raised(e) => Exec(Aborted(e), x.run)
        case Normal(v) =>
          var r2 := Emit(x.run, EndPlan(root.id));
          Exec(Done(v, r2.steps, r2.trace), r2)
  }

  // ----- one loop iteration, case by case -----

  /** An iteration whose pre-check fails stops there. */
  lemma {:induction false} IterationPreFalse(c: Ctx, n: Node, spec: LoopSpec, maxI: int, outs: seq<Value>, r: Run)
    requires !spec.doWhile && spec.condition.Some?
    requires !c.cond(spec.condition.value, ScopeOf(Emit(r, LoopIterStart(n.id, |outs|))))
    ensures LoopIteration(c, n, spec, maxI, outs, r) ==
      Halt(LoopRes(Normal(LastOf(outs)), outs, PreFalse, Emit(r, LoopIterStart(n.id, |outs|))))
  {
  }

  /** Otherwise an iteration runs the body and goes on to `AfterBody`. */
  lemma {:induction false} IterationBody(c: Ctx, n: Node, spec: LoopSpec, maxI: int, outs: seq<Value>, r: Run)
    requires !(!spec.doWhile && spec.condition.Some?
               && !c.cond(spec.condition.value, ScopeOf(Emit(r, LoopIterStart(n.id, |outs|)))))
    ensures LoopIteration(c, n, spec, maxI, outs, r) ==
      (var x := EvalTasks(c, n.tasks, Emit(r, LoopIterStart(n.id, |outs|)), Null);
       if x.out.Raised? then Halt(LoopRes(x.out, outs, BodyRaised, x.run))
       else AfterBody(c, n, spec, maxI, outs, x.out.value, x.run))
  {
  }

  /** The four ways `AfterBody` ends, one lemma each. */
  lemma {:induction false} AfterIdentical(c: Ctx, n: Node, spec: LoopSpec, maxI: int, outs: seq<Value>, v: Value, r: Run)
    requires outs != [] && c.serialize(v) == c.serialize(LastOf(outs))
    ensures AfterBody(c, n, spec, maxI, outs, v, r) ==
      Halt(LoopRes(Normal(v), outs + [v], Identical, Escalate(Emit(r, LoopIterIdentical(n.id, |outs|)), IdenticalMessage(n))))
  {
  }

  lemma {:induction false} AfterCap(c: Ctx, n: Node, spec: LoopSpec, maxI: int, outs: seq<Value>, v: Value, r: Run)
    requires !(outs != [] && c.serialize(v) == c.serialize(LastOf(outs)))
    requires |outs| + 1 >= maxI
    ensures AfterBody(c, n, spec, maxI, outs, v, r) ==
      Halt(LoopRes(Normal(v), outs + [v], MaxIters, Emit(r, LoopMaxIters(n.id, |outs| + 1))))
  {
  }

  lemma {:induction false} AfterPostFalse(c: Ctx, n: Node, spec: LoopSpec, maxI: int, outs: seq<Value>, v: Value, r: Run)
    requires !(outs != [] && c.serialize(v) == c.serialize(LastOf(outs)))
    requires |outs| + 1 < maxI
    requires spec.doWhile && spec.condition.Some? && !c.cond(spec.condition.value, ScopeOf(r))
    ensures AfterBody(c, n, spec, maxI, outs, v, r) ==
      Halt(LoopRes(Normal(v), outs + [v], PostFalse, Emit(r, LoopConditionFalse(n.id, |outs| + 1, Post))))
  {
  }

  lemma {:induction false} AfterAgain(c: Ctx, n: Node, spec: LoopSpec, maxI: int, outs: seq<Value>, v: Value, r: Run)
    requires !(outs != [] && c.serialize(v) == c.serialize(LastOf(outs)))
    requires |outs| + 1 < maxI
    requires !(spec.doWhile && spec.condition.Some? && !c.cond(spec.condition.value, ScopeOf(r)))
    ensures AfterBody(c, n, spec, maxI, outs, v, r) ==
      Again(outs + [v], Emit(r, LoopConditionTrue(n.id, |outs| + 1, if spec.doWhile then Post else Pre)))
  {
  }

  /** `EvalLoopFrom` is one iteration and then, if it goes on, the rest. */
  lemma {:induction false} LoopFromUnfold(c: Ctx, n: Node, spec: LoopSpec, maxI: int, outs: seq<Value>, r: Run)
    requires |outs| == 0 || |outs| < maxI
    ensures EvalLoopFrom(c, n, spec, maxI, outs, r) ==
      (var it := LoopIteration(c, n, spec, maxI, outs, r);
       if it.Halt? then it.res else EvalLoopFrom(c, n, spec, maxI, it.outs, it.run))
  {
  }
}
