/**
 * `PlanExecutor` (core/executor.py) as a class: the fields `steps_outputs`,
 * `trace` and `total_steps_executed` are updated in place, and the
 * execution state is an `ExecutionState` object the executor writes to.
 * Every method is proved to leave the record exactly as the functions of
 * module `Semantics` say, and to return their outcome; an exception the
 * source raises is a `Raised` outcome handed back to the caller.
 */
module Executor {
  import opened Text
  import opened Values
  import opened Paths
  import opened Templates
  import opened StateModels
  import opened Plan
  import opened Semantics

  /** `EvalTasks` on the suffix `ts[i..]`: one child, then the rest. */
  lemma {:induction false} TasksUnfold(c: Ctx, ts: seq<Node>, i: nat, r: Run, last: Value)
    requires i < |ts|
    ensures EvalTasks(c, ts[i..], r, last) ==
      (var x := EvalNode(c, ts[i], r);
       if x.out.Raised? then x else EvalTasks(c, ts[i + 1..], x.run, x.out.value))
  {
    assert ts[i..][0] == ts[i];
    assert ts[i..][1..] == ts[i + 1..];
  }

  /** `RunChildren` on the suffix `ts[i..]`: one child, then the rest. */
  lemma {:induction false} ChildrenUnfold(c: Ctx, ts: seq<Node>, i: nat, r: Run)
    requires i < |ts|
    ensures RunChildren(c, ts[i..], r) ==
      (var x := EvalNode(c, ts[i], r);
       var rest := RunChildren(c, ts[i + 1..], x.run);
       Futures([x.out] + rest.outs, rest.run))
  {
    assert ts[i..][0] == ts[i];
    assert ts[i..][1..] == ts[i + 1..];
  }

  /** The futures collected so far, ahead of those still to come. */
  function Prepend(done: seq<Outcome>, rest: Futures): Futures {
    Futures(done + rest.outs, rest.run)
  }

  lemma {:induction false} PrependStep(done: seq<Outcome>, o: Outcome, rest: Futures)
    ensures Prepend(done, Futures([o] + rest.outs, rest.run)) == Prepend(done + [o], rest)
  {
    assert done + ([o] + rest.outs) == (done + [o]) + rest.outs;
  }

  /** `CheckIdsList` on the suffix `ts[i..]`. */
  lemma {:induction false} CheckIdsUnfold(ts: seq<Node>, i: nat, seen: set<string>)
    requires i < |ts|
    ensures CheckIdsList(ts[i..], seen) ==
      (match CheckIds(ts[i], seen)
       case Duplicate(d) => Duplicate(d)
       case Unique(s) => CheckIdsList(ts[i + 1..], s))
  {
    assert ts[i..][0] == ts[i];
    assert ts[i..][1..] == ts[i + 1..];
  }

  class PlanExecutor {
    /** The execution state the plan runs against. */
    const state: ExecutionState
    /** The names `agent_registry.get_agent` finds. */
    const registered: set<string>
    /** `agent.run(task, state)` for a registered agent name. */
    const handler: (string, string, Value) -> HandlerResult
    /** `SafeEvaluator.eval`. */
    const cond: (string, Scope) -> bool
    /** `json.dumps`. */
    const dumps: Value -> string
    /** `serialize` inside `_run_loop`. */
    const serialize: Value -> string
    /** `json.loads` applied to JSON-looking step outputs. */
    const tryParse: string -> Option<Value>
    /** `executor_max_iters`. */
    const maxIters: int
    /** `executor_global_step_cap`. */
    const globalStepCap: int

    var stepsOutputs: map<string, Value>
    var trace: seq<Event>
    var totalStepsExecuted: nat

    /** The surroundings the semantic functions take as a parameter. */
    function Context(): Ctx {
      Ctx(registered, handler, cond, dumps, serialize, tryParse, maxIters, globalStepCap)
    }

    /** The executor's mutable record together with the state's value. */
    function Snap(): Run
      reads this, state
    {
      Run(stepsOutputs, trace, totalStepsExecuted, state.Rec())
    }

    /** `__init__`: empty outputs and trace, counter at zero; the limits are parameters. */
    constructor (state: ExecutionState, registered: set<string>, handler: (string, string, Value) -> HandlerResult,
                 cond: (string, Scope) -> bool, dumps: Value -> string, serialize: Value -> string,
                 tryParse: string -> Option<Value>, maxIters: int, globalStepCap: int)
      ensures this.state == state
      ensures Context() == Ctx(registered, handler, cond, dumps, serialize, tryParse, maxIters, globalStepCap)
      ensures stepsOutputs == map[] && trace == [] && totalStepsExecuted == 0
    {
      this.state := state;
      this.registered := registered;
      this.handler := handler;
      this.cond := cond;
      this.dumps := dumps;
      this.serialize := serialize;
      this.tryParse := tryParse;
      this.maxIters := maxIters;
      this.globalStepCap := globalStepCap;
      stepsOutputs := map[];
      trace := [];
      totalStepsExecuted := 0;
    }

    /** `execute(plan)`: validation, then the root between `start_plan` and `end_plan`. */
    method Execute(plan: PlanDoc) returns (result: ExecResult)
      modifies this, state
      ensures Exec(result, Snap()) == ExecutePlan(Context(), plan, old(Snap()))
    {
      if plan.root.None? {
        return Aborted(Exc(PlanValidationError, "Plan missing root"));
      }
      var root := plan.root.value;
      var check := ValidateIdsUnique(root, {});
      if check.Duplicate? {
        return Aborted(Exc(PlanValidationError, "Duplicate step id: " + check.id));
      }
      trace := trace + [StartPlan(root.id)];
      var out := RunNode(root);
      if out.Raised? {
        return Aborted(out.exc);
      }
      trace := trace + [EndPlan(root.id)];
      result := Done(out.value, stepsOutputs, trace);
    }

    /** `_validate_ids_unique(node, seen)`: the walk through `tasks`, threading `seen`. */
    method ValidateIdsUnique(n: Node, seen: set<string>) returns (check: IdCheck)
      ensures check == CheckIds(n, seen)
      decreases n
    {
      var s := seen;
      if HasId(n) {
        if n.id.value in s {
          return Duplicate(n.id.value);
        }
        s := s + {n.id.value};
      }
      var i := 0;
      while i < |n.tasks|
        invariant 0 <= i <= |n.tasks|
        invariant CheckIds(n, seen) == CheckIdsList(n.tasks[i..], s)
      {
        CheckIdsUnfold(n.tasks, i, s);
        var sub := ValidateIdsUnique(n.tasks[i], s);
        if sub.Duplicate? {
          return sub;
        }
        s := sub.seen;
        i := i + 1;
      }
      return Unique(s);
    }

    /** `_run_node`: the step cap, then a dict `loop`, then `branch`/`branch_key`, then `type`. */
    method RunNode(n: Node) returns (out: Outcome)
      modifies this, state
      ensures Res(out, Snap()) == EvalNode(Context(), n, old(Snap()))
      decreases n, 4, 0
    {
      if totalStepsExecuted >= globalStepCap {
        return Raised(Exc(RuntimeError, CapMessage()));
      }
      if n.loop.Some? {
        trace := trace + [LoopEnter(n.id)];
        out := RunLoop(n);
        if out.Normal? {
          trace := trace + [LoopExit(n.id)];
        }
      } else if n.branch.Some? || n.branchKey != "" {
        trace := trace + [BranchEnter(n.id)];
        out := RunBranch(n);
        if out.Normal? {
          trace := trace + [BranchExit(n.id)];
        }
      } else if n.kind == Some("sequential") {
        out := RunTasks(n.tasks, Null);
      } else if n.kind == Some("parallel") {
        out := RunParallel(n);
      } else if n.kind == Some("agent_call") {
        out := RunAgent(n);
      } else {
        out := Normal(Null);
      }
    }

    /** `res = last; for child in tasks: res = self._run_node(child)`. */
    method RunTasks(ts: seq<Node>, last: Value) returns (out: Outcome)
      modifies this, state
      ensures Res(out, Snap()) == EvalTasks(Context(), ts, old(Snap()), last)
      decreases ts, 0, 0
    {
      var res := last;
      var i := 0;
      while i < |ts|
        invariant 0 <= i <= |ts|
        invariant EvalTasks(Context(), ts, old(Snap()), last) == EvalTasks(Context(), ts[i..], Snap(), res)
      {
        TasksUnfold(Context(), ts, i, Snap(), res);
        var o := RunNode(ts[i]);
        if o.Raised? {
          return o;
        }
        res := o.value;
        i := i + 1;
      }
      return Normal(res);
    }

    /** `{ex.submit(self._run_node, child): child for child in tasks}`: each child runs, in list order. */
    method SubmitAll(ts: seq<Node>) returns (futures: seq<Outcome>)
      modifies this, state
      ensures futures == RunChildren(Context(), ts, old(Snap())).outs
      ensures Snap() == RunChildren(Context(), ts, old(Snap())).run
      decreases ts, 1, 0
    {
      futures := [];
      var i := 0;
      while i < |ts|
        invariant 0 <= i <= |ts|
        invariant RunChildren(Context(), ts, old(Snap())) == Prepend(futures, RunChildren(Context(), ts[i..], Snap()))
      {
        ChildrenUnfold(Context(), ts, i, Snap());
        ghost var rest := RunChildren(Context(), ts[i + 1..], EvalNode(Context(), ts[i], Snap()).run);
        var o := RunNode(ts[i]);
        PrependStep(futures, o, rest);
        futures := futures + [o];
        i := i + 1;
      }
      assert ts[i..] == [];
      assert futures + [] == futures;
    }

    /**
     * `_run_parallel`: every child is submitted and runs, one after the
     * other; then the futures are read in list order, and the first that
     * raised escalates and re-raises.
     */
    method RunParallel(n: Node) returns (out: Outcome)
      modifies this, state
      ensures Res(out, Snap()) == EvalParallel(Context(), n, old(Snap()))
      decreases n, 3, 0
    {
      var ts := n.tasks;
      trace := trace + [ParallelStart(n.id, ChildIds(ts))];
      ghost var fs := RunChildren(Context(), ts, Snap());
      var futures := SubmitAll(ts);
      var results: map<string, Value> := map[];
      var j := 0;
      while j < |ts|
        invariant 0 <= j <= |ts|
        invariant futures == fs.outs && Snap() == fs.run
        invariant Gather(ts, futures, j, results) == Gather(ts, futures, 0, map[])
      {
        var cid := ChildKey(ts[j]);
        if futures[j].Raised? {
          RouteToHumanAndStop(ParallelFailedMessage(cid, futures[j].exc.msg));
          return futures[j];
        }
        results := results[cid := futures[j].value];
        j := j + 1;
      }
      if HasId(n) {
        stepsOutputs := stepsOutputs[n.id.value := Dict(results)];
      }
      trace := trace + [ParallelEnd(n.id)];
      return Normal(Dict(results));
    }

    /** `_resolve_agent`: the six-entry table, then the registry. */
    function ResolveAgent(agentId: Option<string>): (name: Option<string>)
      ensures name.Some? <==> AgentTarget(agentId).Some? && AgentTarget(agentId).value in registered
      ensures name.Some? ==> name == AgentTarget(agentId)
    {
      var target := AgentTarget(agentId);
      if target.Some? && target.value in registered then target else None
    }

    /** `_run_agent`. */
    method RunAgent(n: Node) returns (out: Outcome)
      modifies this, state
      ensures Res(out, Snap()) == EvalAgent(Context(), n, old(Snap()))
    {
      totalStepsExecuted := totalStepsExecuted + 1;
      var stepId := StepIdOf(n, totalStepsExecuted);
      out := CallResolved(n, stepId);
    }

    /** `_run_agent` after the counter is bumped: render the parameters, resolve the name, call the agent. */
    method CallResolved(n: Node, stepId: string) returns (out: Outcome)
      modifies this, state
      ensures Res(out, Snap()) == CallAgent(Context(), n, stepId, old(Snap()))
    {
      var aid := AgentIdText(n.agentId);
      var params := Render(ScopeOf(Snap()), tryParse, dumps, n.parameters);
      var agent := ResolveAgent(n.agentId);
      if agent.None? {
        RouteToHumanAndStop(UnknownAgentMessage(aid, stepId));
        return Raised(Exc(RuntimeError, "Unknown agent: " + aid));
      }
      trace := trace + [AgentStart(stepId, n.agentId, params)];
      var reply := handler(agent.value, dumps(params), View(state.Rec()));
      out := HandleReply(n, stepId, reply);
    }

    /** The rest of `_run_agent` once the agent has answered `reply`. */
    method HandleReply(n: Node, stepId: string, reply: HandlerResult) returns (out: Outcome)
      modifies this, state
      ensures Res(out, Snap()) == AfterHandler(n, stepId, old(Snap()), reply)
    {
      match reply
      case Threw(e) =>
        RouteToHumanAndStop(AgentFailedMessage(AgentIdText(n.agentId), stepId, e));
        out := Raised(Exc(AgentFailure, e));
      case Returned(v) =>
        stepsOutputs := stepsOutputs[stepId := v];
        trace := trace + [AgentEnd(stepId, n.agentId)];
        state.SetMetadata("last_step", LastStep(n.agentId, v));
        out := Normal(v);
    }

    /** `_route_to_human_and_stop(message)`. */
    method RouteToHumanAndStop(message: string)
      modifies this, state
      ensures Snap() == Escalate(old(Snap()), message)
    {
      state.AddAgentResult("HumanAssistant", message, message, Failed, Some(message));
      trace := trace + [Hitl(message)];
    }

    /** The `for case in cases` loop of `_run_branch` collecting the cases whose `when` holds. */
    method CollectMatches(cases: seq<Case>) returns (matches: seq<nat>)
      ensures matches == MatchesFrom(cases, 0, ScopeOf(Snap()), cond)
    {
      var sc := ScopeOf(Snap());
      matches := [];
      var i := 0;
      while i < |cases|
        invariant 0 <= i <= |cases|
        invariant MatchesFrom(cases, 0, sc, cond) == matches + MatchesFrom(cases, i, sc, cond)
      {
        ghost var rest := MatchesFrom(cases, i + 1, sc, cond);
        assert MatchesFrom(cases, i, sc, cond) == (if Fires(cases, i, sc, cond) then [i] else []) + rest;
        if cases[i].when.Some? && cond(cases[i].when.value, sc) {
          assert matches + MatchesFrom(cases, i, sc, cond) == (matches + [i]) + rest;
          matches := matches + [i];
        } else {
          assert MatchesFrom(cases, i, sc, cond) == rest;
        }
        i := i + 1;
      }
    }

    /** `_run_branch`: choose the tasks, run them in order, store the result under the id. */
    method RunBranch(n: Node) returns (out: Outcome)
      modifies this, state
      ensures Res(out, Snap()) == EvalBranch(Context(), n, old(Snap()))
      decreases n, 3, 0
    {
      var selected: seq<Node>;
      if ExplicitForm(n) {
        var cases := n.branch.value.cases.items;
        var matches := CollectMatches(cases);
        if |matches| == 1 {
          selected := cases[matches[0]].tasks;
          trace := trace + [BranchSelectWhen(n.id, cases[matches[0]].when.value)];
        } else if |matches| == 0 {
          selected := n.branch.value.elseTasks;
          if selected == [] {
            RouteToHumanAndStop(NoMatchNoElseMessage(n));
            return Normal(Null);
          }
        } else {
          RouteToHumanAndStop(MultipleMatchMessage(n));
          return Normal(Null);
        }
      } else {
        if n.branchKey == "" || n.cases.NotAMapping? {
          RouteToHumanAndStop(InvalidBranchMessage(n));
          return Normal(Null);
        }
        var entries := n.cases.entries;
        var v := GetValue(ScopeOf(Snap()), tryParse, BranchPath(n.branchKey));
        if v.List? || v.Dict? {
          return Raised(Exc(TypeError, "unhashable type: '" + TypeName(v) + "'"));
        }
        if v.Str? && FindKey(entries, v.s) < |entries| {
          selected := entries[FindKey(entries, v.s)].tasks;
          trace := trace + [BranchSelectKey(n.id, v.s)];
        } else if FindKey(entries, "else") < |entries| {
          selected := entries[FindKey(entries, "else")].tasks;
          trace := trace + [BranchSelectKey(n.id, "else")];
        } else {
          RouteToHumanAndStop(NoCaseMessage(n, v));
          return Normal(Null);
        }
      }
      out := RunTasks(selected, Null);
      if out.Normal? && HasId(n) {
        stepsOutputs := stepsOutputs[n.id.value := out.value];
      }
    }

    /**
     * The end of one pass of `_run_loop` once the body returned `result`:
     * the identical-output guard, the count against `max_iters`, and for a
     * do-while loop the post-check. `halt` is the `break`.
     */
    method EndIteration(n: Node, ghost outs: seq<Value>, result: Value, lastSerialized: Option<string>,
                        iters: nat, iterIndex: nat)
      returns (halt: bool, lastSerialized': Option<string>, iters': nat, iterIndex': nat)
      requires n.loop.Some?
      requires iters == iterIndex == |outs|
      requires lastSerialized == if outs == [] then None else Some(serialize(LastOf(outs)))
      modifies this, state
      ensures var it := AfterBody(Context(), n, n.loop.value, MaxItersOf(Context(), n.loop.value), outs, result, old(Snap()));
        (halt <==> it.Halt?) && (halt ==> Snap() == it.res.run) && (!halt ==> Snap() == it.run)
      ensures !halt ==> iters' == iterIndex' == |outs| + 1 && lastSerialized' == Some(serialize(result))
    {
      var spec := n.loop.value;
      var maxI := MaxItersOf(Context(), spec);
      ghost var r2 := Snap();
      lastSerialized', iters', iterIndex' := lastSerialized, iters, iterIndex;
      var ser := serialize(result);
      if lastSerialized'.Some? && ser == lastSerialized'.value {
        AfterIdentical(Context(), n, spec, maxI, outs, result, r2);
        trace := trace + [LoopIterIdentical(n.id, iterIndex')];
        RouteToHumanAndStop(IdenticalMessage(n));
        return true, lastSerialized', iters', iterIndex';
      }
      lastSerialized' := Some(ser);
      iters' := iters' + 1;
      iterIndex' := iterIndex' + 1;
      if iters' >= maxI {
        AfterCap(Context(), n, spec, maxI, outs, result, r2);
        trace := trace + [LoopMaxIters(n.id, iterIndex')];
        return true, lastSerialized', iters', iterIndex';
      }
      if spec.doWhile {
        if spec.condition.Some? && !cond(spec.condition.value, ScopeOf(Snap())) {
          AfterPostFalse(Context(), n, spec, maxI, outs, result, r2);
          trace := trace + [LoopConditionFalse(n.id, iterIndex', Post)];
          return true, lastSerialized', iters', iterIndex';
        }
        AfterAgain(Context(), n, spec, maxI, outs, result, r2);
        trace := trace + [LoopConditionTrue(n.id, iterIndex', Post)];
      } else {
        AfterAgain(Context(), n, spec, maxI, outs, result, r2);
        trace := trace + [LoopConditionTrue(n.id, iterIndex', Pre)];
      }
      halt := false;
    }

    /**
     * `_run_loop`: the `while True` loop with `last_serialized`, `result`,
     * `iters` and `iter_index`. The ghost `outs` holds the body results so
     * far; the loop keeps the rest of the loop's meaning unchanged.
     */
    method RunLoop(n: Node) returns (out: Outcome)
      requires n.loop.Some?
      modifies this, state
      ensures Res(out, Snap()) == EvalLoop(Context(), n, old(Snap()))
      decreases n, 3, 0
    {
      var spec := n.loop.value;
      var doWhile := spec.doWhile;
      var maxI := MaxItersOf(Context(), spec);
      var condition := spec.condition;
      var lastSerialized: Option<string> := None;
      var result := Null;
      var iters := 0;
      var iterIndex := 0;
      ghost var outs: seq<Value> := [];
      ghost var final := EvalLoopFrom(Context(), n, spec, maxI, [], Snap());
      while true
        invariant |outs| == 0 || |outs| < maxI
        invariant iters == iterIndex == |outs|
        invariant result == LastOf(outs)
        invariant lastSerialized == if outs == [] then None else Some(serialize(LastOf(outs)))
        invariant final == EvalLoopFrom(Context(), n, spec, maxI, outs, Snap())
        decreases if maxI > |outs| then maxI - |outs| else 0
      {
        ghost var r0 := Snap();
        ghost var it := LoopIteration(Context(), n, spec, maxI, outs, r0);
        LoopFromUnfold(Context(), n, spec, maxI, outs, r0);
        trace := trace + [LoopIterStart(n.id, iterIndex)];
        assert Snap() == Emit(r0, LoopIterStart(n.id, |outs|));
        if !doWhile && condition.Some? && !cond(condition.value, ScopeOf(Snap())) {
          IterationPreFalse(Context(), n, spec, maxI, outs, r0);
          break;
        }
        IterationBody(Context(), n, spec, maxI, outs, r0);
        var o := RunTasks(n.tasks, Null);
        if o.Raised? {
          return o;
        }
        assert it == AfterBody(Context(), n, spec, maxI, outs, o.value, Snap());
        result := o.value;
        var halt;
        halt, lastSerialized, iters, iterIndex := EndIteration(n, outs, result, lastSerialized, iters, iterIndex);
        if halt {
          break;
        }
        outs := outs + [result];
      }
      if HasId(n) {
        stepsOutputs := stepsOutputs[n.id.value := result];
      }
      out := Normal(result);
    }
  }
}
