/**
 * What `PlanExecutor` guarantees, stated on the semantics of module
 * `Semantics` (core/executor.py).
 *
 * The central invariant, `Grows`, holds between the record before and after
 * running any node: the trace and the result history only get longer, every
 * result added is a failed `HumanAssistant` escalation, and the new results'
 * texts are exactly the new `hitl` events' messages, one for one and in the
 * same order. On top of that it also holds that the step counter never
 * passes the cap and that step outputs are never removed.
 */
module Properties {
  import opened Text
  import opened Values
  import opened Paths
  import opened Templates
  import opened StateModels
  import opened Plan
  import opened Semantics

  function Max(a: int, b: int): int {
    if a >= b then a else b
  }

  /** The result texts of a result history. */
  function Texts(rs: seq<AgentResult>): (ts: seq<string>)
    ensures |ts| == |rs|
    ensures forall i :: 0 <= i < |rs| ==> ts[i] == rs[i].result
  {
    seq(|rs|, i requires 0 <= i < |rs| => rs[i].result)
  }

  /** The messages of the `hitl` events of a trace, in order. */
  function HitlMessages(es: seq<Event>): seq<string>
    decreases |es|
  {
    if es == [] then []
    else HitlMessages(es[..|es| - 1]) + (if es[|es| - 1].Hitl? then [es[|es| - 1].message] else [])
  }

  /** Every entry is what `_route_to_human_and_stop` records. */
  predicate Escalations(rs: seq<AgentResult>) {
    forall i :: 0 <= i < |rs| ==> rs[i] == EscalationResult(rs[i].result)
  }

  /** The fields of the execution state that running a plan never changes. */
  predicate SameIdentity(s: StateRec, t: StateRec) {
    t.(results := s.results, currentStep := s.currentStep, metadata := s.metadata) == s
  }

  /** How the record may change while a node runs (see the module comment). */
  predicate Grows(c: Ctx, r: Run, r2: Run) {
    && r.trace <= r2.trace
    && r.st.results <= r2.st.results
    && Escalations(r2.st.results[|r.st.results|..])
    && Texts(r2.st.results[|r.st.results|..]) == HitlMessages(r2.trace[|r.trace|..])
    && r2.st.currentStep == r.st.currentStep + (|r2.st.results| - |r.st.results|)
    && r.total <= r2.total <= Max(r.total, c.stepCap)
    && r.steps.Keys <= r2.steps.Keys
    && SameIdentity(r.st, r2.st)
  }

  // ----- the invariant's algebra -----

  lemma {:induction false} HitlAppend(a: seq<Event>, b: seq<Event>)
    ensures HitlMessages(a + b) == HitlMessages(a) + HitlMessages(b)
    decreases |b|
  {
    if b == [] {
      assert a + b == a;
    } else {
      assert (a + b)[..|a + b| - 1] == a + b[..|b| - 1];
      HitlAppend(a, b[..|b| - 1]);
    }
  }

  lemma {:induction false} HitlOne(e: Event)
    ensures HitlMessages([e]) == (if e.Hitl? then [e.message] else [])
  {
    assert [e][..0] == [];
  }

  lemma {:induction false} GrowsRefl(c: Ctx, r: Run)
    ensures Grows(c, r, r)
  {
    assert r.trace[|r.trace|..] == [];
    assert r.st.results[|r.st.results|..] == [];
  }

  lemma {:induction false} GrowsTrans(c: Ctx, r1: Run, r2: Run, r3: Run)
    requires Grows(c, r1, r2) && Grows(c, r2, r3)
    ensures Grows(c, r1, r3)
  {
    var a := r2.st.results[|r1.st.results|..];
    var b := r3.st.results[|r2.st.results|..];
    assert r3.st.results[|r1.st.results|..] == a + b;
    assert Texts(a + b) == Texts(a) + Texts(b);
    var ta := r2.trace[|r1.trace|..];
    var tb := r3.trace[|r2.trace|..];
    assert r3.trace[|r1.trace|..] == ta + tb;
    HitlAppend(ta, tb);
    forall i | 0 <= i < |a + b| ensures (a + b)[i] == EscalationResult((a + b)[i].result) {
      if i < |a| { assert (a + b)[i] == a[i]; } else { assert (a + b)[i] == b[i - |a|]; }
    }
  }

  lemma {:induction false} EmitGrows(c: Ctx, r: Run, e: Event)
    requires !e.Hitl?
    ensures Grows(c, r, Emit(r, e))
  {
    assert Emit(r, e).trace[|r.trace|..] == [e];
    HitlOne(e);
    assert r.st.results[|r.st.results|..] == [];
  }

  lemma {:induction false} EscalateGrows(c: Ctx, r: Run, msg: string)
    ensures Grows(c, r, Escalate(r, msg))
  {
    var r2 := Escalate(r, msg);
    assert r2.trace[|r.trace|..] == [Hitl(msg)];
    HitlOne(Hitl(msg));
    assert r2.st.results[|r.st.results|..] == [EscalationResult(msg)];
  }

  lemma {:induction false} StoreGrows(c: Ctx, r: Run, k: string, v: Value)
    ensures Grows(c, r, r.(steps := r.steps[k := v]))
  {
    GrowsRefl(c, r);
  }

  lemma {:induction false} FinishGrows(c: Ctx, n: Node, r: Run, x: Res)
    requires Grows(c, r, x.run)
    ensures Grows(c, r, Finish(n, x).run)
  {
    if x.out.Normal? && HasId(n) {
      StoreGrows(c, x.run, n.id.value, x.out.value);
      GrowsTrans(c, r, x.run, Finish(n, x).run);
    }
  }

  // ----- the invariant holds for every node -----

  lemma {:induction false} AgentStoreGrows(c: Ctx, r: Run, stepId: string, v: Value, md: map<string, Value>)
    ensures Grows(c, r, r.(steps := r.steps[stepId := v], st := r.st.(metadata := md)))
  {
    GrowsRefl(c, r);
  }

  lemma {:induction false} CallAgentGrows(c: Ctx, n: Node, stepId: string, r1: Run)
    ensures Grows(c, r1, CallAgent(c, n, stepId, r1).run)
  {
    var params := Render(ScopeOf(r1), c.tryParse, c.dumps, n.parameters);
    var aid := AgentIdText(n.agentId);
    var target := AgentTarget(n.agentId);
    if target.None? || target.value !in c.registered {
      EscalateGrows(c, r1, UnknownAgentMessage(aid, stepId));
    } else {
      var r2 := Emit(r1, AgentStart(stepId, n.agentId, params));
      EmitGrows(c, r1, AgentStart(stepId, n.agentId, params));
      match c.handler(target.value, c.dumps(params), View(r2.st))
      case Threw(e) =>
        EscalateGrows(c, r2, AgentFailedMessage(aid, stepId, e));
        GrowsTrans(c, r1, r2, CallAgent(c, n, stepId, r1).run);
      case Returned(v) =>
        var r3 := Emit(r2, AgentEnd(stepId, n.agentId));
        EmitGrows(c, r2, AgentEnd(stepId, n.agentId));
        GrowsTrans(c, r1, r2, r3);
        AgentStoreGrows(c, r3, stepId, v, r3.st.metadata["last_step" := LastStep(n.agentId, v)]);
        GrowsTrans(c, r1, r3, CallAgent(c, n, stepId, r1).run);
    }
  }

  lemma {:induction false} CountGrows(c: Ctx, r: Run)
    requires r.total < c.stepCap
    ensures Grows(c, r, r.(total := r.total + 1))
  {
    GrowsRefl(c, r);
  }

  lemma {:induction false} AgentGrows(c: Ctx, n: Node, r: Run)
    requires r.total < c.stepCap
    ensures Grows(c, r, EvalAgent(c, n, r).run)
  {
    var r1 := r.(total := r.total + 1);
    var stepId := StepIdOf(n, r.total + 1);
    CountGrows(c, r);
    CallAgentGrows(c, n, stepId, r1);
    var x := CallAgent(c, n, stepId, r1);
    assert EvalAgent(c, n, r) == x;
    GrowsTrans(c, r, r1, x.run);
  }

  /** A loop or branch between its enter and exit events keeps the invariant when its body does. */
  lemma {:induction false} WrapGrows(c: Ctx, r: Run, enter: Event, x: Res, exit: Event)
    requires !enter.Hitl? && !exit.Hitl?
    requires Grows(c, Emit(r, enter), x.run)
    ensures Grows(c, r, x.run) && Grows(c, r, Emit(x.run, exit))
  {
    EmitGrows(c, r, enter);
    GrowsTrans(c, r, Emit(r, enter), x.run);
    EmitGrows(c, x.run, exit);
    GrowsTrans(c, r, x.run, Emit(x.run, exit));
  }

  lemma {:induction false} NodeGrows(c: Ctx, n: Node, r: Run)
    ensures Grows(c, r, EvalNode(c, n, r).run)
    decreases n, 4, 0
  {
    if r.total >= c.stepCap {
      GrowsRefl(c, r);
    } else if n.loop.Some? {
      LoopGrows(c, n, Emit(r, LoopEnter(n.id)));
      WrapGrows(c, r, LoopEnter(n.id), EvalLoop(c, n, Emit(r, LoopEnter(n.id))), LoopExit(n.id));
    } else if n.branch.Some? || n.branchKey != "" {
      BranchGrows(c, n, Emit(r, BranchEnter(n.id)));
      WrapGrows(c, r, BranchEnter(n.id), EvalBranch(c, n, Emit(r, BranchEnter(n.id))), BranchExit(n.id));
    } else if n.kind == Some("sequential") {
      TasksGrows(c, n.tasks, r, Null);
    } else if n.kind == Some("parallel") {
      ParallelGrows(c, n, r);
    } else if n.kind == Some("agent_call") {
      AgentGrows(c, n, r);
    } else {
      GrowsRefl(c, r);
    }
  }

  lemma {:induction false} TasksGrows(c: Ctx, ts: seq<Node>, r: Run, last: Value)
    ensures Grows(c, r, EvalTasks(c, ts, r, last).run)
    decreases ts, 0, 0
  {
    if ts == [] {
      GrowsRefl(c, r);
    } else {
      NodeGrows(c, ts[0], r);
      var x := EvalNode(c, ts[0], r);
      if x.out.Normal? {
        TasksGrows(c, ts[1..], x.run, x.out.value);
        GrowsTrans(c, r, x.run, EvalTasks(c, ts[1..], x.run, x.out.value).run);
      }
    }
  }

  lemma {:induction false} ChildrenGrows(c: Ctx, ts: seq<Node>, r: Run)
    ensures Grows(c, r, RunChildren(c, ts, r).run)
    decreases ts, 0, 0
  {
    if ts == [] {
      GrowsRefl(c, r);
    } else {
      NodeGrows(c, ts[0], r);
      var x := EvalNode(c, ts[0], r);
      ChildrenGrows(c, ts[1..], x.run);
      GrowsTrans(c, r, x.run, RunChildren(c, ts, r).run);
    }
  }

  lemma {:induction false} ParallelGrows(c: Ctx, n: Node, r: Run)
    ensures Grows(c, r, EvalParallel(c, n, r).run)
    decreases n, 3, 0
  {
    var r1 := Emit(r, ParallelStart(n.id, ChildIds(n.tasks)));
    EmitGrows(c, r, ParallelStart(n.id, ChildIds(n.tasks)));
    ChildrenGrows(c, n.tasks, r1);
    var fs := RunChildren(c, n.tasks, r1);
    GrowsTrans(c, r, r1, fs.run);
    match Gather(n.tasks, fs.outs, 0, map[])
    case ChildRaised(cid, e) =>
      EscalateGrows(c, fs.run, ParallelFailedMessage(cid, e.msg));
      GrowsTrans(c, r, fs.run, EvalParallel(c, n, r).run);
    case AllDone(results) =>
      var steps := if HasId(n) then fs.run.steps[n.id.value := Dict(results)] else fs.run.steps;
      var s1 := fs.run.(steps := steps);
      GrowsRefl(c, fs.run);
      assert Grows(c, fs.run, s1);
      EmitGrows(c, s1, ParallelEnd(n.id));
      GrowsTrans(c, fs.run, s1, Emit(s1, ParallelEnd(n.id)));
      assert EvalParallel(c, n, r).run == Emit(s1, ParallelEnd(n.id));
      GrowsTrans(c, r, fs.run, Emit(s1, ParallelEnd(n.id)));
  }

  lemma {:induction false} BranchGrows(c: Ctx, n: Node, r: Run)
    ensures Grows(c, r, EvalBranch(c, n, r).run)
    decreases n, 3, 0
  {
    var sc := ScopeOf(r);
    if ExplicitForm(n) {
      var items := n.branch.value.cases.items;
      var ms := MatchesFrom(items, 0, sc, c.cond);
      if |ms| == 1 {
        var k := ms[0];
        var e := BranchSelectWhen(n.id, items[k].when.value);
        EmitGrows(c, r, e);
        TasksGrows(c, items[k].tasks, Emit(r, e), Null);
        GrowsTrans(c, r, Emit(r, e), EvalTasks(c, items[k].tasks, Emit(r, e), Null).run);
        FinishGrows(c, n, r, EvalTasks(c, items[k].tasks, Emit(r, e), Null));
      } else if |ms| == 0 {
        if n.branch.value.elseTasks == [] {
          EscalateGrows(c, r, NoMatchNoElseMessage(n));
        } else {
          TasksGrows(c, n.branch.value.elseTasks, r, Null);
          FinishGrows(c, n, r, EvalTasks(c, n.branch.value.elseTasks, r, Null));
        }
      } else {
        EscalateGrows(c, r, MultipleMatchMessage(n));
      }
    } else if n.branchKey == "" || n.cases.NotAMapping? {
      EscalateGrows(c, r, InvalidBranchMessage(n));
    } else {
      var v := ValueAt(sc, c.tryParse, BranchPath(n.branchKey));
      var entries := n.cases.entries;
      if v.List? || v.Dict? {
        GrowsRefl(c, r);
      } else if v.Str? && FindKey(entries, v.s) < |entries| {
        var e := BranchSelectKey(n.id, v.s);
        var ts := entries[FindKey(entries, v.s)].tasks;
        EmitGrows(c, r, e);
        TasksGrows(c, ts, Emit(r, e), Null);
        GrowsTrans(c, r, Emit(r, e), EvalTasks(c, ts, Emit(r, e), Null).run);
        FinishGrows(c, n, r, EvalTasks(c, ts, Emit(r, e), Null));
      } else if FindKey(entries, "else") < |entries| {
        var e := BranchSelectKey(n.id, "else");
        var ts := entries[FindKey(entries, "else")].tasks;
        EmitGrows(c, r, e);
        TasksGrows(c, ts, Emit(r, e), Null);
        GrowsTrans(c, r, Emit(r, e), EvalTasks(c, ts, Emit(r, e), Null).run);
        FinishGrows(c, n, r, EvalTasks(c, ts, Emit(r, e), Null));
      } else {
        EscalateGrows(c, r, NoCaseMessage(n, v));
      }
    }
  }

  lemma {:induction false} AfterBodyGrows(c: Ctx, n: Node, spec: LoopSpec, maxI: int, outs: seq<Value>, v: Value, r: Run)
    ensures AfterBody(c, n, spec, maxI, outs, v, r).Again? ==> Grows(c, r, AfterBody(c, n, spec, maxI, outs, v, r).run)
    ensures AfterBody(c, n, spec, maxI, outs, v, r).Halt? ==> Grows(c, r, AfterBody(c, n, spec, maxI, outs, v, r).res.run)
  {
    var i := |outs|;
    if outs != [] && c.serialize(v) == c.serialize(LastOf(outs)) {
      var r2 := Emit(r, LoopIterIdentical(n.id, i));
      EmitGrows(c, r, LoopIterIdentical(n.id, i));
      EscalateGrows(c, r2, IdenticalMessage(n));
      GrowsTrans(c, r, r2, Escalate(r2, IdenticalMessage(n)));
    } else if i + 1 >= maxI {
      EmitGrows(c, r, LoopMaxIters(n.id, i + 1));
    } else if spec.doWhile && spec.condition.Some? && !c.cond(spec.condition.value, ScopeOf(r)) {
      EmitGrows(c, r, LoopConditionFalse(n.id, i + 1, Post));
    } else {
      EmitGrows(c, r, LoopConditionTrue(n.id, i + 1, if spec.doWhile then Post else Pre));
    }
  }

  /** One iteration keeps the invariant, whether the loop stops or goes on. */
  lemma {:induction false} IterationGrows(c: Ctx, n: Node, spec: LoopSpec, maxI: int, outs: seq<Value>, r: Run)
    ensures LoopIteration(c, n, spec, maxI, outs, r).Again? ==> Grows(c, r, LoopIteration(c, n, spec, maxI, outs, r).run)
    ensures LoopIteration(c, n, spec, maxI, outs, r).Halt? ==> Grows(c, r, LoopIteration(c, n, spec, maxI, outs, r).res.run)
    decreases n, 1, 0
  {
    var r1 := Emit(r, LoopIterStart(n.id, |outs|));
    EmitGrows(c, r, LoopIterStart(n.id, |outs|));
    if !(!spec.doWhile && spec.condition.Some? && !c.cond(spec.condition.value, ScopeOf(r1))) {
      TasksGrows(c, n.tasks, r1, Null);
      var x := EvalTasks(c, n.tasks, r1, Null);
      GrowsTrans(c, r, r1, x.run);
      if x.out.Normal? {
        AfterBodyGrows(c, n, spec, maxI, outs, x.out.value, x.run);
        var it := AfterBody(c, n, spec, maxI, outs, x.out.value, x.run);
        if it.Again? { GrowsTrans(c, r, x.run, it.run); } else { GrowsTrans(c, r, x.run, it.res.run); }
      }
    }
  }

  lemma {:induction false} LoopFromGrows(c: Ctx, n: Node, spec: LoopSpec, maxI: int, outs: seq<Value>, r: Run)
    requires |outs| == 0 || |outs| < maxI
    ensures Grows(c, r, EvalLoopFrom(c, n, spec, maxI, outs, r).run)
    decreases n, 2, if maxI > |outs| then maxI - |outs| else 0
  {
    IterationGrows(c, n, spec, maxI, outs, r);
    match LoopIteration(c, n, spec, maxI, outs, r)
    case Halt(lr) =>
    case Again(outs2, r2) =>
      LoopFromGrows(c, n, spec, maxI, outs2, r2);
      GrowsTrans(c, r, r2, EvalLoopFrom(c, n, spec, maxI, outs2, r2).run);
  }

  lemma {:induction false} LoopGrows(c: Ctx, n: Node, r: Run)
    requires n.loop.Some?
    ensures Grows(c, r, EvalLoop(c, n, r).run)
    decreases n, 3, 0
  {
    var lr := EvalLoopFrom(c, n, n.loop.value, MaxItersOf(c, n.loop.value), [], r);
    LoopFromGrows(c, n, n.loop.value, MaxItersOf(c, n.loop.value), [], r);
    FinishGrows(c, n, r, Res(lr.out, lr.run));
  }

  /**
   * Over a whole plan: every failed `HumanAssistant` result added to the state
   * is one `hitl` event in the trace with the same message, in the same order,
   * `current_step` counts them, and the agent-call counter ends at most at the
   * cap (or where it started, if that was already past it).
   */
  lemma {:induction false} ExecuteGrows(c: Ctx, plan: PlanDoc, r: Run)
    ensures Grows(c, r, ExecutePlan(c, plan, r).run)
  {
    if plan.root.None? || CheckIds(plan.root.value, {}).Duplicate? {
      GrowsRefl(c, r);
    } else {
      var root := plan.root.value;
      var r1 := Emit(r, StartPlan(root.id));
      EmitGrows(c, r, StartPlan(root.id));
      NodeGrows(c, root, r1);
      var x := EvalNode(c, root, r1);
      GrowsTrans(c, r, r1, x.run);
      if x.out.Normal? {
        EmitGrows(c, x.run, EndPlan(root.id));
        GrowsTrans(c, r, x.run, Emit(x.run, EndPlan(root.id)));
      }
    }
  }
}
