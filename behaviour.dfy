/**
 * The behaviour of each construct of `PlanExecutor` (core/executor.py):
 * validation, dispatch priority, sequences, parallel blocks, both branch
 * forms, loops and agent calls, stated on the semantics of module
 * `Semantics`.
 */
module Behaviour {
  import opened Text
  import opened Values
  import opened Paths
  import opened Templates
  import opened StateModels
  import opened Plan
  import opened Semantics
  import opened Properties

  // ----- validation -----

  /**
   * `execute` refuses a plan without a root, and one in which a non-empty id
   * occurs twice among the nodes reachable through `tasks`, with a
   * `PlanValidationError` and without touching the record; any other plan
   * starts with a `start_plan` event.
   */
  lemma {:induction false} ValidationRejects(c: Ctx, plan: PlanDoc, r: Run)
    ensures plan.root.None? ==>
      ExecutePlan(c, plan, r) == Exec(Aborted(Exc(PlanValidationError, "Plan missing root")), r)
    ensures plan.root.Some? && !NoRepeats(TaskIds(plan.root.value)) ==>
      var e := ExecutePlan(c, plan, r);
      e.run == r && e.result.Aborted? && e.result.exc.kind == PlanValidationError
      && exists d :: d in TaskIds(plan.root.value) && d != "" && e.result.exc.msg == "Duplicate step id: " + d
    ensures plan.root.Some? && NoRepeats(TaskIds(plan.root.value)) ==>
      var e := ExecutePlan(c, plan, r);
      |e.run.trace| > |r.trace| && e.run.trace[|r.trace|] == StartPlan(plan.root.value.id)
  {
    if plan.root.Some? {
      var root := plan.root.value;
      ValidationFindsRepeats(root);
      if CheckIds(root, {}).Duplicate? {
        DuplicateIsRepeated(root, {});
      } else {
        var r1 := Emit(r, StartPlan(root.id));
        NodeGrows(c, root, r1);
        ExecuteGrows(c, plan, r);
        var x := EvalNode(c, root, r1);
        assert r1.trace <= x.run.trace;
        assert ExecutePlan(c, plan, r).run.trace[..|r1.trace|] == r1.trace;
      }
    }
  }

  /** Ids under branch cases, `else` or key-form cases are not looked at by the id check. */
  lemma {:induction false} IdCheckSkipsBranches(n: Node, seen: set<string>, b: Option<BranchSpec>, bk: string, cs: KeyCases)
    ensures CheckIds(n.(branch := b, branchKey := bk, cases := cs), seen) == CheckIds(n, seen)
  {
    assert n.(branch := b, branchKey := bk, cases := cs).tasks == n.tasks;
  }

  // ----- dispatch -----

  /** At or past the cap, entering any node raises `RuntimeError` and changes nothing (no `hitl`). */
  lemma {:induction false} CapBlocks(c: Ctx, n: Node, r: Run)
    requires r.total >= c.stepCap
    ensures EvalNode(c, n, r) == Res(Raised(Exc(RuntimeError, CapMessage())), r)
  {
  }

  lemma {:induction false} LoopFromIgnoresKind(c: Ctx, n: Node, m: Node, spec: LoopSpec, maxI: int, outs: seq<Value>, r: Run)
    requires m.id == n.id && m.tasks == n.tasks
    requires |outs| == 0 || |outs| < maxI
    ensures EvalLoopFrom(c, n, spec, maxI, outs, r) == EvalLoopFrom(c, m, spec, maxI, outs, r)
    decreases if maxI > |outs| then maxI - |outs| else 0
  {
    assert IdText(n) == IdText(m);
    assert LoopIteration(c, n, spec, maxI, outs, r) == LoopIteration(c, m, spec, maxI, outs, r);
    match LoopIteration(c, n, spec, maxI, outs, r)
    case Halt(_) =>
    case Again(outs2, r2) =>
      LoopFromIgnoresKind(c, n, m, spec, maxI, outs2, r2);
  }

  /** A dict-valued `loop` wins: `type`, `branch`, `branch_key` and `cases` are not looked at. */
  lemma {:induction false} LoopFirst(c: Ctx, n: Node, r: Run, kind: Option<string>, b: Option<BranchSpec>, bk: string, cs: KeyCases)
    requires n.loop.Some?
    ensures EvalNode(c, n, r) == EvalNode(c, n.(kind := kind, branch := b, branchKey := bk, cases := cs), r)
  {
    var m := n.(kind := kind, branch := b, branchKey := bk, cases := cs);
    if r.total < c.stepCap {
      var r1 := Emit(r, LoopEnter(n.id));
      LoopFromIgnoresKind(c, n, m, n.loop.value, MaxItersOf(c, n.loop.value), [], r1);
      assert EvalLoop(c, n, r1) == EvalLoop(c, m, r1);
    }
  }

  /** Without a loop, a branch specification wins over `type`. */
  lemma {:induction false} BranchBeforeType(c: Ctx, n: Node, r: Run, kind: Option<string>)
    requires n.loop.None? && (n.branch.Some? || n.branchKey != "")
    ensures EvalNode(c, n, r) == EvalNode(c, n.(kind := kind), r)
  {
    var m := n.(kind := kind);
    if r.total < c.stepCap {
      assert IdText(n) == IdText(m);
      assert EvalBranch(c, n, Emit(r, BranchEnter(n.id))) == EvalBranch(c, m, Emit(r, BranchEnter(n.id)));
    }
  }

  /** A node that is none of loop, branch, `sequential`, `parallel` or `agent_call` gives `None` and does nothing. */
  lemma {:induction false} UnknownTypeIsNone(c: Ctx, n: Node, r: Run)
    requires r.total < c.stepCap
    requires n.loop.None? && n.branch.None? && n.branchKey == ""
    requires n.kind != Some("sequential") && n.kind != Some("parallel") && n.kind != Some("agent_call")
    ensures EvalNode(c, n, r) == Res(Normal(Null), r)
  {
  }

  // ----- sequences -----

  /** A sequence with one more child is the shorter sequence followed by that child, unless it raised. */
  lemma {:induction false} TasksSnoc(c: Ctx, ts: seq<Node>, t: Node, r: Run, last: Value)
    ensures EvalTasks(c, ts + [t], r, last) ==
      (var x := EvalTasks(c, ts, r, last); if x.out.Raised? then x else EvalNode(c, t, x.run))
    decreases |ts|
  {
    if ts == [] {
      assert ts + [t] == [t];
      assert [t][1..] == [];
    } else {
      assert (ts + [t])[0] == ts[0];
      assert (ts + [t])[1..] == ts[1..] + [t];
      var x := EvalNode(c, ts[0], r);
      if x.out.Normal? {
        TasksSnoc(c, ts[1..], t, x.run, x.out.value);
      }
    }
  }

  /** A sequential node returns its last child's result, and `None` when it has no children. */
  lemma {:induction false} SequentialReturnsLast(c: Ctx, n: Node, r: Run, ts: seq<Node>, t: Node)
    requires r.total < c.stepCap
    requires n.loop.None? && n.branch.None? && n.branchKey == "" && n.kind == Some("sequential")
    ensures n.tasks == [] ==> EvalNode(c, n, r) == Res(Normal(Null), r)
    ensures n.tasks == ts + [t] ==>
      EvalNode(c, n, r) ==
        (var x := EvalTasks(c, ts, r, Null); if x.out.Raised? then x else EvalNode(c, t, x.run))
  {
    if n.tasks == ts + [t] {
      TasksSnoc(c, ts, t, r, Null);
    }
  }

  // ----- parallel blocks -----

  /** The keys a parallel block's result map gets from its children `i..`: each child's id, or `"anon"`. */
  function ChildKeysFrom(ts: seq<Node>, i: nat): set<string> {
    set k | i <= k < |ts| :: ChildKey(ts[k])
  }

  /** No child after `k` has `k`'s key, so `k`'s result is the one the map keeps. */
  predicate LastWithKey(ts: seq<Node>, k: nat) {
    forall j :: k < j < |ts| ==> ChildKey(ts[j]) != ChildKey(ts[k])
  }

  /** The record child `k` of a parallel block starts from: the block's record after children `0..k-1`. */
  function Before(c: Ctx, ts: seq<Node>, r: Run, k: nat): Run
    requires k <= |ts|
  {
    RunChildren(c, ts[..k], r).run
  }

  lemma {:induction false} BeforeShift(c: Ctx, ts: seq<Node>, r: Run, k: nat)
    requires 1 <= k <= |ts|
    ensures Before(c, ts, r, k) == Before(c, ts[1..], EvalNode(c, ts[0], r).run, k - 1)
  {
    assert ts[..k][0] == ts[0];
    assert ts[..k][1..] == ts[1..][..k - 1];
  }

  /** Every child of a parallel block runs, each on the record its predecessors left; the block's record is the one after the last child. */
  lemma {:induction false} ChildrenRunInTurn(c: Ctx, ts: seq<Node>, r: Run)
    ensures forall k :: 0 <= k < |ts| ==>
      RunChildren(c, ts, r).outs[k] == EvalNode(c, ts[k], Before(c, ts, r, k)).out
    ensures RunChildren(c, ts, r).run == Before(c, ts, r, |ts|)
    decreases |ts|
  {
    assert ts[..|ts|] == ts;
    if ts != [] {
      var x := EvalNode(c, ts[0], r);
      ChildrenRunInTurn(c, ts[1..], x.run);
      BeforeShift(c, ts, r, |ts|);
      assert ts[1..][..|ts| - 1] == ts[1..];
      forall k | 0 <= k < |ts|
        ensures RunChildren(c, ts, r).outs[k] == EvalNode(c, ts[k], Before(c, ts, r, k)).out
      {
        if k == 0 {
          assert ts[..0] == [];
        } else {
          BeforeShift(c, ts, r, k);
          assert ts[1..][k - 1] == ts[k];
        }
      }
    }
  }

  /** Reading the futures collects every result exactly when no child raised. */
  lemma {:induction false} GatherDone(ts: seq<Node>, outs: seq<Outcome>, i: nat, acc: map<string, Value>)
    requires |outs| == |ts| && i <= |ts|
    ensures Gather(ts, outs, i, acc).AllDone? <==> forall k :: i <= k < |ts| ==> outs[k].Normal?
    ensures Gather(ts, outs, i, acc).AllDone? ==>
      Gather(ts, outs, i, acc).results.Keys == acc.Keys + ChildKeysFrom(ts, i)
    decreases |ts| - i
  {
    if i < |ts| && outs[i].Normal? {
      GatherDone(ts, outs, i + 1, acc[ChildKey(ts[i]) := outs[i].value]);
      assert ChildKeysFrom(ts, i) == {ChildKey(ts[i])} + ChildKeysFrom(ts, i + 1);
    }
  }

  /** A key no remaining child has keeps the value it was collected with. */
  lemma {:induction false} GatherKeeps(ts: seq<Node>, outs: seq<Outcome>, i: nat, acc: map<string, Value>)
    requires |outs| == |ts| && i <= |ts|
    requires Gather(ts, outs, i, acc).AllDone?
    ensures forall key :: key in acc && key !in ChildKeysFrom(ts, i) ==>
      key in Gather(ts, outs, i, acc).results && Gather(ts, outs, i, acc).results[key] == acc[key]
    decreases |ts| - i
  {
    if i < |ts| {
      GatherKeeps(ts, outs, i + 1, acc[ChildKey(ts[i]) := outs[i].value]);
      assert ChildKeysFrom(ts, i) == {ChildKey(ts[i])} + ChildKeysFrom(ts, i + 1);
    }
  }

  /** The collected map holds, under each key, the result of the last child with that key. */
  lemma {:induction false} GatherValues(ts: seq<Node>, outs: seq<Outcome>, i: nat, acc: map<string, Value>)
    requires |outs| == |ts| && i <= |ts|
    requires Gather(ts, outs, i, acc).AllDone?
    ensures forall k :: i <= k < |ts| && LastWithKey(ts, k) ==>
      outs[k].Normal? && ChildKey(ts[k]) in Gather(ts, outs, i, acc).results
      && Gather(ts, outs, i, acc).results[ChildKey(ts[k])] == outs[k].value
    decreases |ts| - i
  {
    if i < |ts| {
      assert outs[i].Normal?;
      var acc2 := acc[ChildKey(ts[i]) := outs[i].value];
      var g := Gather(ts, outs, i + 1, acc2);
      assert Gather(ts, outs, i, acc) == g;
      GatherValues(ts, outs, i + 1, acc2);
      forall k | i <= k < |ts| && LastWithKey(ts, k)
        ensures outs[k].Normal? && ChildKey(ts[k]) in g.results && g.results[ChildKey(ts[k])] == outs[k].value
      {
        if k == i {
          assert ChildKey(ts[i]) !in ChildKeysFrom(ts, i + 1);
          GatherKeeps(ts, outs, i + 1, acc2);
        }
      }
    }
  }

  /** A stop while reading the futures is at the first child, in list order, that raised. */
  lemma {:induction false} GatherFirstFailure(ts: seq<Node>, outs: seq<Outcome>, i: nat, acc: map<string, Value>)
    requires |outs| == |ts| && i <= |ts|
    requires Gather(ts, outs, i, acc).ChildRaised?
    ensures exists k :: (i <= k < |ts| && (forall j :: i <= j < k ==> outs[j].Normal?)
      && outs[k] == Raised(Gather(ts, outs, i, acc).exc) && Gather(ts, outs, i, acc).cid == ChildKey(ts[k]))
    decreases |ts| - i
  {
    if outs[i].Normal? {
      GatherFirstFailure(ts, outs, i + 1, acc[ChildKey(ts[i]) := outs[i].value]);
    }
  }

  /** No child raised: the block returns the map of the children's results. */
  lemma {:induction false} ParallelSucceeds(c: Ctx, n: Node, r: Run)
    requires var r1 := Emit(r, ParallelStart(n.id, ChildIds(n.tasks)));
      forall k :: 0 <= k < |n.tasks| ==> EvalNode(c, n.tasks[k], Before(c, n.tasks, r1, k)).out.Normal?
    ensures var ts := n.tasks; var r1 := Emit(r, ParallelStart(n.id, ChildIds(ts)));
      var x := EvalParallel(c, n, r);
      x.out.Normal? && x.out.value.Dict? && x.out.value.fields.Keys == ChildKeysFrom(ts, 0)
      && (forall k :: 0 <= k < |ts| && LastWithKey(ts, k) ==>
            x.out.value.fields[ChildKey(ts[k])] == EvalNode(c, ts[k], Before(c, ts, r1, k)).out.value)
      && (HasId(n) ==> n.id.value in x.run.steps && x.run.steps[n.id.value] == x.out.value)
      && x.run.trace == Before(c, ts, r1, |ts|).trace + [ParallelEnd(n.id)]
      && x.run.st == Before(c, ts, r1, |ts|).st
  {
    var ts := n.tasks;
    var r1 := Emit(r, ParallelStart(n.id, ChildIds(ts)));
    var fs := RunChildren(c, ts, r1);
    ChildrenRunInTurn(c, ts, r1);
    GatherDone(ts, fs.outs, 0, map[]);
    GatherValues(ts, fs.outs, 0, map[]);
  }

  /** Some child raised: after every child ran, the first one in list order escalates and its exception is re-raised. */
  lemma {:induction false} ParallelRaises(c: Ctx, n: Node, r: Run)
    requires var r1 := Emit(r, ParallelStart(n.id, ChildIds(n.tasks)));
      exists k :: 0 <= k < |n.tasks| && EvalNode(c, n.tasks[k], Before(c, n.tasks, r1, k)).out.Raised?
    ensures var ts := n.tasks; var r1 := Emit(r, ParallelStart(n.id, ChildIds(ts)));
      var x := EvalParallel(c, n, r);
      x.out.Raised?
      && exists k :: (0 <= k < |ts| && (forall j :: 0 <= j < k ==> EvalNode(c, ts[j], Before(c, ts, r1, j)).out.Normal?)
        && EvalNode(c, ts[k], Before(c, ts, r1, k)).out == x.out
        && x.run == Escalate(Before(c, ts, r1, |ts|), ParallelFailedMessage(ChildKey(ts[k]), x.out.exc.msg)))
  {
    var ts := n.tasks;
    var r1 := Emit(r, ParallelStart(n.id, ChildIds(ts)));
    var fs := RunChildren(c, ts, r1);
    ChildrenRunInTurn(c, ts, r1);
    var k0 :| 0 <= k0 < |ts| && EvalNode(c, ts[k0], Before(c, ts, r1, k0)).out.Raised?;
    FirstRaised(ts, fs.outs, k0);
    var g := Gather(ts, fs.outs, 0, map[]);
    var k :| 0 <= k < |ts| && (forall j :: 0 <= j < k ==> fs.outs[j].Normal?)
      && fs.outs[k] == Raised(g.exc) && g.cid == ChildKey(ts[k]);
    var x := EvalParallel(c, n, r);
    assert x == Res(Raised(g.exc), Escalate(fs.run, ParallelFailedMessage(g.cid, g.exc.msg)));
  }

  /** When some future raised, reading them stops at the first one that did. */
  lemma {:induction false} FirstRaised(ts: seq<Node>, outs: seq<Outcome>, k0: nat)
    requires |outs| == |ts| && k0 < |ts| && outs[k0].Raised?
    ensures Gather(ts, outs, 0, map[]).ChildRaised?
    ensures exists k :: (0 <= k < |ts| && (forall j :: 0 <= j < k ==> outs[j].Normal?)
      && outs[k] == Raised(Gather(ts, outs, 0, map[]).exc) && Gather(ts, outs, 0, map[]).cid == ChildKey(ts[k]))
  {
    GatherDone(ts, outs, 0, map[]);
    GatherFirstFailure(ts, outs, 0, map[]);
  }

  /**
   * A parallel block is traced between a `parallel_start` listing its
   * children's ids and, when no child raised, a `parallel_end`.
   */
  lemma {:induction false} ParallelTraced(c: Ctx, n: Node, r: Run)
    ensures var x := EvalParallel(c, n, r);
      |x.run.trace| > |r.trace| && x.run.trace[|r.trace|] == ParallelStart(n.id, ChildIds(n.tasks))
      && (x.out.Normal? ==> x.run.trace[|x.run.trace| - 1] == ParallelEnd(n.id))
  {
    var r1 := Emit(r, ParallelStart(n.id, ChildIds(n.tasks)));
    ChildrenGrows(c, n.tasks, r1);
    var fs := RunChildren(c, n.tasks, r1);
    assert fs.run.trace[|r.trace|] == r1.trace[|r.trace|];
  }

  // ----- branches, explicit form -----

  /** Every match fires. */
  lemma {:induction false} MatchesFire(cases: seq<Case>, from: nat, sc: Scope, cond: (string, Scope) -> bool)
    requires from <= |cases|
    ensures forall i :: 0 <= i < |MatchesFrom(cases, from, sc, cond)| ==>
      Fires(cases, MatchesFrom(cases, from, sc, cond)[i], sc, cond)
    decreases |cases| - from
  {
    if from < |cases| {
      MatchesFire(cases, from + 1, sc, cond);
      var rest := MatchesFrom(cases, from + 1, sc, cond);
      var ms := MatchesFrom(cases, from, sc, cond);
      if Fires(cases, from, sc, cond) {
        assert ms == [from] + rest;
        assert forall i :: 1 <= i < |ms| ==> ms[i] == rest[i - 1];
      } else {
        assert ms == rest;
      }
    }
  }

  /** Every firing case from `from` on is a match. */
  lemma {:induction false} MatchesComplete(cases: seq<Case>, from: nat, sc: Scope, cond: (string, Scope) -> bool)
    requires from <= |cases|
    ensures forall j :: from <= j < |cases| && Fires(cases, j, sc, cond) ==> j in MatchesFrom(cases, from, sc, cond)
    decreases |cases| - from
  {
    if from < |cases| {
      MatchesComplete(cases, from + 1, sc, cond);
    }
  }

  /** The matches come in increasing order. */
  lemma {:induction false} MatchesIncrease(cases: seq<Case>, from: nat, sc: Scope, cond: (string, Scope) -> bool)
    requires from <= |cases|
    ensures forall i, k :: 0 <= i < k < |MatchesFrom(cases, from, sc, cond)| ==>
      MatchesFrom(cases, from, sc, cond)[i] < MatchesFrom(cases, from, sc, cond)[k]
    decreases |cases| - from
  {
    if from < |cases| {
      MatchesIncrease(cases, from + 1, sc, cond);
      var rest := MatchesFrom(cases, from + 1, sc, cond);
      var ms := MatchesFrom(cases, from, sc, cond);
      if Fires(cases, from, sc, cond) {
        assert ms == [from] + rest;
        assert forall i :: 1 <= i < |ms| ==> ms[i] == rest[i - 1];
      } else {
        assert ms == rest;
      }
    }
  }

  /** When only case `k` fires, the matches from `from` on are `[k]`, or none past `k`. */
  lemma {:induction false} MatchesOnly(cases: seq<Case>, from: nat, sc: Scope, cond: (string, Scope) -> bool, k: nat)
    requires from <= |cases| && k < |cases|
    requires Fires(cases, k, sc, cond)
    requires forall j :: 0 <= j < |cases| && j != k ==> !Fires(cases, j, sc, cond)
    ensures MatchesFrom(cases, from, sc, cond) == if from <= k then [k] else []
    decreases |cases| - from
  {
    if from < |cases| {
      MatchesOnly(cases, from + 1, sc, cond, k);
      var rest := MatchesFrom(cases, from + 1, sc, cond);
      if from == k {
        assert MatchesFrom(cases, from, sc, cond) == [k] + rest;
      } else {
        assert !Fires(cases, from, sc, cond);
        assert MatchesFrom(cases, from, sc, cond) == rest;
      }
    }
  }

  /** When no case fires there are no matches. */
  lemma {:induction false} MatchesNone(cases: seq<Case>, from: nat, sc: Scope, cond: (string, Scope) -> bool)
    requires from <= |cases|
    requires forall j :: 0 <= j < |cases| ==> !Fires(cases, j, sc, cond)
    ensures MatchesFrom(cases, from, sc, cond) == []
    decreases |cases| - from
  {
    if from < |cases| {
      MatchesNone(cases, from + 1, sc, cond);
    }
  }

  /** Two firing cases at or after `from` give at least two matches. */
  lemma {:induction false} MatchesTwo(cases: seq<Case>, from: nat, sc: Scope, cond: (string, Scope) -> bool, j: nat, k: nat)
    requires from <= |cases| && j < k < |cases|
    requires Fires(cases, j, sc, cond) && Fires(cases, k, sc, cond)
    ensures |MatchesFrom(cases, from, sc, cond)| >= (if from <= j then 1 else 0) + (if from <= k then 1 else 0)
    decreases |cases| - from
  {
    if from < |cases| {
      MatchesTwo(cases, from + 1, sc, cond, j, k);
    }
  }

  /** Exactly one firing case: it is selected and run, and its result stored under the node id. */
  lemma {:induction false} ExplicitUnique(c: Ctx, n: Node, r: Run, k: nat)
    requires ExplicitForm(n)
    requires k < |n.branch.value.cases.items|
    requires Fires(n.branch.value.cases.items, k, ScopeOf(r), c.cond)
    requires forall j :: 0 <= j < |n.branch.value.cases.items| && j != k ==>
               !Fires(n.branch.value.cases.items, j, ScopeOf(r), c.cond)
    ensures var items := n.branch.value.cases.items;
      EvalBranch(c, n, r) ==
        Finish(n, EvalTasks(c, items[k].tasks, Emit(r, BranchSelectWhen(n.id, items[k].when.value)), Null))
  {
    MatchesOnly(n.branch.value.cases.items, 0, ScopeOf(r), c.cond, k);
  }

  /** No firing case: a non-empty `else` runs; otherwise one escalation and `None`. */
  lemma {:induction false} ExplicitNone(c: Ctx, n: Node, r: Run)
    requires ExplicitForm(n)
    requires forall j :: 0 <= j < |n.branch.value.cases.items| ==> !Fires(n.branch.value.cases.items, j, ScopeOf(r), c.cond)
    ensures n.branch.value.elseTasks == [] ==>
      EvalBranch(c, n, r) == Res(Normal(Null), Escalate(r, NoMatchNoElseMessage(n)))
    ensures n.branch.value.elseTasks != [] ==>
      EvalBranch(c, n, r) == Finish(n, EvalTasks(c, n.branch.value.elseTasks, r, Null))
  {
    MatchesNone(n.branch.value.cases.items, 0, ScopeOf(r), c.cond);
  }

  /** Two firing cases: no case runs; one escalation and `None`. */
  lemma {:induction false} ExplicitAmbiguous(c: Ctx, n: Node, r: Run, j: nat, k: nat)
    requires ExplicitForm(n)
    requires j < k < |n.branch.value.cases.items|
    requires Fires(n.branch.value.cases.items, j, ScopeOf(r), c.cond)
    requires Fires(n.branch.value.cases.items, k, ScopeOf(r), c.cond)
    ensures EvalBranch(c, n, r) == Res(Normal(Null), Escalate(r, MultipleMatchMessage(n)))
  {
    MatchesTwo(n.branch.value.cases.items, 0, ScopeOf(r), c.cond, j, k);
  }

  // ----- branches, key form -----

  /** The key form applies: no explicit case list, a non-empty key and a mapping of cases. */
  predicate KeyForm(n: Node) {
    !ExplicitForm(n) && n.branchKey != "" && n.cases.CaseMap?
  }

  /** The value a key-form branch switches on. */
  function SwitchValue(c: Ctx, n: Node, r: Run): Value {
    ValueAt(ScopeOf(r), c.tryParse, BranchPath(n.branchKey))
  }

  /** No case is keyed `key`. */
  predicate NoKey(entries: seq<KeyCase>, key: string) {
    forall j :: 0 <= j < |entries| ==> entries[j].key != key
  }

  lemma {:induction false} FindKeyIs(entries: seq<KeyCase>, key: string, k: nat)
    requires k < |entries| && entries[k].key == key
    requires forall j :: 0 <= j < k ==> entries[j].key != key
    ensures FindKey(entries, key) == k
  {
  }

  lemma {:induction false} FindKeyMissing(entries: seq<KeyCase>, key: string)
    requires NoKey(entries, key)
    ensures FindKey(entries, key) == |entries|
  {
  }

  /** A string value selects the case keyed by it, after a `branch_select` event naming the value. */
  lemma {:induction false} KeySelects(c: Ctx, n: Node, r: Run, k: nat)
    requires KeyForm(n) && SwitchValue(c, n, r).Str?
    requires k < |n.cases.entries| && n.cases.entries[k].key == SwitchValue(c, n, r).s
    requires forall j :: 0 <= j < k ==> n.cases.entries[j].key != SwitchValue(c, n, r).s
    ensures EvalBranch(c, n, r) ==
      Finish(n, EvalTasks(c, n.cases.entries[k].tasks, Emit(r, BranchSelectKey(n.id, SwitchValue(c, n, r).s)), Null))
  {
    FindKeyIs(n.cases.entries, SwitchValue(c, n, r).s, k);
  }

  /** A scalar value with no case of its own falls back to the `else` case, when there is one. */
  lemma {:induction false} KeyFallsBack(c: Ctx, n: Node, r: Run, k: nat)
    requires KeyForm(n) && IsScalar(SwitchValue(c, n, r))
    requires SwitchValue(c, n, r).Str? ==> NoKey(n.cases.entries, SwitchValue(c, n, r).s)
    requires k < |n.cases.entries| && n.cases.entries[k].key == "else"
    requires forall j :: 0 <= j < k ==> n.cases.entries[j].key != "else"
    ensures EvalBranch(c, n, r) ==
      Finish(n, EvalTasks(c, n.cases.entries[k].tasks, Emit(r, BranchSelectKey(n.id, "else")), Null))
  {
    var v := SwitchValue(c, n, r);
    if v.Str? {
      FindKeyMissing(n.cases.entries, v.s);
    }
    FindKeyIs(n.cases.entries, "else", k);
  }

  /** No case for the value and no `else`: one escalation naming the value, and `None`. */
  lemma {:induction false} KeyNoCase(c: Ctx, n: Node, r: Run)
    requires KeyForm(n) && IsScalar(SwitchValue(c, n, r))
    requires SwitchValue(c, n, r).Str? ==> NoKey(n.cases.entries, SwitchValue(c, n, r).s)
    requires NoKey(n.cases.entries, "else")
    ensures EvalBranch(c, n, r) == Res(Normal(Null), Escalate(r, NoCaseMessage(n, SwitchValue(c, n, r))))
  {
    var v := SwitchValue(c, n, r);
    if v.Str? {
      FindKeyMissing(n.cases.entries, v.s);
    }
    FindKeyMissing(n.cases.entries, "else");
  }

  /** A list or dict value cannot be a dict key: `TypeError`, nothing recorded. */
  lemma {:induction false} KeyUnhashable(c: Ctx, n: Node, r: Run)
    requires KeyForm(n) && !IsScalar(SwitchValue(c, n, r))
    ensures EvalBranch(c, n, r) ==
      Res(Raised(Exc(TypeError, "unhashable type: '" + TypeName(SwitchValue(c, n, r)) + "'")), r)
  {
  }

  /** Neither form applies: one escalation and `None`. */
  lemma {:induction false} BranchInvalid(c: Ctx, n: Node, r: Run)
    requires !ExplicitForm(n) && (n.branchKey == "" || n.cases.NotAMapping?)
    ensures EvalBranch(c, n, r) == Res(Normal(Null), Escalate(r, InvalidBranchMessage(n)))
  {
  }

  // ----- loops -----

  /** No two consecutive results serialise the same. */
  predicate Distinct(ser: Value -> string, outs: seq<Value>) {
    forall i :: 0 < i < |outs| ==> ser(outs[i]) != ser(outs[i - 1])
  }

  function LastEvent(r: Run): Event
    requires r.trace != []
  {
    r.trace[|r.trace| - 1]
  }

  /** The condition holds on every state, or there is none. */
  ghost predicate AlwaysTrue(c: Ctx, spec: LoopSpec) {
    spec.condition.None? || forall sc :: c.cond(spec.condition.value, sc)
  }

  /** A loop's outcome raised exactly when its body did, and is otherwise its last body result. */
  predicate Coherent(lr: LoopRes) {
    (lr.out.Raised? <==> lr.stop == BodyRaised)
    && (lr.out.Normal? ==> lr.out.value == LastOf(lr.outs))
  }

  /** A stop for identical outputs comes at the first repeat and ends in the escalation; any other stop saw no repeat. */
  predicate RepeatStop(ser: Value -> string, n: Node, lr: LoopRes) {
    && (lr.stop == Identical ==>
          |lr.outs| >= 2 && ser(lr.outs[|lr.outs| - 1]) == ser(lr.outs[|lr.outs| - 2])
          && Distinct(ser, lr.outs[..|lr.outs| - 1])
          && lr.run.trace != [] && LastEvent(lr.run) == Hitl(IdenticalMessage(n)))
    && (lr.stop != Identical ==> Distinct(ser, lr.outs))
  }

  /** A stop at the cap comes after exactly `max(1, max_iters)` runs and ends in `loop_max_iters`. */
  predicate CapStop(n: Node, maxI: int, lr: LoopRes) {
    lr.stop == MaxIters ==>
      |lr.outs| == Max(1, maxI) && lr.run.trace != [] && LastEvent(lr.run) == LoopMaxIters(n.id, |lr.outs|)
  }

  /** A halted iteration kept the results so far and added at most one. */
  predicate KeepsOuts(outs: seq<Value>, lr: LoopRes) {
    && (lr.stop == PreFalse || lr.stop == BodyRaised ==> lr.outs == outs)
    && (lr.stop != PreFalse && lr.stop != BodyRaised ==> |lr.outs| == |outs| + 1 && lr.outs[..|outs|] == outs)
  }

  lemma {:induction false} DistinctSnoc(ser: Value -> string, outs: seq<Value>, v: Value)
    requires Distinct(ser, outs)
    requires outs != [] ==> ser(v) != ser(LastOf(outs))
    ensures Distinct(ser, outs + [v])
  {
    var o := outs + [v];
    forall i | 0 < i < |o| ensures ser(o[i]) != ser(o[i - 1]) {
      if i < |outs| {
        assert o[i] == outs[i] && o[i - 1] == outs[i - 1];
      } else {
        assert o[i] == v && o[i - 1] == LastOf(outs);
      }
    }
  }

  /** After the body: the repeat check (see `RepeatStop`). */
  lemma {:induction false} AfterBodyRepeat(c: Ctx, n: Node, spec: LoopSpec, maxI: int, outs: seq<Value>, v: Value, r: Run)
    requires Distinct(c.serialize, outs)
    ensures AfterBody(c, n, spec, maxI, outs, v, r).Again? ==>
      Distinct(c.serialize, AfterBody(c, n, spec, maxI, outs, v, r).outs)
    ensures AfterBody(c, n, spec, maxI, outs, v, r).Halt? ==>
      RepeatStop(c.serialize, n, AfterBody(c, n, spec, maxI, outs, v, r).res)
  {
    var outs2 := outs + [v];
    if outs != [] && c.serialize(v) == c.serialize(LastOf(outs)) {
      assert outs2[..|outs2| - 1] == outs;
      assert outs2[|outs2| - 1] == v && outs2[|outs2| - 2] == LastOf(outs);
    } else {
      DistinctSnoc(c.serialize, outs, v);
    }
  }

  /** After the body: the cap (see `CapStop`) and which stops can happen. */
  lemma {:induction false} AfterBodyCap(c: Ctx, n: Node, spec: LoopSpec, maxI: int, outs: seq<Value>, v: Value, r: Run)
    requires |outs| == 0 || |outs| < maxI
    ensures AfterBody(c, n, spec, maxI, outs, v, r).Halt? ==>
      CapStop(n, maxI, AfterBody(c, n, spec, maxI, outs, v, r).res)
      && |AfterBody(c, n, spec, maxI, outs, v, r).res.outs| <= Max(1, maxI)
      && AfterBody(c, n, spec, maxI, outs, v, r).res.stop != PreFalse
      && AfterBody(c, n, spec, maxI, outs, v, r).res.stop != BodyRaised
    ensures AlwaysTrue(c, spec) && AfterBody(c, n, spec, maxI, outs, v, r).Halt? ==>
      AfterBody(c, n, spec, maxI, outs, v, r).res.stop != PostFalse
  {
    if outs != [] && c.serialize(v) == c.serialize(LastOf(outs)) {
      AfterIdentical(c, n, spec, maxI, outs, v, r);
    } else if |outs| + 1 >= maxI {
      AfterCap(c, n, spec, maxI, outs, v, r);
      assert |outs| + 1 == Max(1, maxI);
    } else if spec.doWhile && spec.condition.Some? && !c.cond(spec.condition.value, ScopeOf(r)) {
      AfterPostFalse(c, n, spec, maxI, outs, v, r);
    } else {
      AfterAgain(c, n, spec, maxI, outs, v, r);
    }
  }

  /** What one iteration guarantees, whether it goes on or halts. */
  ghost predicate IterShape(c: Ctx, n: Node, spec: LoopSpec, maxI: int, outs: seq<Value>, it: Iter) {
    && (it.Again? ==> Distinct(c.serialize, it.outs))
    && (it.Halt? ==>
          KeepsOuts(outs, it.res) && Coherent(it.res) && |it.res.outs| <= Max(1, maxI)
          && RepeatStop(c.serialize, n, it.res) && CapStop(n, maxI, it.res))
    && (AlwaysTrue(c, spec) && it.Halt? ==> it.res.stop != PreFalse && it.res.stop != PostFalse)
  }

  /** The rest of an iteration after the body returned `v` has that shape. */
  lemma {:induction false} AfterBodyShape(c: Ctx, n: Node, spec: LoopSpec, maxI: int, outs: seq<Value>, v: Value, r: Run)
    requires |outs| == 0 || |outs| < maxI
    requires Distinct(c.serialize, outs)
    ensures IterShape(c, n, spec, maxI, outs, AfterBody(c, n, spec, maxI, outs, v, r))
  {
    AfterBodyRepeat(c, n, spec, maxI, outs, v, r);
    AfterBodyCap(c, n, spec, maxI, outs, v, r);
    var outs2 := outs + [v];
    assert outs2[..|outs|] == outs;
  }

  /** Every iteration has that shape, whether it goes on or halts. */
  lemma {:induction false} IterationShape(c: Ctx, n: Node, spec: LoopSpec, maxI: int, outs: seq<Value>, r: Run)
    requires |outs| == 0 || |outs| < maxI
    requires Distinct(c.serialize, outs)
    ensures IterShape(c, n, spec, maxI, outs, LoopIteration(c, n, spec, maxI, outs, r))
  {
    var r1 := Emit(r, LoopIterStart(n.id, |outs|));
    if !spec.doWhile && spec.condition.Some? && !c.cond(spec.condition.value, ScopeOf(r1)) {
      IterationPreFalse(c, n, spec, maxI, outs, r);
    } else {
      IterationBody(c, n, spec, maxI, outs, r);
      var x := EvalTasks(c, n.tasks, r1, Null);
      if x.out.Normal? {
        AfterBodyShape(c, n, spec, maxI, outs, x.out.value, x.run);
      }
    }
  }

  /** The whole loop keeps the results it started with, stays within the cap, and yields the last result. */
  lemma {:induction false} LoopOutcome(c: Ctx, n: Node, spec: LoopSpec, maxI: int, outs: seq<Value>, r: Run)
    requires |outs| == 0 || |outs| < maxI
    requires Distinct(c.serialize, outs)
    ensures |outs| <= |EvalLoopFrom(c, n, spec, maxI, outs, r).outs|
    ensures EvalLoopFrom(c, n, spec, maxI, outs, r).outs[..|outs|] == outs
    ensures Coherent(EvalLoopFrom(c, n, spec, maxI, outs, r))
    ensures |EvalLoopFrom(c, n, spec, maxI, outs, r).outs| <= Max(1, maxI)
    decreases if maxI > |outs| then maxI - |outs| else 0
  {
    IterationShape(c, n, spec, maxI, outs, r);
    match LoopIteration(c, n, spec, maxI, outs, r)
    case Halt(lr) =>
    case Again(outs2, r2) =>
      LoopOutcome(c, n, spec, maxI, outs2, r2);
      var lr := EvalLoopFrom(c, n, spec, maxI, outs2, r2);
      assert lr.outs[..|outs|] == lr.outs[..|outs2|][..|outs|];
  }

  /** The loop stops for identical outputs exactly at the first repeat (see `RepeatStop`). */
  lemma {:induction false} LoopIdentical(c: Ctx, n: Node, spec: LoopSpec, maxI: int, outs: seq<Value>, r: Run)
    requires |outs| == 0 || |outs| < maxI
    requires Distinct(c.serialize, outs)
    ensures RepeatStop(c.serialize, n, EvalLoopFrom(c, n, spec, maxI, outs, r))
    decreases if maxI > |outs| then maxI - |outs| else 0
  {
    IterationShape(c, n, spec, maxI, outs, r);
    match LoopIteration(c, n, spec, maxI, outs, r)
    case Halt(lr) =>
    case Again(outs2, r2) =>
      LoopIdentical(c, n, spec, maxI, outs2, r2);
  }

  /** With a condition that always holds (or none), the loop stops only at the cap, on a repeat, or by raising. */
  lemma {:induction false} LoopCapStop(c: Ctx, n: Node, spec: LoopSpec, maxI: int, outs: seq<Value>, r: Run)
    requires |outs| == 0 || |outs| < maxI
    requires Distinct(c.serialize, outs)
    ensures CapStop(n, maxI, EvalLoopFrom(c, n, spec, maxI, outs, r))
    ensures AlwaysTrue(c, spec) ==>
      EvalLoopFrom(c, n, spec, maxI, outs, r).stop != PreFalse && EvalLoopFrom(c, n, spec, maxI, outs, r).stop != PostFalse
    decreases if maxI > |outs| then maxI - |outs| else 0
  {
    IterationShape(c, n, spec, maxI, outs, r);
    match LoopIteration(c, n, spec, maxI, outs, r)
    case Halt(lr) =>
    case Again(outs2, r2) =>
      LoopCapStop(c, n, spec, maxI, outs2, r2);
  }

  /**
   * The body runs at most `max(1, max_iters)` times, the loop's value is the
   * last body result (`None` if the body never ran), and a loop with an id
   * stores that value under it.
   */
  lemma {:induction false} LoopBounded(c: Ctx, n: Node, r: Run)
    requires n.loop.Some?
    ensures |EvalLoopFrom(c, n, n.loop.value, MaxItersOf(c, n.loop.value), [], r).outs| <= Max(1, MaxItersOf(c, n.loop.value))
    ensures Coherent(EvalLoopFrom(c, n, n.loop.value, MaxItersOf(c, n.loop.value), [], r))
    ensures EvalLoop(c, n, r).out == EvalLoopFrom(c, n, n.loop.value, MaxItersOf(c, n.loop.value), [], r).out
    ensures EvalLoop(c, n, r).out.Normal? && HasId(n) ==>
      EvalLoop(c, n, r).run.steps[n.id.value] == EvalLoop(c, n, r).out.value
  {
    LoopOutcome(c, n, n.loop.value, MaxItersOf(c, n.loop.value), [], r);
  }

  /**
   * With a condition that always holds (or none) and a body that neither
   * raises nor repeats itself, the body runs exactly `max(1, max_iters)`
   * times and the loop ends with `loop_max_iters`.
   */
  lemma {:induction false} LoopRunsToCap(c: Ctx, n: Node, spec: LoopSpec, maxI: int, r: Run)
    requires AlwaysTrue(c, spec)
    ensures EvalLoopFrom(c, n, spec, maxI, [], r).stop == BodyRaised
         || !Distinct(c.serialize, EvalLoopFrom(c, n, spec, maxI, [], r).outs)
         || (EvalLoopFrom(c, n, spec, maxI, [], r).stop == MaxIters
             && |EvalLoopFrom(c, n, spec, maxI, [], r).outs| == Max(1, maxI)
             && CapStop(n, maxI, EvalLoopFrom(c, n, spec, maxI, [], r)))
  {
    LoopCapStop(c, n, spec, maxI, [], r);
    LoopIdentical(c, n, spec, maxI, [], r);
  }

  /** Whenever the loop body returns, wherever it starts, it returns `v`. */
  ghost predicate ConstantBody(c: Ctx, n: Node, v: Value) {
    forall rr :: EvalTasks(c, n.tasks, rr, Null).out.Normal? ==> EvalTasks(c, n.tasks, rr, Null).out == Normal(v)
  }

  /**
   * A body that returns the same value whenever it returns, under a
   * condition that always holds, runs at most twice when `max_iters >= 2`:
   * unless a run raised, the second result repeats the first and the loop
   * ends in the identical-output escalation.
   */
  lemma {:induction false} ConstantBodyRunsTwice(c: Ctx, n: Node, spec: LoopSpec, maxI: int, r: Run, v: Value)
    requires maxI >= 2
    requires AlwaysTrue(c, spec)
    requires ConstantBody(c, n, v)
    ensures var lr := EvalLoopFrom(c, n, spec, maxI, [], r);
      (lr.stop == Identical && lr.outs == [v, v]) || (lr.stop == BodyRaised && |lr.outs| <= 1)
  {
    var it := LoopIteration(c, n, spec, maxI, [], r);
    FirstOfConstant(c, n, spec, maxI, r, v);
    LoopFromUnfold(c, n, spec, maxI, [], r);
    if it.Again? {
      SecondOfConstant(c, n, spec, maxI, it.run, v);
    }
  }

  /**
   * A body holding one empty `sequential` node is constant: it returns
   * `None` below the step cap and raises at the cap.
   */
  lemma {:induction false} EmptySequenceIsConstant(c: Ctx, n: Node)
    requires |n.tasks| == 1
    requires n.tasks[0].loop.None? && n.tasks[0].branch.None? && n.tasks[0].branchKey == ""
    requires n.tasks[0].kind == Some("sequential") && n.tasks[0].tasks == []
    ensures ConstantBody(c, n, Null)
  {
    forall rr | EvalTasks(c, n.tasks, rr, Null).out.Normal?
      ensures EvalTasks(c, n.tasks, rr, Null).out == Normal(Null)
    {
      var x := EvalNode(c, n.tasks[0], rr);
      assert n.tasks[1..] == [];
      assert EvalTasks(c, n.tasks, rr, Null) == (if x.out.Raised? then x else EvalTasks(c, [], x.run, x.out.value));
      if rr.total < c.stepCap {
        assert x == EvalTasks(c, [], rr, Null);
      }
    }
  }

  /** The first run of a constant body raises, or goes on to a second run with one result. */
  lemma {:induction false} FirstOfConstant(c: Ctx, n: Node, spec: LoopSpec, maxI: int, r: Run, v: Value)
    requires maxI >= 2
    requires AlwaysTrue(c, spec)
    requires ConstantBody(c, n, v)
    ensures var it := LoopIteration(c, n, spec, maxI, [], r);
      (it.Halt? && it.res.stop == BodyRaised && it.res.outs == []) || (it.Again? && it.outs == [v])
  {
    var r1 := Emit(r, LoopIterStart(n.id, 0));
    if spec.condition.Some? {
      assert c.cond(spec.condition.value, ScopeOf(r1));
    }
    IterationBody(c, n, spec, maxI, [], r);
    var x := EvalTasks(c, n.tasks, r1, Null);
    if x.out.Normal? {
      assert x.out == Normal(v);
    }
  }

  /** The second run of a constant body raises, or repeats the first and halts. */
  lemma {:induction false} SecondOfConstant(c: Ctx, n: Node, spec: LoopSpec, maxI: int, r: Run, v: Value)
    requires maxI >= 2
    requires AlwaysTrue(c, spec)
    requires ConstantBody(c, n, v)
    ensures var lr := EvalLoopFrom(c, n, spec, maxI, [v], r);
      (lr.stop == Identical && lr.outs == [v, v]) || (lr.stop == BodyRaised && lr.outs == [v])
  {
    var r3 := Emit(r, LoopIterStart(n.id, 1));
    if spec.condition.Some? {
      assert c.cond(spec.condition.value, ScopeOf(r3));
    }
    var y := EvalTasks(c, n.tasks, r3, Null);
    if y.out.Normal? {
      assert y.out == Normal(v);
      assert LastOf([v]) == v;
      RepeatHalts(c, n, spec, maxI, [v], r, v);
      assert [v] + [v] == [v, v];
    } else {
      IterationBody(c, n, spec, maxI, [v], r);
      LoopFromUnfold(c, n, spec, maxI, [v], r);
    }
  }

  /** A run whose body returns the previous result again ends the loop with `Identical`. */
  lemma {:induction false} RepeatHalts(c: Ctx, n: Node, spec: LoopSpec, maxI: int, outs: seq<Value>, r: Run, v: Value)
    requires outs != [] && |outs| < maxI
    requires !(!spec.doWhile && spec.condition.Some?
               && !c.cond(spec.condition.value, ScopeOf(Emit(r, LoopIterStart(n.id, |outs|)))))
    requires EvalTasks(c, n.tasks, Emit(r, LoopIterStart(n.id, |outs|)), Null).out == Normal(v)
    requires c.serialize(v) == c.serialize(LastOf(outs))
    ensures EvalLoopFrom(c, n, spec, maxI, outs, r).stop == Identical
    ensures EvalLoopFrom(c, n, spec, maxI, outs, r).outs == outs + [v]
  {
    var y := EvalTasks(c, n.tasks, Emit(r, LoopIterStart(n.id, |outs|)), Null);
    var it := AfterBody(c, n, spec, maxI, outs, v, y.run);
    AfterIdentical(c, n, spec, maxI, outs, v, y.run);
    IterationBody(c, n, spec, maxI, outs, r);
    assert LoopIteration(c, n, spec, maxI, outs, r) == it;
    LoopFromUnfold(c, n, spec, maxI, outs, r);
  }

  // ----- agent calls -----

  /** An agent call bumps the counter once before anything else, whatever happens next. */
  lemma {:induction false} AgentCounts(c: Ctx, n: Node, r: Run)
    ensures EvalAgent(c, n, r).run.total == r.total + 1
  {
  }

  /** An agent id outside the table, or one not registered: one escalation, then `RuntimeError`. */
  lemma {:induction false} AgentUnknown(c: Ctx, n: Node, r: Run)
    requires AgentTarget(n.agentId).None? || AgentTarget(n.agentId).value !in c.registered
    ensures var x := EvalAgent(c, n, r);
      var msg := UnknownAgentMessage(AgentIdText(n.agentId), StepIdOf(n, r.total + 1));
      x.out == Raised(Exc(RuntimeError, "Unknown agent: " + AgentIdText(n.agentId)))
      && x.run.trace == r.trace + [Hitl(msg)]
      && x.run.st.results == r.st.results + [EscalationResult(msg)]
      && x.run.steps == r.steps
  {
  }

  /** The parameters the agent is called with: `parameters` rendered against the state and step outputs. */
  function AgentParams(c: Ctx, n: Node, r: Run): Value {
    Render(ScopeOf(r.(total := r.total + 1)), c.tryParse, c.dumps, n.parameters)
  }

  /** A registered agent is called once, after `agent_start`, with the rendered parameters and the state's view. */
  lemma {:induction false} AgentCalled(c: Ctx, n: Node, r: Run)
    requires AgentTarget(n.agentId).Some? && AgentTarget(n.agentId).value in c.registered
    ensures var id := StepIdOf(n, r.total + 1);
      EvalAgent(c, n, r) ==
        AfterHandler(n, id, Emit(r.(total := r.total + 1), AgentStart(id, n.agentId, AgentParams(c, n, r))),
                     c.handler(AgentTarget(n.agentId).value, c.dumps(AgentParams(c, n, r)), View(r.st)))
  {
    var id := StepIdOf(n, r.total + 1);
    var r1 := r.(total := r.total + 1);
    assert EvalAgent(c, n, r) == CallAgent(c, n, id, r1);
    assert Emit(r1, AgentStart(id, n.agentId, AgentParams(c, n, r))).st == r.st;
  }

  /**
   * A registered agent's result is stored under the node id (or `step_N`),
   * recorded as `metadata["last_step"]`, traced between `agent_start` and
   * `agent_end`, and the history is unchanged.
   */
  lemma {:induction false} AgentSucceeds(c: Ctx, n: Node, r: Run, v: Value)
    requires AgentTarget(n.agentId).Some? && AgentTarget(n.agentId).value in c.registered
    requires c.handler(AgentTarget(n.agentId).value, c.dumps(AgentParams(c, n, r)),
                       View(r.st)) == Returned(v)
    ensures var x := EvalAgent(c, n, r);
      var id := StepIdOf(n, r.total + 1);
      x.out == Normal(v)
      && x.run.steps == r.steps[id := v]
      && x.run.st.metadata == r.st.metadata["last_step" := LastStep(n.agentId, v)]
      && x.run.st.results == r.st.results
      && x.run.trace == r.trace + [AgentStart(id, n.agentId, AgentParams(c, n, r)), AgentEnd(id, n.agentId)]
  {
    AgentCalled(c, n, r);
  }

  /** An agent that raised: one escalation naming agent, step and error, then the error again; no output stored. */
  lemma {:induction false} AgentRaises(c: Ctx, n: Node, r: Run, e: string)
    requires AgentTarget(n.agentId).Some? && AgentTarget(n.agentId).value in c.registered
    requires c.handler(AgentTarget(n.agentId).value, c.dumps(AgentParams(c, n, r)),
                       View(r.st)) == Threw(e)
    ensures var x := EvalAgent(c, n, r);
      var id := StepIdOf(n, r.total + 1);
      var msg := AgentFailedMessage(AgentIdText(n.agentId), id, e);
      x.out == Raised(Exc(AgentFailure, e))
      && x.run.steps == r.steps
      && x.run.st.results == r.st.results + [EscalationResult(msg)]
      && x.run.trace == r.trace + [AgentStart(id, n.agentId, AgentParams(c, n, r)), Hitl(msg)]
  {
    AgentCalled(c, n, r);
  }

  /** Steps without an id get different names for different counter values. */
  lemma {:induction false} AutoIdsDistinct(n: Node, m: Node, k1: nat, k2: nat)
    requires !HasId(n) && !HasId(m) && k1 != k2
    ensures StepIdOf(n, k1) != StepIdOf(m, k2)
  {
    if StepIdOf(n, k1) == StepIdOf(m, k2) {
      assert StepIdOf(n, k1)[5..] == NatToString(k1);
      assert StepIdOf(m, k2)[5..] == NatToString(k2);
      NatToStringInjective(k1, k2);
    }
  }
}
