# multi_agent: a verified model of the plan executor and its supporting records

This project models the core of the multi_agent repository. That repository is a contract-management assistant in which an orchestrator turns a user query into a list of agent tasks. A plan executor then runs tree-shaped plans of agent calls against a shared execution state. The model covers five source files:

- **core/executor.py.** It covers:
  - the path resolver (`SafeEvaluator.get_value`, `_get_by_path`, `length`);
  - the template renderer (`TemplateResolver.render`, `_render_str`);
  - `PlanExecutor`, which runs a plan tree. Nodes are `sequential`, `parallel` or `agent_call`, and may instead be loop or branch nodes. The executor keeps a mutable record of step outputs, a trace and a step counter, and it escalates to a human by writing both to the state and to the trace.
- **core/state_models.py.** It covers `ExecutionState`, an append-only result history with a step counter, and `ConversationMemory`, which keeps turns and formats the recent ones.
- **core/claude_orchestrator.py.** It covers the keyword router that turns a query into an ordered list of (agent, task) steps, and the response formatter.
- **core/base_agent.py.** It covers the `run` wrapper every agent goes through, the input-requirement check and the `AgentRegistry`.
- **agents/review_decision.py.** It covers the review-status toggle that drives plan loops.

The executor is modelled twice.

- Module `Semantics` gives its meaning as functions. Each function maps a node and the executor's record to the node's outcome and the new record. The functions are `EvalNode`, `EvalTasks`, `EvalParallel`, `EvalAgent`, `EvalBranch`, `EvalLoopFrom` and `ExecutePlan`.
- A parallel block runs all of its children, one after the other in list order (`RunChildren`), because every child is submitted before any result is read. The results are then read in list order (`Gather`). The first child that raised is escalated and its exception re-raised.
- Agent parameters are rendered with the corrected placeholder capture (`Templates.RenderStr`, see "## Findings"). The source's capture is modelled beside it as `Templates.RenderStrAsWritten`.
- Class `Executor.PlanExecutor` keeps the source's fields and methods (`stepsOutputs`, `trace`, `totalStepsExecuted`, `RunNode`, `RunLoop`, and so on). It updates them in place. Every method is proved to compute exactly the semantic function of its node kind.
- The properties are proved about the functions in modules `Behaviour` and `Properties`. Some cover one construct: dispatch priority, branch selection, the loop's cap and no-progress guard, and agent-call bookkeeping. Others hold for every run: history and trace only grow, and every escalation appears once in the state and once in the trace.

Modules and files:

| file | module | models |
|---|---|---|
| values.dfy | `Values` | JSON-like values, truthiness, `dict.get`, `or` |
| text.dfy | `Text` | `in` on strings, ASCII `lower`, `split`/`join`, `strip`, decimal text of a number |
| paths.dfy | `Paths` | `get_value`, `_get_by_path`, `length` |
| templates.dfy | `Templates` | `render`, `_render_str` and the placeholder regex |
| plan.dfy | `Plan` | plan nodes and the id-uniqueness check |
| semantics.dfy | `Semantics` | the executor as functions |
| executor.dfy | `Executor` | `PlanExecutor` as a class |
| behaviour.dfy | `Behaviour` | what the executor promises, construct by construct |
| properties.dfy | `Properties` | invariants of every run |
| state_models.dfy | `StateModels` | `ExecutionState`, `ConversationMemory` |
| base_agent.dfy | `BaseAgent` | `BaseAgent.run`, `_validate_inputs`, `AgentRegistry` |
| orchestrator.dfy | `Orchestrator` | `create_execution_plan`, `_needs_*`, `_route_single_task`, `synthesize_response` |
| review_decision.dfy | `ReviewDecision` | `ReviewDecisionAgent` |

Some things the executor cannot see are parameters: the registered agent names, what each agent's `run` returns, the condition evaluator, `json.dumps` (plain and with sorted keys) and `json.loads`. They are grouped in `Semantics.Ctx` and held as constants by `PlanExecutor`.

## Model

| member | source | states |
|---|---|---|
| Values.Or | agents/review_decision.py:25 | Python's `x or y`: `x` when it is truthy, otherwise `y` |
| Values.Get | core/executor.py:35 | `dict.get(k)`: the entry when the key is present, `None` otherwise |
| Text.ContainsIff | core/claude_orchestrator.py:141-146 | `sub in s` holds exactly when `sub` occurs at some position of `s` |
| Text.Lower | core/claude_orchestrator.py:40 | `lower()` keeps the length and lowers each character |
| Text.JoinSplit | core/executor.py:59 | joining the parts `split('.')` gives with `.` rebuilds the string |
| Text.SplitJoin | core/executor.py:32 | splitting a join of separator-free parts gives the parts back |
| Text.StripPadded | core/executor.py:48 | `strip()` removes exactly the surrounding whitespace |
| Text.NatToStringRoundTrip | core/executor.py:220 | the decimal text of a counter reads back as the counter |
| Text.NatToStringInjective | core/executor.py:220 | different counters have different decimal texts |
| Paths.Step | core/executor.py:64-68 | one step of `_get_by_path`: the entry of a dict, `None` for a missing key or a value that is not a dict |
| Paths.DotParts | core/executor.py:59 | `dotted.split('.') if dotted else []`: no parts for the empty path; otherwise the parts joined by `.` are the path |
| Paths.ParseLeaf | core/executor.py:46-54 | a string leaf that looks like a JSON object or array after `strip()` is replaced by what `json.loads` gives when that succeeds; any other leaf is returned unchanged |
| Paths.Length | core/executor.py:71-75 | `length(x)`: the size of a string, list or dict, and 0 for anything else |
| Paths.GetByPath | core/executor.py:57-69 | the loop over the path's parts computes `ByPath` |
| Paths.GetValue | core/executor.py:25-55 | the `state.` and `steps.` resolution, with its loop, computes `ValueAt` |
| Paths.NoPrefixIsNull | core/executor.py:27-55 | a path without a `state.` or `steps.` prefix resolves to `None` |
| Paths.NullAbsorbs | core/executor.py:61-63 | once the walk reaches `None` it stays `None` |
| Paths.MissingKeyIsNull | core/executor.py:64-68 | a missing key or a value that is not a dict yields `None` |
| Paths.StateWalkAppend | core/executor.py:61-68 | walking `a + b` is walking `a`, then `b` from where it stopped |
| Paths.StatePathOfKeys | core/executor.py:27-28 | `state.k1.….kn` walks the keys `k1 … kn` from the state |
| Paths.DropOutput | core/executor.py:38-40 | the parts with every `output` segment removed |
| Paths.OutputSegmentsSkipped | core/executor.py:37-40 | `output` segments make no difference to a `steps.` lookup |
| Paths.NonDictStops | core/executor.py:41-45 | the walk stops at the first value that is not a dict and returns that value unparsed, unless no segments are left |
| Paths.StepLookup | core/executor.py:29-35 | `steps.<id>` is the stored output of `<id>` after the JSON-leaf parse |
| Paths.StepOutputLookup | core/executor.py:29-40 | `steps.<id>.output` is the same as `steps.<id>` |
| Templates.PlaceholderAt | core/executor.py:102 | a match of `{{ ([^}]+) }}` at position `i`: the opener, a non-empty run without `}`, the closer |
| Templates.PlaceholderMatches | core/executor.py:102 | `{{run}}` with a non-empty run free of `}` matches exactly up to its closer |
| Templates.LeadingSpaces | core/executor.py:102 | how many whitespace characters the leading `\s*` consumes |
| Templates.RawCapture | core/executor.py:102 | the regex group as written: the run without its leading whitespace, keeping any trailing whitespace |
| Templates.SlotText | core/executor.py:126-129 | a placeholder's text: `json.dumps` of a dict or list, `str()` of a scalar |
| Templates.Repl | core/executor.py:123-129 | `repl`: each captured run is replaced by the text of the value at its path |
| Templates.WholePlaceholder | core/executor.py:118 | `fullmatch` of one placeholder: the string is the opener, a run without `}`, the closer |
| Templates.Render | core/executor.py:107-114 | `render` returns scalars other than strings unchanged; a list becomes the list of its rendered elements and a dict keeps its keys, each mapped to its rendered value |
| Templates.RenderTemplateFree | core/executor.py:107-114 | a value without strings is rendered to itself |
| Templates.WholeOfRun | core/executor.py:118 | `{{run}}` fullmatches the pattern with `run` as its run |
| Templates.WholePlaceholderKeepsValue | core/executor.py:118-121 | a string that is one placeholder renders to the looked-up value with its type intact |
| Templates.WholeRenders | core/executor.py:118-121 | any string `fullmatch` accepts renders to the value at its captured path |
| Templates.SubstituteFromPlain | core/executor.py:130 | substitution leaves text without an opener unchanged |
| Templates.PlainTextUnchanged | core/executor.py:122-130 | a string with no `{{` renders to the same string |
| Templates.PlaceholderReplaced | core/executor.py:123-130 | in `pre{{run}}post` the placeholder is replaced by `repl(run)` and substitution continues after the closer |
| Templates.CopiesPlain | core/executor.py:130 | characters before the next opener are copied unchanged |
| Templates.CapturesAgreeWhenTight | core/executor.py:102 | without surrounding whitespace the regex group and the stripped path agree |
| Templates.RawCaptureKeepsTrailingSpace | core/executor.py:102 | with trailing whitespace the regex group keeps it and differs from the stripped path |
| Templates.ExampleIsWhole | core/executor.py:118 | `{{ state.metadata.x }}` is a whole placeholder with run ` state.metadata.x ` |
| Templates.ExampleCaptures | core/executor.py:102 | its regex group is `state.metadata.x ` (trailing space); stripped, it is `state.metadata.x` |
| Templates.ExampleRawLookup | core/executor.py:57-69 | the path with the trailing space finds nothing |
| Templates.ExampleLookup | core/executor.py:57-69 | the stripped path finds the stored 5 |
| Templates.SpacedPlaceholderCounterexample | core/executor.py:118-121 | as written, `{{ state.metadata.x }}` renders to `None`; with the corrected capture it renders to 5 |
| Templates.SpacedAsWritten | core/executor.py:118-121 | the as-written render of the spaced placeholder is `None` |
| Templates.SpacedCorrected | core/executor.py:118-121 | the corrected render of the spaced placeholder is the stored value |
| Templates.SpacingIgnored | core/executor.py:118-130 | with the corrected capture, whitespace around a placeholder's path changes nothing |
| Plan.IdText | core/executor.py:159-160 | a node's id when it is truthy, otherwise the empty text |
| Plan.ChildKey | core/executor.py:205 | `child.get("id") or "anon"` |
| Plan.ChildIds | core/executor.py:200 | the children's ids, in order, as listed by `parallel_start` |
| Plan.FreshIdsAppend | core/executor.py:156-165 | ids of `a + b` are fresh exactly when `a`'s are and `b`'s are fresh after `a`'s |
| Plan.CheckIdsSpec | core/executor.py:156-165 | the check passes exactly when the truthy ids reachable through `tasks` repeat neither each other nor `seen`; on success `seen` grows by those ids |
| Plan.CheckIdsListSpec | core/executor.py:164-165 | the same for a list of children |
| Plan.DuplicateIsRepeated | core/executor.py:160-162 | a reported duplicate is a non-empty id of the tree |
| Plan.DuplicateListIsRepeated | core/executor.py:164-165 | the same for a list of children |
| Plan.ValidationFindsRepeats | core/executor.py:156-165 | from an empty `seen`, the check passes exactly when no id reachable through `tasks` repeats |
| Semantics.Escalate | core/executor.py:265-276 | `_route_to_human_and_stop`: one failed `HumanAssistant` result and one `hitl` event carrying the message, nothing else |
| Semantics.Finish | core/executor.py:334-335 | a selected result is stored under the node id when there is one; a raised outcome stores nothing |
| Semantics.MatchesFrom | core/executor.py:291-300 | the indices are in range and point at cases that have a `when` |
| Semantics.FindKey | core/executor.py:320-325 | the first case entry with the key, or past the end when there is none |
| Semantics.LoopIteration | core/executor.py:362-396 | an iteration that goes on keeps the earlier results, adds one, and stays below the cap |
| Semantics.AfterBody | core/executor.py:373-396 | after the body returned `v`, the results are the old ones plus `v`; a halt ends with `v` |
| Paths.StateWalk | core/executor.py:61-68 | definition: `_get_by_path`'s loop over the parts, stopping with `None` at a `None` |
| Paths.ByPath | core/executor.py:57-69 | definition: `_get_by_path(obj, dotted)` |
| Paths.StepsWalk | core/executor.py:36-45 | definition: `get_value`'s loop over the parts after the step id |
| Paths.ValueAt | core/executor.py:25-55 | definition: `SafeEvaluator.get_value(path)` |
| Templates.SubstituteFrom | core/executor.py:130 | definition: `TEMPLATE_RE.sub(repl, s)` from position `i` |
| Templates.RenderStrWith | core/executor.py:116-130 | definition: `_render_str` with a choice of capture |
| Templates.RenderStrAsWritten | core/executor.py:116-130 | definition: `_render_str` with the regex group as the source captures it |
| Templates.RenderStr | core/executor.py:116-130 | definition: `_render_str` with the corrected, stripped capture |
| Plan.CheckIds | core/executor.py:156-165 | definition: `_validate_ids_unique(node, seen)` |
| Semantics.View | core/executor.py:233 | definition: `state.dict()` as handed to an agent |
| Semantics.CallAgent | core/executor.py:221-248 | definition: `_run_agent` after the counter bump |
| Semantics.AfterHandler | core/executor.py:232-248 | definition: `_run_agent` once the agent has answered |
| Semantics.EvalAgent | core/executor.py:218-248 | definition: `_run_agent` |
| Semantics.EvalBranch | core/executor.py:278-336 | definition: `_run_branch` |
| Semantics.EvalLoopFrom | core/executor.py:362-396 | definition: the `while True` loop of `_run_loop` from a given iteration |
| Semantics.EvalLoop | core/executor.py:338-400 | definition: `_run_loop` |
| Semantics.EvalTasks | core/executor.py:191-195 | definition: the `for child in tasks` loop of `_run_sequential` |
| Semantics.RunChildren | core/executor.py:201-202 | every child of a parallel block runs, and there is one outcome per child |
| Semantics.Gather | core/executor.py:203-211 | definition: the `as_completed` loop over the futures, taken in list order |
| Semantics.EvalParallel | core/executor.py:197-216 | definition: `_run_parallel` |
| Semantics.EvalNode | core/executor.py:166-189 | definition: `_run_node` |
| Semantics.ExecutePlan | core/executor.py:146-154 | definition: `execute(plan)` |
| Behaviour.AgentParams | core/executor.py:222-223 | definition: the rendered parameters of an agent call |
| BaseAgent.RunSpec | core/base_agent.py:34-96 | definition: `BaseAgent.run` |
| Orchestrator.WorkflowOf | core/claude_orchestrator.py:43-136 | definition: the first workflow test the lower-cased query passes |
| Orchestrator.PlanFor | core/claude_orchestrator.py:32-139 | definition: what `create_execution_plan(query)` returns |
| ReviewDecision.ReviewExecute | agents/review_decision.py:20-32 | definition: `ReviewDecisionAgent._execute_task` |
| Executor.PlanExecutor.constructor | core/executor.py:134-144 | empty outputs and trace, counter at zero; the limits become constructor parameters |
| Executor.PlanExecutor.Execute | core/executor.py:146-154 | `execute` computes `ExecutePlan` on the executor's record |
| Executor.PlanExecutor.ValidateIdsUnique | core/executor.py:156-165 | the recursive id check computes `CheckIds` |
| Executor.PlanExecutor.RunNode | core/executor.py:166-189 | `_run_node` computes `EvalNode` |
| Executor.PlanExecutor.RunTasks | core/executor.py:191-195 | the `for child in tasks` loop computes `EvalTasks` |
| Executor.PlanExecutor.SubmitAll | core/executor.py:201-202 | submitting the children runs each of them, in list order, and computes `RunChildren` |
| Executor.PlanExecutor.RunParallel | core/executor.py:197-216 | `_run_parallel`: all children run, then the futures are read in list order, and the whole computes `EvalParallel` |
| Executor.PlanExecutor.ResolveAgent | core/executor.py:250-263 | an agent is found exactly when the id is one of the six mapped ids and its target name is registered |
| Executor.PlanExecutor.RunAgent | core/executor.py:218-248 | `_run_agent` computes `EvalAgent` |
| Executor.PlanExecutor.CallResolved | core/executor.py:221-248 | the part after the counter bump computes `CallAgent` |
| Executor.PlanExecutor.HandleReply | core/executor.py:232-248 | the handling of the agent's answer computes `AfterHandler` |
| Executor.PlanExecutor.RouteToHumanAndStop | core/executor.py:265-276 | the record afterwards is `Escalate` of the record before |
| Executor.PlanExecutor.CollectMatches | core/executor.py:291-300 | the loop over `cases` computes `MatchesFrom` |
| Executor.PlanExecutor.RunBranch | core/executor.py:278-336 | `_run_branch` computes `EvalBranch` |
| Executor.PlanExecutor.EndIteration | core/executor.py:373-396 | the end of one loop iteration halts exactly when `AfterBody` does and leaves its record; otherwise the counters advance by one |
| Executor.PlanExecutor.RunLoop | core/executor.py:338-400 | `_run_loop`, with its `while True` loop, computes `EvalLoop` |
| Behaviour.ValidationRejects | core/executor.py:146-165 | a missing root or a repeated id raises `PlanValidationError` and leaves the record as it was; otherwise the trace starts with `start_plan` |
| Behaviour.IdCheckSkipsBranches | core/executor.py:164-165 | ids under `branch` cases, `else` or key-form `cases` do not affect the check |
| Behaviour.CapBlocks | core/executor.py:167-168 | at or above the step cap every node raises `RuntimeError` and changes nothing, so there is no `hitl` |
| Behaviour.LoopFromIgnoresKind | core/executor.py:362-396 | the loop depends only on the node's id and body |
| Behaviour.LoopFirst | core/executor.py:170-174 | a node with a `loop` dict runs as a loop whatever its `type`, `branch` or `cases` |
| Behaviour.BranchBeforeType | core/executor.py:176-180 | a node with `branch` or `branch_key` (and no loop) runs as a branch whatever its `type` |
| Behaviour.UnknownTypeIsNone | core/executor.py:181-189 | an unknown type returns `None` and changes nothing |
| Behaviour.TasksSnoc | core/executor.py:191-195 | running `ts + [t]` runs `ts`, then `t` unless something raised |
| Behaviour.SequentialReturnsLast | core/executor.py:191-195 | a sequential node returns `None` with no children, otherwise its last child's result |
| Behaviour.BeforeShift | core/executor.py:202 | the record child `k` starts from is the record child `k - 1` of the remaining children starts from, once the first child has run |
| Behaviour.ChildrenRunInTurn | core/executor.py:202 | every child of a parallel block runs, each on the record its predecessors left; the block continues from the record after the last child |
| Behaviour.GatherDone | core/executor.py:203-207 | reading the futures collects every result exactly when no child raised, keyed exactly by the children's keys |
| Behaviour.GatherKeeps | core/executor.py:205-207 | a key that no remaining child has keeps the value it was collected with |
| Behaviour.GatherValues | core/executor.py:205-207 | the collected map holds, under each key, the result of the last child with that key |
| Behaviour.GatherFirstFailure | core/executor.py:208-211 | reading stops at the first child, in list order, that raised, with its key and exception |
| Behaviour.FirstRaised | core/executor.py:203-211 | when some child's future raised, reading the futures stops at the first one that did |
| Behaviour.ParallelSucceeds | core/executor.py:197-216 | when no child raises, the block returns the map from each child's key to that child's result, stores it under the block's id, and ends with `parallel_end` after all children's events |
| Behaviour.ParallelRaises | core/executor.py:202-211 | when some child raises, every child still runs; then the first failing child in list order gets exactly one escalation naming it, and its exception is re-raised |
| Behaviour.ParallelTraced | core/executor.py:200-215 | a parallel block's trace starts with `parallel_start` listing the children's ids and, on success, ends with `parallel_end` |
| Behaviour.MatchesFire | core/executor.py:292-298 | every collected case's `when` holds |
| Behaviour.MatchesComplete | core/executor.py:292-298 | every case whose `when` holds is collected |
| Behaviour.MatchesIncrease | core/executor.py:292-298 | matches are collected in case order |
| Behaviour.MatchesOnly | core/executor.py:292-301 | one firing case gives exactly one match |
| Behaviour.MatchesNone | core/executor.py:292-304 | no firing case gives no match |
| Behaviour.MatchesTwo | core/executor.py:292-309 | two firing cases give at least two matches |
| Behaviour.ExplicitUnique | core/executor.py:301-303 | exactly one true `when` runs that case after `branch_select` and stores its result |
| Behaviour.ExplicitNone | core/executor.py:304-308 | no true `when` runs a non-empty `else`; without one, one `hitl` and `None` |
| Behaviour.ExplicitAmbiguous | core/executor.py:309-311 | two true `when`s give one `hitl`, `None`, and no case runs |
| Behaviour.FindKeyIs | core/executor.py:320-321 | the lookup finds the first entry with the key |
| Behaviour.FindKeyMissing | core/executor.py:320-323 | a key no entry has is not found |
| Behaviour.KeySelects | core/executor.py:319-322 | key form: the switch value's case runs after `branch_select` and its result is stored |
| Behaviour.KeyFallsBack | core/executor.py:323-325 | key form: with no such case the `else` case runs |
| Behaviour.KeyNoCase | core/executor.py:326-328 | key form: with neither, one `hitl` and `None` |
| Behaviour.KeyUnhashable | core/executor.py:320 | key form: a list or dict switch value raises `TypeError` (`unhashable type`) |
| Behaviour.BranchInvalid | core/executor.py:314-318 | no `branch_key` or `cases` that is not a dict: one `hitl` and `None` |
| Behaviour.DistinctSnoc | core/executor.py:374-379 | adding a result that differs from the last keeps consecutive results distinct |
| Behaviour.AfterBodyRepeat | core/executor.py:373-379 | an identical-output halt comes at the first repeat and ends in the `hitl` escalation; otherwise consecutive results stay distinct |
| Behaviour.AfterBodyCap | core/executor.py:381-396 | a halt at the cap comes after exactly `max(1, max_iters)` runs and ends in `loop_max_iters`; with an always-true condition no halt is for the condition |
| Behaviour.AfterBodyShape | core/executor.py:373-396 | the end of an iteration keeps the loop's invariant |
| Behaviour.IterationShape | core/executor.py:362-396 | every iteration keeps the loop's invariant: results kept, at most the cap, a repeat only at the end, the cap stop exact |
| Behaviour.LoopOutcome | core/executor.py:362-400 | the loop keeps earlier results, runs the body at most `max(1, max_iters)` times, and yields the last result, or raises exactly when the body did |
| Behaviour.LoopIdentical | core/executor.py:373-378 | an identical-output stop is at the first repeat and ends in `hitl`; any other stop saw no repeat |
| Behaviour.LoopCapStop | core/executor.py:381-385 | a stop at the cap comes after exactly `max(1, max_iters)` runs and ends in `loop_max_iters`; an always-true condition never stops the loop |
| Behaviour.LoopBounded | core/executor.py:338-400 | `_run_loop` runs the body at most `max(1, max_iters)` times and stores its result under the id |
| Behaviour.LoopRunsToCap | core/executor.py:381-385 | with an always-true condition, a body that neither raises nor repeats runs exactly `max(1, max_iters)` times and ends in `loop_max_iters` |
| Behaviour.ConstantBodyRunsTwice | core/executor.py:373-378 | a body that returns the same value whenever it returns, under an always-true condition and with `max_iters >= 2`, runs at most twice: unless a run raised, it runs exactly twice and stops for identical outputs |
| Behaviour.EmptySequenceIsConstant | core/executor.py:181-195 | a body holding one empty `sequential` node returns `None` whenever it returns, so it is a constant body |
| Behaviour.RepeatHalts | core/executor.py:373-378 | a run whose body returns the previous result again stops the loop for identical outputs, with that result appended |
| Behaviour.FirstOfConstant | core/executor.py:362-396 | the first run of a constant body raises, or goes on with one result |
| Behaviour.SecondOfConstant | core/executor.py:373-378 | the second run of a constant body raises, or stops for identical outputs with both results |
| Behaviour.AgentCounts | core/executor.py:219 | an agent call bumps the counter by exactly one |
| Behaviour.AgentUnknown | core/executor.py:226-229 | an id outside the six-entry map or not registered gives one `hitl`, then `RuntimeError`; no output is stored |
| Behaviour.AgentCalled | core/executor.py:231-233 | a registered agent is called once, after `agent_start`, with the rendered parameters and the state's dict |
| Behaviour.AgentSucceeds | core/executor.py:238-248 | on success the result is stored under the id (or `step_N`), `metadata["last_step"]` is set, and the call is traced between `agent_start` and `agent_end` |
| Behaviour.AgentRaises | core/executor.py:232-236 | an agent that raised gives one escalation naming agent, step and error, then the error again; no output is stored |
| Behaviour.AutoIdsDistinct | core/executor.py:220 | steps without an id get different names for different counter values |
| Properties.Texts | core/executor.py:268-276 | the result texts of a list of agent results |
| Properties.GrowsTrans | core/executor.py:166-189 | the growth relation composes |
| Properties.EmitGrows | core/executor.py:151 | appending an event other than `hitl` keeps the invariant |
| Properties.EscalateGrows | core/executor.py:265-276 | an escalation adds one result and the matching `hitl` |
| Properties.StoreGrows | core/executor.py:214 | storing an output keeps every other key |
| Properties.FinishGrows | core/executor.py:334-335 | storing a branch's result keeps the invariant |
| Properties.AgentStoreGrows | core/executor.py:239-247 | storing an agent's result and `last_step` keeps the invariant |
| Properties.CallAgentGrows | core/executor.py:221-248 | an agent call keeps the invariant |
| Properties.CountGrows | core/executor.py:219 | the bump below the cap keeps the counter within the cap |
| Properties.AgentGrows | core/executor.py:218-248 | `_run_agent` keeps the invariant |
| Properties.WrapGrows | core/executor.py:170-180 | a loop or branch between its enter and exit events keeps the invariant when its body does |
| Properties.NodeGrows | core/executor.py:166-189 | every node: trace and history only grow, the new results are escalations whose texts are exactly the new `hitl` messages, `current_step` counts them, the counter stays within the cap, no output key disappears |
| Properties.TasksGrows | core/executor.py:191-195 | the same for a list of children |
| Properties.ChildrenGrows | core/executor.py:201-202 | the same for running all of a parallel node's children |
| Properties.ParallelGrows | core/executor.py:197-216 | the same for a parallel node |
| Properties.BranchGrows | core/executor.py:278-336 | the same for a branch |
| Properties.AfterBodyGrows | core/executor.py:373-396 | the same for the end of a loop iteration |
| Properties.IterationGrows | core/executor.py:362-396 | the same for one loop iteration |
| Properties.LoopFromGrows | core/executor.py:362-396 | the same for the rest of a loop |
| Properties.LoopGrows | core/executor.py:338-400 | the same for a loop node |
| Properties.ExecuteGrows | core/executor.py:146-154 | the same for a whole plan, including one rejected by validation |
| StateModels.AddResult | core/state_models.py:64-77 | one result appended, earlier ones unchanged; `current_step` up by one exactly for `COMPLETED` or `FAILED`; nothing else changes |
| StateModels.MarkCompletedRec | core/state_models.py:91-94 | the end time is set only when it is unset |
| StateModels.WithName | core/state_models.py:79-81 | exactly the results with the name |
| StateModels.FailedOnly | core/state_models.py:83-85 | exactly the `FAILED` results |
| StateModels.WithNameAppend | core/state_models.py:79-81 | the filter is order-preserving: it distributes over concatenation |
| StateModels.FailedOnlyAppend | core/state_models.py:83-85 | the same for the failed filter |
| StateModels.WithNameSnoc | core/state_models.py:79-81 | appending a result extends the name filter by it exactly when its name matches |
| StateModels.FailedOnlySnoc | core/state_models.py:83-85 | appending a result extends the failed filter by it exactly when it failed |
| StateModels.AddResultFilters | core/state_models.py:64-85 | after an append, each filter gains at most the new result, at the end |
| StateModels.CompletionIsStable | core/state_models.py:87-89 | a completed state stays completed when results are added, because the bound is not re-checked |
| StateModels.MarkCompletedIdempotent | core/state_models.py:91-94 | repeated calls keep the first end time |
| StateModels.CreateAsWritten | core/state_models.py:56-62 | as the validator behaves, an explicit `current_step` is accepted only when it is at most 0 |
| StateModels.Create | core/state_models.py:56-62 | as intended, an explicit `current_step` is accepted exactly when it is at most `total_steps`; the new state has no results and no end time |
| StateModels.CreateCounterexample | core/state_models.py:56-62 | `current_step=1, total_steps=3` is refused as written and accepted as intended |
| StateModels.NewExecutionState | core/state_models.py:31-62 | building an `ExecutionState` succeeds exactly when `Create` accepts, and the state holds that value |
| StateModels.ExecutionState.constructor | core/state_models.py:31-40 | the object holds the given value |
| StateModels.ExecutionState.SetRec | core/base_agent.py:67 | the state afterwards is what the agent's task left |
| StateModels.ExecutionState.AddAgentResult | core/state_models.py:64-77 | in place: one result appended and `current_step` bumped exactly for finishing statuses, as `AddResult` |
| StateModels.ExecutionState.SetMetadata | core/executor.py:242-247 | one metadata key written, nothing else changes |
| StateModels.ExecutionState.AgentResultsByName | core/state_models.py:79-81 | exactly the results with the name |
| StateModels.ExecutionState.FailedResults | core/state_models.py:83-85 | exactly the failed results |
| StateModels.ExecutionState.IsCompleted | core/state_models.py:87-89 | holds exactly when `current_step >= total_steps` |
| StateModels.ExecutionState.MarkCompleted | core/state_models.py:91-94 | sets the end time only when it is unset |
| StateModels.SliceFrom | core/state_models.py:129 | Python's `xs[k:]` for every integer `k`, negative ones included |
| StateModels.RecentOf | core/state_models.py:127-129 | the last `n` turns when `0 < n <= len`, and all turns for `n = 0` or `n > len` |
| StateModels.ContextLines | core/state_models.py:131-140 | two lines per turn |
| StateModels.ContextLinesAt | core/state_models.py:136-138 | turn `k` gives `User: …` at line `2k` and `Assistant: …` at line `2k + 1` |
| StateModels.ConversationMemory.constructor | core/state_models.py:108-114 | a new memory has no turns and no metadata |
| StateModels.ConversationMemory.AddTurn | core/state_models.py:116-125 | one turn appended, update time set, nothing else changes |
| StateModels.ConversationMemory.RecentTurns | core/state_models.py:127-129 | the last `n` turns, or all of them for `n = 0` or `n > len` |
| StateModels.ConversationMemory.GetContextString | core/state_models.py:131-140 | the recent turns' lines joined by newlines |
| StateModels.ConversationMemory.Clear | core/state_models.py:142-145 | no turns remain; session and metadata are kept |
| BaseAgent.MissingInputs | core/base_agent.py:126-133 | exactly the requirements that are missing, in order |
| BaseAgent.NoneMissing | core/base_agent.py:125-136 | nothing is missing exactly when every requirement is present somewhere |
| BaseAgent.Validation | core/base_agent.py:120-136 | raises exactly when some requirement is missing, and names the missing ones |
| BaseAgent.ValidationReportsMissing | core/base_agent.py:128-133 | a requirement is reported exactly when it is not a metadata key, not an attribute, and not in the lower-cased task |
| BaseAgent.ValidationRaisesIffMissing | core/base_agent.py:120-136 | the check raises if and only if a requirement is missing |
| BaseAgent.Agent.constructor | core/base_agent.py:19-21 | an agent holds its metadata and its task |
| BaseAgent.Agent.GetName | core/base_agent.py:142-144 | the metadata's name |
| BaseAgent.Agent.ValidateInputs | core/base_agent.py:120-136 | the loop collecting `missing_requirements` computes `Validation` |
| BaseAgent.Agent.Run | core/base_agent.py:34-96 | `run` computes `RunSpec`: it never raises and always returns a reply |
| BaseAgent.RunRejectsBadInputs | core/base_agent.py:47-53 | an empty task or a state that is not a dict gives `Error in <name>: …` and records nothing |
| BaseAgent.RunRecordsSuccess | core/base_agent.py:64-80 | on success the reply is the task's result and exactly one `COMPLETED` result is appended |
| BaseAgent.RunRecordsFailure | core/base_agent.py:82-96 | a failure after conversion replies `Error in <name>: …` and appends one `FAILED` result whose `error_message` is the exception text |
| BaseAgent.WithCapability | core/base_agent.py:184-190 | exactly the agents whose capabilities list the capability |
| BaseAgent.AgentRegistry.constructor | core/base_agent.py:168-169 | a new registry is empty |
| BaseAgent.AgentRegistry.Register | core/base_agent.py:171-174 | the agent is stored under its name, replacing an earlier one; other names are unchanged |
| BaseAgent.AgentRegistry.GetAgent | core/base_agent.py:176-178 | the registered agent, or `None` for an unregistered name |
| BaseAgent.AgentRegistry.ListAgents | core/base_agent.py:180-182 | every registered name with its metadata |
| BaseAgent.AgentRegistry.GetAgentsByCapability | core/base_agent.py:184-190 | the loop computes `WithCapability` |
| BaseAgent.AgentRegistry.Clear | core/base_agent.py:192-195 | the registry is empty afterwards |
| Orchestrator.RouteSingleTask | core/claude_orchestrator.py:174-199 | the task returned is the query, unchanged |
| Orchestrator.AppendIf | core/claude_orchestrator.py:44-54 | an optional step is appended exactly when its test holds |
| Orchestrator.CreateExecutionPlan | core/claude_orchestrator.py:32-139 | the plan built step by step equals `PlanFor` |
| Orchestrator.AppendCreationSteps | core/claude_orchestrator.py:43-64 | the creation workflow's appends build `CreationSteps` |
| Orchestrator.AppendAuditSteps | core/claude_orchestrator.py:67-88 | the audit workflow's appends build `AuditSteps` |
| Orchestrator.AppendReviewSteps | core/claude_orchestrator.py:91-100 | the review workflow's appends build `ReviewSteps` |
| Orchestrator.AppendSupplierSteps | core/claude_orchestrator.py:103-113 | the supplier workflow's appends build `SupplierSteps` |
| Orchestrator.AppendTemplateSteps | core/claude_orchestrator.py:116-125 | the template workflow's appends build `TemplateSteps` |
| Orchestrator.CreationCase | core/claude_orchestrator.py:43 | the creation test wins first |
| Orchestrator.AuditCase | core/claude_orchestrator.py:67 | then the audit test |
| Orchestrator.ReviewCase | core/claude_orchestrator.py:91 | then the review test |
| Orchestrator.SupplierCase | core/claude_orchestrator.py:103 | then the supplier test |
| Orchestrator.TemplateCase | core/claude_orchestrator.py:116 | then the template test |
| Orchestrator.SingleCase | core/claude_orchestrator.py:128-129 | otherwise the single-task route |
| Orchestrator.PlanNonEmpty | core/claude_orchestrator.py:43-136 | every workflow yields a step, so the plan is never empty |
| Orchestrator.PlanAgentsKnown | core/claude_orchestrator.py:17-30 | every agent in a produced plan is a key of `agent_capabilities` |
| Orchestrator.AgentKnown | core/claude_orchestrator.py:17-30 | every agent name is a key of `agent_capabilities` |
| Orchestrator.CreationPlanShape | core/claude_orchestrator.py:43-64 | a creation plan ends with `GuidedContractCreationAssistant` then `DefinitionsConsistencyChecker`, and starts with `LegalResearchAssistant` exactly when the query mentions legal requirements or compliance |
| Orchestrator.AuditPlanShape | core/claude_orchestrator.py:67-88 | an audit plan starts with `ContractRepositorySearch` and ends with `PlaybookBuilder`; the SLA and obligation steps appear exactly when their words occur, in that order |
| Orchestrator.SinglePlanIsRouted | core/claude_orchestrator.py:128-129 | with no workflow, the plan is the single routed step, whose task is the query |
| Orchestrator.CreationWins | core/claude_orchestrator.py:43-64 | a creation query takes the creation workflow, whatever else it matches, and ends with the definitions check |
| Orchestrator.RouteDefaultsToHuman | core/claude_orchestrator.py:178-199 | the route is `HumanAssistant` exactly when no keyword test holds |
| Orchestrator.SearchRoutesFirst | core/claude_orchestrator.py:178-179 | `search` routes to `ContractRepositorySearch` before every other test |
| Orchestrator.FieldText | core/claude_orchestrator.py:210-212 | `result.get(key, default)`: the default when the key is absent |
| Orchestrator.ResponseParts | core/claude_orchestrator.py:207-216 | one header line, then one numbered line per result |
| Orchestrator.SynthesizeResponse | core/claude_orchestrator.py:201-218 | the header and numbered lines joined by newlines; `None` where the source would raise |
| ReviewDecision.Params | agents/review_decision.py:21-24 | `{}` for an empty task, the parsed JSON, or `{"raw": task}` when it is not JSON |
| ReviewDecision.Previous | agents/review_decision.py:25 | a truthy `previous_review_status` parameter wins over the metadata |
| ReviewDecision.NextStatus | agents/review_decision.py:27-30 | `Approved` exactly after `Changes Required` or nothing, `Changes Required` otherwise |
| ReviewDecision.NewReviewDecisionAgent | agents/review_decision.py:8-18 | the agent's metadata and its task |
| ReviewDecision.ExecuteTask | agents/review_decision.py:20-32 | the status is written to the state's metadata in place and returned |
| ReviewDecision.StatusAlternates | agents/review_decision.py:26-30 | each call flips the status, and two calls restore it |
| ReviewDecision.MetadataMatchesReply | agents/review_decision.py:31-32 | afterwards `metadata["review_status"]` is the reply's status |
| ReviewDecision.ParameterTakesPrecedence | agents/review_decision.py:25 | a truthy parameter decides whatever the metadata holds |
| ReviewDecision.RawTaskUsesMetadata | agents/review_decision.py:21-25 | a task that is not JSON falls back to the status in the metadata |
| ReviewDecision.ToggleAcrossRuns | agents/review_decision.py:20-32 | two calls on the state the first left give the two different statuses |

## Left out

- `SafeEvaluator.eval` (core/executor.py:77-98) is the parameter `cond`, a total predicate. The regex rewrite and Python's `eval` cannot be modelled. The source's fail-closed `False` is part of what `cond` returns.
- The `parallel` node's `ThreadPoolExecutor` and `as_completed` (core/executor.py:201-211) become two passes. First every child runs, one after the other in list order. Then the futures are read in list order. Concurrency, completion order and `max_workers` are not modelled.
- RunParallel: with real threads, the children's trace events, results and counter updates interleave. The first failure read may be a different child, and a result under a repeated key may come from a different child. The escalation may also come before the last siblings finish, where the model puts it after all of them.
- Templates.Render / Semantics.CallAgent: the executor renders agent parameters with the corrected capture, so a placeholder with spaces inside its braces finds its value. The source looks up the path with the trailing whitespace and gets `None` (see "## Findings"). `Executor.PlanExecutor.RunAgent`, `Executor.PlanExecutor.CallResolved`, `Behaviour.AgentCalled` and the `Properties` lemmas are stated for the corrected renderer.
- `json.dumps` with and without `sort_keys`, and `json.loads`, are the parameters `dumps`, `serialize` and `tryParse`. A `json.dumps` that fails is not distinguished from one that succeeds, so the `str(val)` fallbacks at core/executor.py:128-129 and 358-359 are folded into those parameters.
- `str()` of a list or dict in `synthesize_response` is the parameter `show`.
- `lower()` lowers ASCII letters only. Python's Unicode case mapping is not modelled.
- `strip()` and `\s` use the characters of `str.isspace()`: `\t` to `\r`, `\x1c` to the space, `\x85`, `\xa0`, `\u1680`, `\u2000` to `\u200a`, `\u2028`, `\u2029`, `\u202f`, `\u205f` and `\u3000`.
- Semantics.View: the twelve agent-specific list fields of `ExecutionState` (`onboarding_status` … `extracted_data`, core/state_models.py:43-54) are not part of the model's state. In the source, `{{ state.legal_findings }}` resolves to `[]` and `state.dict()` holds those keys. In the model the lookup gives `None` and the view lacks them. `start_time` is left out with the other times.
- Plan.LoopSpec: a loop's `condition` is a string or absent. A non-string condition makes `re.sub` raise `TypeError` at core/executor.py:92, before the `try`, and `_run_loop` does not catch it. That case is not modelled.
- Semantics.MaxItersOf: an explicit `"max_iters": null` makes `int(None)` raise in `_run_loop`. `LoopSpec.maxIters` cannot hold that null: `None` there stands for an absent key, and the default is used. `int()` of a string or a float is not modelled either.
- Paths.Step: `getattr` on a string or list finds its methods (a path such as `state.x.upper`). Methods are not values of this model, so that step gives `None`.
- The regex engine is not modelled. `Templates.PlaceholderAt` encodes the one pattern `\{\{\s*([^}]+)\s*\}\}` with its greedy group.
- Time is not modelled: `datetime` fields, `start_time`, `execution_time` and `updated_at` are integers supplied by the caller, or are dropped. Logging is dropped.
- The signature at core/executor.py:146 contains a stray `-e` that makes the file unparseable. The intended `execute(plan) -> {final_output, steps, trace}` is modelled.
- `executor_max_workers`, `executor_max_iters` and `executor_global_step_cap` are not fields of `Config`. The limits are constructor parameters of `PlanExecutor`, and `max_workers` is not used.
- The global agent registry is the set `registered` of names seen by the executor. What a registered agent's `run` returns is the parameter `handler`.
- `ReviewDecisionAgent` is not in the executor's six-entry agent map, so plans cannot reach it through `_resolve_agent`. It is modelled on its own.
- `_convert_legacy_state` (core/base_agent.py:98-118) is an agent's parameter `convert`. It draws a `uuid4`, copies fields, and writes `state.update(...)` back into the caller's dict. That write-back is not modelled.
- `hasattr(state, requirement)` is the parameter `attrs`, the attribute names of an `ExecutionState`.
- `_execute_task` of the stub agents is the parameter `execute` of an `Agent`.
- `BaseAgent.ListText`: the `str()` of the missing-requirements list assumes names without quote characters.
- Key-form branch cases have string keys, as JSON plans give them.
- `Orchestrator.AgentName`: agent names in plans are a datatype. `AgentText` gives each name's text.
- core/memory_manager.py, app.py, main.py, scripts/run_plan.py, agents/planner_agent.py, config and the stub agents are not part of this model. They are I/O, UI, LLM prompting or constant text.
- `TaskStatus` values are compared as enum members. The pydantic `use_enum_values` string conversion is not modelled.

## Findings

| source | as written | input that shows it | evidently intended | confidence | as-written member | corrected member |
|---|---|---|---|---|---|---|
| core/executor.py:102 | in `\{\{\s*([^}]+)\s*\}\}` the greedy group `[^}]+` also swallows trailing whitespace, and the path is not stripped, so `{{ state.metadata.x }}` looks up `metadata` then `x ` (with a space) | state metadata `{"x": 5}` and the template `{{ state.metadata.x }}`: the lookup of `x ` fails and the render is `None` | whitespace inside the braces is ignored; the render is 5 | not executed | Templates.RenderStrAsWritten, Templates.SpacedPlaceholderCounterexample | Templates.RenderStr, Templates.SpacingIgnored |
| core/state_models.py:56-62 | `current_step` is declared before `total_steps`, so when the validator runs `values` has no `total_steps` and the bound is the default 0. Any explicit positive `current_step` is refused | `ExecutionState(session_id="s", original_query="q", current_step=1, total_steps=3)` raises `ValueError` | a given `current_step` may be anything up to `total_steps` | not executed | StateModels.CreateAsWritten, StateModels.CreateCounterexample | StateModels.Create, StateModels.NewExecutionState |
