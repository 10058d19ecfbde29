/**
 * Plans as the executor of core/executor.py reads them: a tree of nodes,
 * each a dict whose keys select how it runs. A `Node` holds the keys the
 * executor looks at; a key that is absent is `None`, `[]` or `""` as the
 * executor's own defaults make it.
 */
module Plan {
  import opened Text
  import opened Values

  /** `node["loop"]` when it is a dict. `max_iters` absent is `None`; `do_while` is already `bool(...)`. */
  datatype LoopSpec = LoopSpec(condition: Option<string>, doWhile: bool, maxIters: Option<int>)

  /** One entry of `branch["cases"]`: a `when` expression (`None` when absent or not a string) and its tasks. */
  datatype Case = Case(when: Option<string>, tasks: seq<Node>)

  /** `branch["cases"]`: a list of cases, or anything else. */
  datatype ExplicitCases = CaseList(items: seq<Case>) | NotAList

  /** `node["branch"]` when it is a dict; `else` absent or falsy is `[]`. */
  datatype BranchSpec = BranchSpec(cases: ExplicitCases, elseTasks: seq<Node>)

  /** One entry `value: tasks` of a key-form `node["cases"]`. */
  datatype KeyCase = KeyCase(key: string, tasks: seq<Node>)

  /** `node.get("cases") or {}`: a dict (its entries, keys distinct), or a truthy non-dict. */
  datatype KeyCases = CaseMap(entries: seq<KeyCase>) | NotAMapping

  /**
   * A plan node. `kind` is `node["type"]`; `loop` and `branch` are `None`
   * unless the key holds a dict; `branchKey` is `""` when absent or falsy;
   * `parameters` is `{}` when absent.
   */
  datatype Node = Node(
    id: Option<string>,
    kind: Option<string>,
    tasks: seq<Node>,
    loop: Option<LoopSpec>,
    branch: Option<BranchSpec>,
    branchKey: string,
    cases: KeyCases,
    agentId: Option<string>,
    parameters: Value)

  /** `plan.get("root") or {}`: `None` when the root is missing, falsy or an empty dict. */
  datatype PlanDoc = PlanDoc(root: Option<Node>)

  /** `node.get("id")` is truthy. */
  predicate HasId(n: Node) {
    n.id.Some? && n.id.value != ""
  }

  /** `node.get("id") or ''`, as used in escalation messages. */
  function IdText(n: Node): (t: string)
    ensures HasId(n) ==> t == n.id.value
    ensures !HasId(n) ==> t == ""
  {
    if HasId(n) then n.id.value else ""
  }

  /** The key a parallel child's result is stored under: its id, or `"anon"`. */
  function ChildKey(n: Node): (k: string)
    ensures HasId(n) ==> k == n.id.value
    ensures !HasId(n) ==> k == "anon"
  {
    if IdText(n) != "" then IdText(n) else "anon"
  }

  /** `[t.get("id") for t in tasks]`. */
  function ChildIds(ts: seq<Node>): (ids: seq<Option<string>>)
    ensures |ids| == |ts|
    ensures forall i :: 0 <= i < |ts| ==> ids[i] == ts[i].id
  {
    seq(|ts|, i requires 0 <= i < |ts| => ts[i].id)
  }

  // ----- `_validate_ids_unique` -----

  /** The outcome of the id check: the ids seen so far, or the first repeated one. */
  datatype IdCheck = Unique(seen: set<string>) | Duplicate(id: string)

  /** `_validate_ids_unique(node, seen)`: pre-order through `tasks` only, with one shared `seen` set. */
  function CheckIds(n: Node, seen: set<string>): IdCheck
    decreases n, 1
  {
    if HasId(n) && n.id.value in seen then Duplicate(n.id.value)
    else CheckIdsList(n.tasks, if HasId(n) then seen + {n.id.value} else seen)
  }

  /** The loop over `node.get("tasks")` in `_validate_ids_unique`. */
  function CheckIdsList(ts: seq<Node>, seen: set<string>): IdCheck
    decreases ts, 0
  {
    if ts == [] then Unique(seen)
    else
      match CheckIds(ts[0], seen)
      case Duplicate(d) => Duplicate(d)
      case Unique(s) => CheckIdsList(ts[1..], s)
  }

  /** The non-empty ids of the nodes reachable through `tasks`, in pre-order. */
  function TaskIds(n: Node): seq<string>
    decreases n, 1
  {
    (if HasId(n) then [n.id.value] else []) + TaskIdsList(n.tasks)
  }

  function TaskIdsList(ts: seq<Node>): seq<string>
    decreases ts, 0
  {
    if ts == [] then [] else TaskIds(ts[0]) + TaskIdsList(ts[1..])
  }

  /** No id occurs twice. */
  predicate NoRepeats(ids: seq<string>) {
    forall i, j :: 0 <= i < j < |ids| ==> ids[i] != ids[j]
  }

  /** What the check computes: no repeat among the ids and none of them seen before. */
  predicate FreshIds(ids: seq<string>, seen: set<string>) {
    NoRepeats(ids) && forall i :: 0 <= i < |ids| ==> ids[i] !in seen
  }

  function ToSet(ids: seq<string>): (s: set<string>)
    ensures forall x :: x in s <==> x in ids
  {
    if ids == [] then {} else {ids[0]} + ToSet(ids[1..])
  }

  lemma {:induction false} FreshIdsCons(x: string, rest: seq<string>, seen: set<string>)
    ensures FreshIds([x] + rest, seen) <==> x !in seen && FreshIds(rest, seen + {x})
  {
    var ids := [x] + rest;
    assert ids[0] == x;
    if FreshIds(ids, seen) {
      forall i | 0 <= i < |rest| ensures rest[i] !in seen + {x} {
        assert ids[i + 1] == rest[i];
        assert ids[0] != ids[i + 1];
      }
      forall i, j | 0 <= i < j < |rest| ensures rest[i] != rest[j] {
        assert ids[i + 1] == rest[i] && ids[j + 1] == rest[j];
      }
    }
    if x !in seen && FreshIds(rest, seen + {x}) {
      forall i, j | 0 <= i < j < |ids| ensures ids[i] != ids[j] {
        if i == 0 {
          assert ids[j] == rest[j - 1];
        } else {
          assert ids[i] == rest[i - 1] && ids[j] == rest[j - 1];
        }
      }
      forall i | 0 <= i < |ids| ensures ids[i] !in seen {
        if i > 0 { assert ids[i] == rest[i - 1]; }
      }
      assert NoRepeats(ids);
    }
  }

  lemma {:induction false} FreshIdsAppend(a: seq<string>, b: seq<string>, seen: set<string>)
    ensures FreshIds(a + b, seen) <==> FreshIds(a, seen) && FreshIds(b, seen + ToSet(a))
  {
    var ab := a + b;
    if FreshIds(ab, seen) {
      forall i, j | 0 <= i < j < |a| ensures a[i] != a[j] {
        assert ab[i] == a[i] && ab[j] == a[j];
      }
      forall i | 0 <= i < |a| ensures a[i] !in seen {
        assert ab[i] == a[i];
      }
      forall i, j | 0 <= i < j < |b| ensures b[i] != b[j] {
        assert ab[|a| + i] == b[i] && ab[|a| + j] == b[j];
      }
      forall i | 0 <= i < |b| ensures b[i] !in seen + ToSet(a) {
        assert ab[|a| + i] == b[i];
        forall k | 0 <= k < |a| ensures a[k] != b[i] {
          assert ab[k] == a[k];
        }
      }
    }
    if FreshIds(a, seen) && FreshIds(b, seen + ToSet(a)) {
      forall i, j | 0 <= i < j < |ab| ensures ab[i] != ab[j] {
        if j < |a| {
          assert ab[i] == a[i] && ab[j] == a[j];
        } else if i < |a| {
          assert ab[i] == a[i] && ab[j] == b[j - |a|];
          assert a[i] in ToSet(a);
        } else {
          assert ab[i] == b[i - |a|] && ab[j] == b[j - |a|];
        }
      }
      forall i | 0 <= i < |ab| ensures ab[i] !in seen {
        if i < |a| { assert ab[i] == a[i]; } else { assert ab[i] == b[i - |a|]; }
      }
    }
  }

  /**
   * The check passes exactly when the ids reachable through `tasks` are all
   * different and new, and then the ids seen afterwards are the old ones and
   * these.
   */
  lemma {:induction false} CheckIdsSpec(n: Node, seen: set<string>)
    ensures CheckIds(n, seen).Unique? <==> FreshIds(TaskIds(n), seen)
    ensures CheckIds(n, seen).Unique? ==> CheckIds(n, seen).seen == seen + ToSet(TaskIds(n))
    decreases n, 1
  {
    var own := if HasId(n) then [n.id.value] else [];
    var seen1 := if HasId(n) then seen + {n.id.value} else seen;
    CheckIdsListSpec(n.tasks, seen1);
    if HasId(n) {
      FreshIdsCons(n.id.value, TaskIdsList(n.tasks), seen);
    } else {
      assert TaskIds(n) == TaskIdsList(n.tasks);
    }
  }

  lemma {:induction false} CheckIdsListSpec(ts: seq<Node>, seen: set<string>)
    ensures CheckIdsList(ts, seen).Unique? <==> FreshIds(TaskIdsList(ts), seen)
    ensures CheckIdsList(ts, seen).Unique? ==> CheckIdsList(ts, seen).seen == seen + ToSet(TaskIdsList(ts))
    decreases ts, 0
  {
    if ts != [] {
      CheckIdsSpec(ts[0], seen);
      FreshIdsAppend(TaskIds(ts[0]), TaskIdsList(ts[1..]), seen);
      ToSetAppend(TaskIds(ts[0]), TaskIdsList(ts[1..]));
      if CheckIds(ts[0], seen).Unique? {
        CheckIdsListSpec(ts[1..], seen + ToSet(TaskIds(ts[0])));
      }
    }
  }

  lemma {:induction false} ToSetAppend(a: seq<string>, b: seq<string>)
    ensures ToSet(a + b) == ToSet(a) + ToSet(b)
  {
  }

  /** A reported duplicate is a non-empty id that occurs twice among the reachable nodes, or was seen before. */
  lemma {:induction false} DuplicateIsRepeated(n: Node, seen: set<string>)
    requires CheckIds(n, seen).Duplicate?
    ensures CheckIds(n, seen).id in TaskIds(n)
    ensures CheckIds(n, seen).id != ""
    decreases n, 1
  {
    if !(HasId(n) && n.id.value in seen) {
      DuplicateListIsRepeated(n.tasks, if HasId(n) then seen + {n.id.value} else seen);
    }
  }

  lemma {:induction false} DuplicateListIsRepeated(ts: seq<Node>, seen: set<string>)
    requires CheckIdsList(ts, seen).Duplicate?
    ensures CheckIdsList(ts, seen).id in TaskIdsList(ts)
    ensures CheckIdsList(ts, seen).id != ""
    decreases ts, 0
  {
    match CheckIds(ts[0], seen)
    case Duplicate(d) =>
      DuplicateIsRepeated(ts[0], seen);
    case Unique(s) =>
      DuplicateListIsRepeated(ts[1..], s);
  }

  /** From an empty `seen` set, validation fails exactly when some non-empty id is repeated through `tasks`. */
  lemma {:induction false} ValidationFindsRepeats(root: Node)
    ensures CheckIds(root, {}).Unique? <==> NoRepeats(TaskIds(root))
  {
    CheckIdsSpec(root, {});
  }
}
