/**
 * Path resolution of `SafeEvaluator` (core/executor.py): `state.<a>.<b>...`
 * walks the execution state, `steps.<id>[.<key>...][.output]` walks the
 * recorded step outputs, and anything else resolves to `None`.
 *
 * The execution state is seen through its dict view (a `Value`); `json.loads`
 * is the parameter `tryParse`, which yields `None` where Python raises.
 */
module Paths {
  import opened Text
  import opened Values

  /** What a `SafeEvaluator` sees: the state's view and the step outputs so far. */
  datatype Scope = Scope(state: Value, steps: map<string, Value>)

  /**
   * One attribute or key step of `_get_by_path`: `dict.get`, or
   * `getattr(x, p, None)` on a value that is not a dict. The values here are
   * JSON-like; the methods `getattr` would find on a `str` or `list` (a path
   * such as `state.x.upper`) are not values of this model, so that step gives `None`.
   */
  function Step(cur: Value, p: string): (r: Value)
    ensures cur.Dict? && p in cur.fields ==> r == cur.fields[p]
    ensures !(cur.Dict? && p in cur.fields) ==> r == Null
  {
    if cur.Dict? then Get(cur.fields, p) else Null
  }

  /** `_get_by_path` over the already split parts: stop with `None` at a `None`, else step. */
  function StateWalk(cur: Value, parts: seq<string>): Value
    decreases |parts|
  {
    if parts == [] then cur
    else if cur.Null? then Null
    else StateWalk(Step(cur, parts[0]), parts[1..])
  }

  /** `dotted.split(".") if dotted else []`. */
  function DotParts(dotted: string): (parts: seq<string>)
    ensures dotted == [] ==> parts == []
    ensures dotted != [] ==> Join(parts, ".") == dotted
  {
    if dotted == [] then [] else (JoinSplit(dotted, '.'); Split(dotted, '.'))
  }

  /** `_get_by_path(obj, dotted)`. */
  function ByPath(obj: Value, dotted: string): Value {
    StateWalk(obj, DotParts(dotted))
  }

  /** Where the walk over `steps.` parts ended: cut short at a non-dict, or after the last part. */
  datatype Walk = Stopped(v: Value) | Finished(v: Value)

  /** The loop over `parts[1:]` in `get_value`: `output` is skipped, a dict is entered, anything else ends the walk. */
  function StepsWalk(cur: Value, parts: seq<string>): Walk
    decreases |parts|
  {
    if parts == [] then Finished(cur)
    else if parts[0] == "output" then StepsWalk(cur, parts[1..])
    else if cur.Dict? then StepsWalk(Get(cur.fields, parts[0]), parts[1..])
    else Stopped(cur)
  }

  /** Text that `get_value` hands to `json.loads`: braces or brackets at both ends. */
  predicate LooksLikeJson(s: string) {
    (StartsWith(s, "{") && EndsWith(s, "}")) || (StartsWith(s, "[") && EndsWith(s, "]"))
  }

  /** The leaf step: a JSON-looking string is parsed, and a failed parse keeps the original string. */
  function ParseLeaf(cur: Value, tryParse: string -> Option<Value>): (r: Value)
    ensures !cur.Str? ==> r == cur
    ensures cur.Str? && !LooksLikeJson(Strip(cur.s)) ==> r == cur
    ensures cur.Str? && LooksLikeJson(Strip(cur.s)) ==>
      r == (if tryParse(Strip(cur.s)).Some? then tryParse(Strip(cur.s)).value else cur)
  {
    if cur.Str? then
      var s := Strip(cur.s);
      if LooksLikeJson(s) then
        match tryParse(s)
        case Some(parsed) => parsed
        case None => cur
      else cur
    else cur
  }

  /** The result of `get_value` for the part after `steps.`. */
  function StepsValue(steps: map<string, Value>, remainder: string, tryParse: string -> Option<Value>): Value {
    if remainder == [] then Null
    else
      var parts := Split(remainder, '.');
      match StepsWalk(Get(steps, parts[0]), parts[1..])
      case Stopped(v) => v
      case Finished(v) => ParseLeaf(v, tryParse)
  }

  /** `SafeEvaluator.get_value(path)`. */
  function ValueAt(sc: Scope, tryParse: string -> Option<Value>, path: string): Value {
    if StartsWith(path, "state.") then ByPath(sc.state, path[6..])
    else if StartsWith(path, "steps.") then StepsValue(sc.steps, path[6..], tryParse)
    else Null
  }

  /** `SafeEvaluator.length(x)`: `len(x)`, and 0 where `len` raises. */
  function Length(v: Value): (n: nat)
    ensures v.Str? ==> n == |v.s|
    ensures v.List? ==> n == |v.items|
    ensures v.Dict? ==> n == |v.fields|
    ensures !HasLength(v) ==> n == 0
  {
    match v
    case Str(s) => |s|
    case List(xs) => |xs|
    case Dict(m) => |m|
    case _ => 0
  }

  // ----- the loops of the source, proved against the functions above -----

  /** `_get_by_path`: the `for p in parts` loop rebinding `cur`. */
  method GetByPath(obj: Value, dotted: string) returns (r: Value)
    ensures r == ByPath(obj, dotted)
  {
    var parts := if dotted == [] then [] else Split(dotted, '.');
    var cur := obj;
    var i := 0;
    while i < |parts|
      invariant 0 <= i <= |parts|
      invariant StateWalk(cur, parts[i..]) == ByPath(obj, dotted)
    {
      if cur.Null? {
        return Null;
      }
      if cur.Dict? {
        cur := Get(cur.fields, parts[i]);
      } else {
        cur := Null;
      }
      i := i + 1;
    }
    return cur;
  }

  /** `get_value`: prefix dispatch, then the walk over the `steps.` parts and the leaf parse. */
  method GetValue(sc: Scope, tryParse: string -> Option<Value>, path: string) returns (r: Value)
    ensures r == ValueAt(sc, tryParse, path)
  {
    if StartsWith(path, "state.") {
      r := GetByPath(sc.state, path[6..]);
      return;
    }
    if !StartsWith(path, "steps.") {
      return Null;
    }
    var remainder := path[6..];
    if remainder == [] {
      return Null;
    }
    var parts := Split(remainder, '.');
    var current := Get(sc.steps, parts[0]);
    var i := 1;
    while i < |parts|
      invariant 1 <= i <= |parts|
      invariant StepsWalk(Get(sc.steps, parts[0]), parts[1..]) == StepsWalk(current, parts[i..])
    {
      var p := parts[i];
      if p == "output" {
        i := i + 1;
        continue;
      }
      if current.Dict? {
        current := Get(current.fields, p);
      } else {
        return current;
      }
      i := i + 1;
    }
    r := ParseLeaf(current, tryParse);
  }

  // ----- properties of path resolution -----

  /** A path with neither prefix resolves to `None`. */
  lemma {:induction false} NoPrefixIsNull(sc: Scope, tryParse: string -> Option<Value>, path: string)
    requires !StartsWith(path, "state.") && !StartsWith(path, "steps.")
    ensures ValueAt(sc, tryParse, path) == Null
  {
  }

  /** Once the walk holds `None`, every further part keeps it `None`. */
  lemma {:induction false} NullAbsorbs(parts: seq<string>)
    ensures StateWalk(Null, parts) == Null
  {
  }

  /** A key the current dict lacks (or a non-dict, non-`None` value) ends the lookup in `None`. */
  lemma {:induction false} MissingKeyIsNull(cur: Value, parts: seq<string>)
    requires parts != []
    requires !(cur.Dict? && parts[0] in cur.fields)
    ensures StateWalk(cur, parts) == Null
  {
    NullAbsorbs(parts[1..]);
  }

  /** Walking `a + b` is walking `a` and then `b` from where `a` ended. */
  lemma {:induction false} StateWalkAppend(cur: Value, a: seq<string>, b: seq<string>)
    ensures StateWalk(cur, a + b) == StateWalk(StateWalk(cur, a), b)
    decreases |a|
  {
    if a == [] {
      assert a + b == b;
    } else if cur.Null? {
      NullAbsorbs(b);
    } else {
      assert (a + b)[1..] == a[1..] + b;
      StateWalkAppend(Step(cur, a[0]), a[1..], b);
    }
  }

  /** Nested dicts are entered key by key: `state.k1.k2...kn` reads the nested entry. */
  lemma {:induction false} StatePathOfKeys(sc: Scope, tryParse: string -> Option<Value>, keys: seq<string>)
    requires |keys| >= 1
    requires forall i :: 0 <= i < |keys| ==> keys[i] != [] && '.' !in keys[i]
    ensures ValueAt(sc, tryParse, "state." + Join(keys, ".")) == StateWalk(sc.state, keys)
  {
    var dotted := Join(keys, ".");
    assert dotted != [] by {
      JoinNonEmpty(keys, ".");
    }
    var path := "state." + dotted;
    assert StartsWith(path, "state.");
    assert path[6..] == dotted;
    SplitJoin(keys, '.');
  }

  lemma {:induction false} JoinNonEmpty(parts: seq<string>, sep: string)
    requires |parts| >= 1 && parts[0] != []
    ensures Join(parts, sep) != []
  {
  }

  /** Removing every `output` segment. */
  function DropOutput(parts: seq<string>): (r: seq<string>)
    ensures forall i :: 0 <= i < |r| ==> r[i] != "output"
    ensures |r| <= |parts|
  {
    if parts == [] then []
    else if parts[0] == "output" then DropOutput(parts[1..])
    else [parts[0]] + DropOutput(parts[1..])
  }

  /** `output` segments do not change where a `steps.` walk ends. */
  lemma {:induction false} OutputSegmentsSkipped(cur: Value, parts: seq<string>)
    ensures StepsWalk(cur, parts) == StepsWalk(cur, DropOutput(parts))
    decreases |parts|
  {
    if parts != [] {
      if parts[0] == "output" {
        OutputSegmentsSkipped(cur, parts[1..]);
      } else if cur.Dict? {
        OutputSegmentsSkipped(Get(cur.fields, parts[0]), parts[1..]);
        assert ([parts[0]] + DropOutput(parts[1..]))[1..] == DropOutput(parts[1..]);
      }
    }
  }

  /** At a value that is not a dict, the walk stops as soon as a part other than `output` remains, keeping that value unparsed. */
  lemma {:induction false} NonDictStops(cur: Value, parts: seq<string>)
    requires !cur.Dict?
    ensures StepsWalk(cur, parts) == (if DropOutput(parts) == [] then Finished(cur) else Stopped(cur))
    decreases |parts|
  {
    if parts != [] && parts[0] == "output" {
      NonDictStops(cur, parts[1..]);
    }
  }

  /** `steps.<id>` reads the recorded output of step `id`, with the leaf parse applied. */
  lemma {:induction false} StepLookup(sc: Scope, tryParse: string -> Option<Value>, id: string)
    requires id != [] && '.' !in id
    ensures ValueAt(sc, tryParse, "steps." + id) == ParseLeaf(Get(sc.steps, id), tryParse)
  {
    var p := "steps." + id;
    assert StartsWith(p, "steps.");
    assert !StartsWith(p, "state.") by {
      assert p[2] == 'e';
    }
    assert p[6..] == id;
    assert Split(id, '.') == [id] by {
      SplitJoin([id], '.');
    }
  }

  /** `steps.<id>.output` reads the same value as `steps.<id>`. */
  lemma {:induction false} StepOutputLookup(sc: Scope, tryParse: string -> Option<Value>, id: string)
    requires id != [] && '.' !in id
    ensures ValueAt(sc, tryParse, "steps." + id + ".output") == ParseLeaf(Get(sc.steps, id), tryParse)
  {
    var p := "steps." + id + ".output";
    assert StartsWith(p, "steps.");
    assert !StartsWith(p, "state.") by {
      assert p[2] == 'e';
    }
    var rem := p[6..];
    assert rem == id + "." + "output";
    assert Split(rem, '.') == [id, "output"] by {
      assert Join([id, "output"], ".") == rem;
      SplitJoin([id, "output"], '.');
    }
    assert StepsWalk(Get(sc.steps, id), ["output"]) == Finished(Get(sc.steps, id));
  }
}
