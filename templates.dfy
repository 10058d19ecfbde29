/**
 * `TemplateResolver` (core/executor.py): placeholders `{{ path }}` in the
 * parameters of an agent call are replaced by values looked up with
 * `get_value`. A string that is exactly one placeholder yields the value
 * itself (its type kept); any other string gets every placeholder replaced
 * by text: the JSON of a dict or list, `str()` of anything else.
 *
 * The regular expression `\{\{\s*([^}]+)\s*\}\}` is modelled by `PlaceholderAt`:
 * two opening braces, a non-empty run without `}`, two closing braces.
 * `json.dumps` is the parameter `dumps`.
 */
module Templates {
  import opened Text
  import opened Values
  import opened Paths

  /** A placeholder match: where it ends and the text between the braces. */
  datatype Slot = Slot(end: nat, run: string)

  /** Two opening braces start at position `c` of `s`. */
  predicate OpenerAt(s: string, c: nat) {
    c + 2 <= |s| && s[c] == '{' && s[c + 1] == '{'
  }

  /** The template expression matched at position `i` of `s`, if one starts there. */
  function PlaceholderAt(s: string, i: nat): (m: Option<Slot>)
    requires i <= |s|
    ensures m.Some? ==>
      i + 4 <= m.value.end <= |s| && OpenerAt(s, i) && s[m.value.end - 2] == '}' && s[m.value.end - 1] == '}'
      && m.value.run == s[i + 2..m.value.end - 2] && m.value.run != [] && '}' !in m.value.run
  {
    if OpenerAt(s, i) then
      var j := i + 2;
      var k := IndexFrom(s, j, '}');
      if j < k && k + 1 < |s| && s[k + 1] == '}' then
        assert forall t :: 0 <= t < k - j ==> s[j..k][t] == s[j + t];
        Some(Slot(k + 2, s[j..k]))
      else None
    else None
  }

  /** The regular expression matches exactly the texts `{{` run `}}` with a non-empty run free of `}`. */
  lemma {:induction false} PlaceholderMatches(pre: string, run: string, post: string)
    requires run != [] && '}' !in run
    ensures PlaceholderAt(pre + "{{" + run + "}}" + post, |pre|) == Some(Slot(|pre| + |run| + 4, run))
  {
    var s := pre + "{{" + run + "}}" + post;
    var j := |pre| + 2;
    assert s[|pre|] == '{' && s[|pre| + 1] == '{';
    assert IndexFrom(s, j, '}') == j + |run| by {
      assert s[j + |run|] == '}';
      assert forall t :: j <= t < j + |run| ==> s[t] == run[t - j];
    }
    assert s[j + |run| + 1] == '}';
    assert s[j..j + |run|] == run;
  }

  /** Number of leading whitespace characters of `s`. */
  function LeadingSpaces(s: string): (n: nat)
    ensures n <= |s|
    ensures forall c :: 0 <= c < n ==> IsSpace(s[c])
    ensures n < |s| ==> !IsSpace(s[n])
  {
    if s != [] && IsSpace(s[0]) then 1 + LeadingSpaces(s[1..]) else 0
  }

  /**
   * The capture group as the source's expression yields it: `\s*` takes the
   * leading whitespace (keeping at least one character for `[^}]+`), and the
   * greedy `[^}]+` keeps the trailing whitespace, so the closing `\s*` is empty.
   */
  function RawCapture(run: string): (g: string)
    requires run != []
    ensures g != [] && |g| <= |run| && g == run[|run| - |g|..]
    ensures g[|g| - 1] == run[|run| - 1]
  {
    var w := LeadingSpaces(run);
    run[if w < |run| then w else |run| - 1..]
  }

  /** The capture group that the expression's trailing `\s*` is there to give: the run with surrounding whitespace removed. */
  function Capture(run: string): string {
    Strip(run)
  }

  /** Which capture the renderer uses: the source's, or the corrected one the rest of this model uses. */
  datatype CaptureMode = AsWritten | Corrected

  function PathOf(mode: CaptureMode, run: string): string
    requires run != []
  {
    match mode
    case AsWritten => RawCapture(run)
    case Corrected => Capture(run)
  }

  /** The text a placeholder is replaced by: `json.dumps` for a dict or list, `str()` otherwise. */
  function SlotText(v: Value, dumps: Value -> string): (t: string)
    ensures v.List? || v.Dict? ==> t == dumps(v)
    ensures IsScalar(v) ==> t == ScalarText(v)
  {
    if v.List? || v.Dict? then dumps(v) else ScalarText(v)
  }

  /**
   * The replacement function handed to `TEMPLATE_RE.sub`: the text of the
   * value the captured path leads to (a match's run is never empty).
   */
  function Repl(sc: Scope, tryParse: string -> Option<Value>, dumps: Value -> string, mode: CaptureMode): (repl: string -> string)
    ensures forall run :: run != [] ==> repl(run) == SlotText(ValueAt(sc, tryParse, PathOf(mode, run)), dumps)
  {
    run => if run == [] then "" else SlotText(ValueAt(sc, tryParse, PathOf(mode, run)), dumps)
  }

  /** `TEMPLATE_RE.sub(repl, s[i:])`: scan left to right, replace each match, copy other characters. */
  function SubstituteFrom(repl: string -> string, s: string, i: nat): string
    requires i <= |s|
    decreases |s| - i
  {
    if i == |s| then ""
    else
      match PlaceholderAt(s, i)
      case Some(m) =>
        repl(m.run) + SubstituteFrom(repl, s, m.end)
      case None => [s[i]] + SubstituteFrom(repl, s, i + 1)
  }

  /** `re.fullmatch(...)`: the whole string is one placeholder; yields its run. */
  function WholePlaceholder(s: string): (r: Option<string>)
    ensures r.Some? ==>
      (|s| >= 4 && OpenerAt(s, 0) && s[|s| - 2] == '}' && s[|s| - 1] == '}' && r.value == s[2..|s| - 2]
       && r.value != [] && '}' !in r.value)
  {
    match PlaceholderAt(s, 0)
    case Some(m) => if m.end == |s| then Some(m.run) else None
    case None => None
  }

  /** `_render_str`, with the given capture. */
  function RenderStrWith(sc: Scope, tryParse: string -> Option<Value>, dumps: Value -> string,
                         mode: CaptureMode, s: string): Value
  {
    match WholePlaceholder(s)
    case Some(run) => ValueAt(sc, tryParse, PathOf(mode, run))
    case None => Str(SubstituteFrom(Repl(sc, tryParse, dumps, mode), s, 0))
  }

  /** `_render_str` exactly as the source's expression behaves. */
  function RenderStrAsWritten(sc: Scope, tryParse: string -> Option<Value>, dumps: Value -> string, s: string): Value {
    RenderStrWith(sc, tryParse, dumps, AsWritten, s)
  }

  /** `_render_str` with whitespace inside the braces ignored on both sides. */
  function RenderStr(sc: Scope, tryParse: string -> Option<Value>, dumps: Value -> string, s: string): Value {
    RenderStrWith(sc, tryParse, dumps, Corrected, s)
  }

  /** `render`: strings are rendered, dicts and lists element-wise, other values returned unchanged. */
  function Render(sc: Scope, tryParse: string -> Option<Value>, dumps: Value -> string, v: Value): (r: Value)
    ensures IsScalar(v) && !v.Str? ==> r == v
    ensures v.List? ==> r.List? && |r.items| == |v.items|
    ensures v.List? ==> forall i :: 0 <= i < |v.items| ==> r.items[i] == Render(sc, tryParse, dumps, v.items[i])
    ensures v.Dict? ==> r.Dict? && r.fields.Keys == v.fields.Keys
    ensures v.Dict? ==> forall k :: k in v.fields ==> r.fields[k] == Render(sc, tryParse, dumps, v.fields[k])
    decreases v
  {
    match v
    case Str(s) => RenderStr(sc, tryParse, dumps, s)
    case List(xs) => List(seq(|xs|, i requires 0 <= i < |xs| => Render(sc, tryParse, dumps, xs[i])))
    case Dict(m) => Dict(map k | k in m :: Render(sc, tryParse, dumps, m[k]))
    case _ => v
  }

  // ----- properties of rendering -----

  /** A string that is exactly one placeholder yields the looked-up value itself, of whatever type it has. */
  lemma {:induction false} WholePlaceholderKeepsValue(sc: Scope, tryParse: string -> Option<Value>, dumps: Value -> string, run: string)
    requires run != [] && '}' !in run
    ensures RenderStr(sc, tryParse, dumps, "{{" + run + "}}") == ValueAt(sc, tryParse, Strip(run))
  {
    WholeOfRun(run);
    assert PathOf(Corrected, run) == Strip(run);
  }

  /** `{{run}}` fullmatches with `run` as its run. */
  lemma {:induction false} WholeOfRun(run: string)
    requires run != [] && '}' !in run
    ensures WholePlaceholder("{{" + run + "}}") == Some(run)
  {
    PlaceholderMatches("", run, "");
    assert "" + "{{" + run + "}}" + "" == "{{" + run + "}}";
  }

  /** `s` holds no `{{` at or after position `i`. */
  predicate NoOpenerFrom(s: string, i: nat) {
    forall c :: i <= c < |s| ==> !OpenerAt(s, c)
  }

  /** Substitution copies text without a `{{` unchanged. */
  lemma {:induction false} SubstituteFromPlain(repl: string -> string, s: string, i: nat)
    requires i <= |s| && NoOpenerFrom(s, i)
    ensures SubstituteFrom(repl, s, i) == s[i..]
  {
    CopiesPlain(repl, s, i, |s|);
    assert s[i..|s|] + "" == s[i..];
  }

  /** Text that contains no `{{` renders to itself. */
  lemma {:induction false} PlainTextUnchanged(sc: Scope, tryParse: string -> Option<Value>, dumps: Value -> string, s: string)
    requires NoOpenerFrom(s, 0)
    ensures RenderStr(sc, tryParse, dumps, s) == Str(s)
  {
    assert WholePlaceholder(s).None? by {
      if |s| > 0 {
        assert !OpenerAt(s, 0);
      }
    }
    SubstituteFromPlain(Repl(sc, tryParse, dumps, Corrected), s, 0);
  }

  /** A placeholder in the middle of a text is replaced by the text of its value; the text before it is kept. */
  lemma {:induction false} PlaceholderReplaced(repl: string -> string, pre: string, run: string, post: string)
    requires '{' !in pre && run != [] && '}' !in run
    ensures var s := pre + "{{" + run + "}}" + post;
      SubstituteFrom(repl, s, 0) == pre + repl(run) + SubstituteFrom(repl, s, |pre| + |run| + 4)
  {
    var s := pre + "{{" + run + "}}" + post;
    PlaceholderMatches(pre, run, post);
    assert pre <= s;
    ReplacedAfterPrefix(repl, s, pre, |pre| + |run| + 4, run);
  }

  /** `PlaceholderReplaced` for any text that starts with `pre` and has a match right after it. */
  lemma {:induction false} ReplacedAfterPrefix(repl: string -> string, s: string, pre: string, end: nat, run: string)
    requires pre <= s && '{' !in pre && PlaceholderAt(s, |pre|) == Some(Slot(end, run))
    ensures run != [] && end <= |s|
    ensures SubstituteFrom(repl, s, 0)
      == pre + repl(run) + SubstituteFrom(repl, s, end)
  {
    forall c | 0 <= c < |pre| ensures !OpenerAt(s, c) {
      assert s[c] == pre[c];
      assert pre[c] in pre;
    }
    CopiesPlain(repl, s, 0, |pre|);
    assert s[0..|pre|] == pre;
    SubstituteAtMatch(repl, s, |pre|, end, run);
    var t := repl(run);
    var b := SubstituteFrom(repl, s, end);
    assert pre + (t + b) == pre + t + b;
  }

  /** No match starts where there are not two opening braces. */
  lemma {:induction false} NoPlaceholderWithoutOpener(s: string, i: nat)
    requires i <= |s| && !OpenerAt(s, i)
    ensures PlaceholderAt(s, i).None?
  {
  }

  /** Where no placeholder starts, the character is copied and the scan moves on by one. */
  lemma {:induction false} SubstituteAtPlain(repl: string -> string, s: string, i: nat)
    requires i < |s| && PlaceholderAt(s, i).None?
    ensures SubstituteFrom(repl, s, i) == [s[i]] + SubstituteFrom(repl, s, i + 1)
  {
  }

  /** Where a placeholder matches, its text is emitted and the scan resumes after it. */
  lemma {:induction false} SubstituteAtMatch(repl: string -> string, s: string, i: nat, end: nat, run: string)
    requires i <= |s| && PlaceholderAt(s, i) == Some(Slot(end, run))
    ensures run != [] && end <= |s|
    ensures SubstituteFrom(repl, s, i)
      == repl(run) + SubstituteFrom(repl, s, end)
  {
  }

  /** A stretch of text without `{{` is copied as it is. */
  lemma {:induction false} CopiesPlain(repl: string -> string, s: string, i: nat, j: nat)
    requires i <= j <= |s| && forall c :: i <= c < j ==> !OpenerAt(s, c)
    ensures SubstituteFrom(repl, s, i) == s[i..j] + SubstituteFrom(repl, s, j)
    decreases j - i
  {
    if i < j {
      NoPlaceholderWithoutOpener(s, i);
      SubstituteAtPlain(repl, s, i);
      CopiesPlain(repl, s, i + 1, j);
      assert s[i..j] == [s[i]] + s[i + 1..j];
      PrependJoin(s[i], s[i + 1..j], SubstituteFrom(repl, s, j), s[i..j]);
    }
  }

  lemma {:induction false} PrependJoin(c: char, u: string, rest: string, whole: string)
    requires whole == [c] + u
    ensures [c] + (u + rest) == whole + rest
  {
  }

  /** No string anywhere in `v` contains `{{`. */
  predicate TemplateFree(v: Value)
    decreases v
  {
    match v
    case Str(s) => NoOpenerFrom(s, 0)
    case List(xs) => forall i :: 0 <= i < |xs| ==> TemplateFree(xs[i])
    case Dict(m) => forall k :: k in m ==> TemplateFree(m[k])
    case _ => true
  }

  /** Rendering a value without placeholders gives the same value back, at every depth. */
  lemma {:induction false} RenderTemplateFree(sc: Scope, tryParse: string -> Option<Value>, dumps: Value -> string, v: Value)
    requires TemplateFree(v)
    ensures Render(sc, tryParse, dumps, v) == v
    decreases v
  {
    match v
    case Str(s) => PlainTextUnchanged(sc, tryParse, dumps, s);
    case List(xs) =>
      forall i | 0 <= i < |xs| ensures Render(sc, tryParse, dumps, xs[i]) == xs[i] {
        RenderTemplateFree(sc, tryParse, dumps, xs[i]);
      }
    case Dict(m) =>
      forall k | k in m ensures Render(sc, tryParse, dumps, m[k]) == m[k] {
        RenderTemplateFree(sc, tryParse, dumps, m[k]);
      }
    case _ =>
  }

  /** The two captures agree when the run has no whitespace on either side. */
  lemma {:induction false} CapturesAgreeWhenTight(run: string)
    requires run != [] && !IsSpace(run[0]) && !IsSpace(run[|run| - 1])
    ensures RawCapture(run) == Capture(run)
  {
    StripTrimmed(run);
  }

  /** As written, a whitespace before the closing braces becomes part of the path. */
  lemma {:induction false} RawCaptureKeepsTrailingSpace(run: string)
    requires run != [] && IsSpace(run[|run| - 1]) && !IsSpace(run[0])
    ensures RawCapture(run) == run
    ensures RawCapture(run) != Capture(run)
  {
    assert Strip(run) == [] || !IsSpace(Strip(run)[|Strip(run)| - 1]);
  }

  /** The state of the example below: `metadata == {"x": 5}`. */
  function ExampleScope(): Scope {
    Scope(Dict(map["metadata" := Dict(map["x" := Int(5)])]), map[])
  }

  /** `{{ state.metadata.x }}` is one placeholder whose run keeps both spaces. */
  lemma {:induction false} ExampleIsWhole()
    ensures WholePlaceholder("{{ state.metadata.x }}") == Some(" state.metadata.x ")
  {
    var run := " state.metadata.x ";
    assert "{{ state.metadata.x }}" == "" + "{{" + run + "}}" + "";
    PlaceholderMatches("", run, "");
  }

  /** As written, the looked-up path keeps the space before the closing braces. */
  lemma {:induction false} ExampleCaptures()
    ensures RawCapture(" state.metadata.x ") == "state.metadata.x "
    ensures Capture(" state.metadata.x ") == "state.metadata.x"
  {
    var run := " state.metadata.x ";
    assert LeadingSpaces(run[1..]) == 0;
    assert LeadingSpaces(run) == 1;
    assert run == " " + "state.metadata.x" + " ";
    StripPadded(" ", "state.metadata.x", " ");
  }

  /** `state.metadata.x ` asks for the key `"x "`, which the metadata lacks. */
  lemma {:induction false} ExampleRawLookup(tryParse: string -> Option<Value>)
    ensures ValueAt(ExampleScope(), tryParse, "state.metadata.x ") == Null
  {
    var keys := ["metadata", "x "];
    assert "state.metadata.x " == "state." + Join(keys, ".");
    StatePathOfKeys(ExampleScope(), tryParse, keys);
    assert StateWalk(ExampleScope().state, keys) == StateWalk(Dict(map["x" := Int(5)]), ["x "]);
  }

  /** `state.metadata.x` reads 5. */
  lemma {:induction false} ExampleLookup(tryParse: string -> Option<Value>)
    ensures ValueAt(ExampleScope(), tryParse, "state.metadata.x") == Int(5)
  {
    var keys := ["metadata", "x"];
    assert "state.metadata.x" == "state." + Join(keys, ".");
    StatePathOfKeys(ExampleScope(), tryParse, keys);
    assert StateWalk(ExampleScope().state, keys) == StateWalk(Dict(map["x" := Int(5)]), ["x"]);
  }

  /**
   * The discrepancy on a concrete plan: with `metadata.x == 5` in the state,
   * `{{ state.metadata.x }}` renders to `None` as written (the looked-up key is
   * `"x "`), and to `5` once the surrounding whitespace is ignored.
   */
  lemma {:induction false} SpacedPlaceholderCounterexample(tryParse: string -> Option<Value>, dumps: Value -> string)
    ensures RenderStrAsWritten(ExampleScope(), tryParse, dumps, "{{ state.metadata.x }}") == Null
    ensures RenderStr(ExampleScope(), tryParse, dumps, "{{ state.metadata.x }}") == Int(5)
  {
    SpacedAsWritten(tryParse, dumps);
    SpacedCorrected(tryParse, dumps);
  }

  /** A template that is one placeholder renders to the value at its path. */
  lemma {:induction false} WholeRenders(sc: Scope, tryParse: string -> Option<Value>, dumps: Value -> string,
                     mode: CaptureMode, s: string, run: string)
    requires WholePlaceholder(s) == Some(run)
    ensures RenderStrWith(sc, tryParse, dumps, mode, s) == ValueAt(sc, tryParse, PathOf(mode, run))
  {
  }

  lemma {:induction false} SpacedAsWritten(tryParse: string -> Option<Value>, dumps: Value -> string)
    ensures RenderStrAsWritten(ExampleScope(), tryParse, dumps, "{{ state.metadata.x }}") == Null
  {
    var s := "{{ state.metadata.x }}";
    var run := " state.metadata.x ";
    ExampleIsWhole();
    WholeRenders(ExampleScope(), tryParse, dumps, AsWritten, s, run);
    ExampleCaptures();
    ExampleRawLookup(tryParse);
  }

  lemma {:induction false} SpacedCorrected(tryParse: string -> Option<Value>, dumps: Value -> string)
    ensures RenderStr(ExampleScope(), tryParse, dumps, "{{ state.metadata.x }}") == Int(5)
  {
    var s := "{{ state.metadata.x }}";
    var run := " state.metadata.x ";
    ExampleIsWhole();
    var sc := ExampleScope();
    WholeRenders(sc, tryParse, dumps, Corrected, s, run);
    assert RenderStr(sc, tryParse, dumps, s) == RenderStrWith(sc, tryParse, dumps, Corrected, s);
    ExampleCaptures();
    assert PathOf(Corrected, run) == "state.metadata.x";
    ExampleLookup(tryParse);
  }

  lemma {:induction false} NoCloserInPadded(pre: string, path: string, post: string)
    requires forall i :: 0 <= i < |pre| ==> IsSpace(pre[i])
    requires forall i :: 0 <= i < |post| ==> IsSpace(post[i])
    requires '}' !in path
    ensures '}' !in pre + path + post
  {
    var t := pre + path + post;
    forall c | 0 <= c < |t| ensures t[c] != '}' {
      if c < |pre| {
        assert t[c] == pre[c] && IsSpace(pre[c]);
      } else if c < |pre| + |path| {
        assert t[c] == path[c - |pre|];
      } else {
        assert t[c] == post[c - |pre| - |path|] && IsSpace(post[c - |pre| - |path|]);
      }
    }
  }

  /** A spaced placeholder and a tight one read the same value, in the corrected model. */
  lemma {:induction false} SpacingIgnored(sc: Scope, tryParse: string -> Option<Value>, dumps: Value -> string,
                       pre: string, path: string, post: string)
    requires forall i :: 0 <= i < |pre| ==> IsSpace(pre[i])
    requires forall i :: 0 <= i < |post| ==> IsSpace(post[i])
    requires path != [] && '}' !in path && !IsSpace(path[0]) && !IsSpace(path[|path| - 1])
    ensures RenderStr(sc, tryParse, dumps, "{{" + pre + path + post + "}}")
         == RenderStr(sc, tryParse, dumps, "{{" + path + "}}")
  {
    var inner := pre + path + post;
    NoCloserInPadded(pre, path, post);
    assert "{{" + pre + path + post + "}}" == "{{" + inner + "}}";
    WholePlaceholderKeepsValue(sc, tryParse, dumps, inner);
    WholePlaceholderKeepsValue(sc, tryParse, dumps, path);
    StripPadded(pre, path, post);
    StripTrimmed(path);
  }
}
