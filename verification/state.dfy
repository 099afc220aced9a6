/**
 * The record threaded through the analyst graph (`AnalystState`), the JSON
 * values that reach it from the language model, and the merge the graph
 * runtime applies when a node returns an update.
 */
module State {
  import opened Wrappers
  import Text

  /** A decoded JSON value (numbers are integers in this model). */
  datatype Json =
    | JNull
    | JBool(b: bool)
    | JNum(n: int)
    | JStr(s: string)
    | JArr(items: seq<Json>)
    | JObj(fields: map<string, Json>)

  /** Python truthiness of a decoded JSON value. */
  predicate Truthy(j: Json) {
    match j
    case JNull => false
    case JBool(b) => b
    case JNum(n) => n != 0
    case JStr(s) => s != ""
    case JArr(items) => items != []
    case JObj(fields) => |fields| > 0
  }

  /** `d.get(key, default)` on a JSON value; `None` when the value is not a dict (an `AttributeError`). */
  function Get(d: Json, key: string, default: Json): (r: Option<Json>)
    ensures r.Some? <==> d.JObj?
    ensures d.JObj? && key !in d.fields ==> r == Some(default)
    ensures d.JObj? && key in d.fields ==> r == Some(d.fields[key])
  {
    if d.JObj? then Some(if key in d.fields then d.fields[key] else default) else None
  }

  /**
   * The value of the `intent` field. The state declares four literals, but the
   * classifier stores whatever the model's JSON carried, so any other value is
   * kept as `Unlisted`.
   */
  datatype Intent = Describe | Diagnose | Prescribe | Clarify | Unlisted(raw: Json)

  /** One of the four literals the state declares. */
  predicate IsDeclared(i: Intent) {
    !i.Unlisted?
  }

  /** The intent a JSON value denotes when compared with the literals. */
  function IntentFromJson(j: Json): (i: Intent)
    ensures IsDeclared(i) <==> j in {JStr("describe"), JStr("diagnose"), JStr("prescribe"), JStr("clarify")}
    ensures i.Unlisted? ==> i.raw == j
  {
    if j == JStr("describe") then Describe
    else if j == JStr("diagnose") then Diagnose
    else if j == JStr("prescribe") then Prescribe
    else if j == JStr("clarify") then Clarify
    else Unlisted(j)
  }

  /** `str(value)` for a JSON scalar; containers are shown only by their brackets. */
  function PyStr(j: Json): string {
    match j
    case JNull => "None"
    case JBool(b) => if b then "True" else "False"
    case JNum(n) => Text.IntToString(n)
    case JStr(s) => s
    case JArr(_) => "[...]"
    case JObj(_) => "{...}"
  }

  /** `str(intent)` as the listings print it. */
  function IntentText(i: Intent): string {
    match i
    case Describe => "describe"
    case Diagnose => "diagnose"
    case Prescribe => "prescribe"
    case Clarify => "clarify"
    case Unlisted(raw) => PyStr(raw)
  }

  lemma IntentTextRoundTrip(j: Json)
    requires j.JStr?
    ensures IntentText(IntentFromJson(j)) == j.s
  {
  }

  /** A `{tool, result}` entry of `data_context`. */
  datatype Entry = Entry(tool: string, result: string)

  /** A recommendation dict, represented by its `str()` text (the only thing the pipeline reads). */
  datatype Recommendation = Recommendation(text: string)

  /** One recorded question/answer turn. */
  datatype Exchange = Exchange(question: string, response: string, intent: Intent,
                               toolsUsed: seq<string>, timestamp: string)

  /** The reasons a run stops with an exception that no node catches. */
  datatype Failure =
    | PayloadNotObject   // the model's JSON is not an object, so `result.get` raises
    | EntitiesNotObject  // `entities` is not an object, so `entities.get` raises
    | SkusNotSliceable   // a truthy `skus` that is neither a list nor a string cannot be sliced

  datatype AnalystState = AnalystState(
    question: string,
    intent: Intent,
    entities: Json,
    dataContext: seq<Entry>,
    insights: seq<string>,
    recommendations: seq<Recommendation>,
    response: string,
    conversationHistory: seq<Exchange>)

  /** The tool names of a context, in order. */
  function ToolNames(ctx: seq<Entry>): (names: seq<string>)
    ensures |names| == |ctx|
    ensures forall i :: 0 <= i < |ctx| ==> names[i] == ctx[i].tool
  {
    seq(|ctx|, i requires 0 <= i < |ctx| => ctx[i].tool)
  }

  lemma {:induction false} ToolNamesAppend(a: seq<Entry>, b: seq<Entry>)
    ensures ToolNames(a + b) == ToolNames(a) + ToolNames(b)
  {
    assert |ToolNames(a + b)| == |ToolNames(a) + ToolNames(b)|;
    forall i | 0 <= i < |a| + |b|
      ensures ToolNames(a + b)[i] == (ToolNames(a) + ToolNames(b))[i]
    {
      if i < |a| {
        assert (a + b)[i] == a[i];
      } else {
        assert (a + b)[i] == b[i - |a|];
      }
    }
  }

  /** The name of an entry appended on a condition, or nothing when the condition fails. */
  lemma OptionalName(fires: bool, e: Entry)
    ensures ToolNames(if fires then [e] else []) == if fires then [e.tool] else []
  {
  }

  /** Appending entries named `names`, or nothing, keeps the names within `order + names`. */
  lemma NamesInOrderStep(before: seq<Entry>, added: seq<Entry>, order: seq<string>, names: seq<string>)
    requires Text.IsSubseq(ToolNames(before), order)
    requires added == [] || ToolNames(added) == names
    ensures Text.IsSubseq(ToolNames(before + added), order + names)
  {
    ToolNamesAppend(before, added);
    if added == [] {
      assert before + added == before;
      Text.SubseqAppendRight(ToolNames(before), order, names);
    } else {
      Text.SubseqAppendBoth(ToolNames(before), order, names);
    }
  }

  /**
   * The update the graph runtime applies when a node returns `update`:
   * `data_context` and `insights` are declared with the `add` reducer, every
   * other field takes the returned value.
   */
  function Reduce(current: AnalystState, update: AnalystState): AnalystState {
    update.(dataContext := current.dataContext + update.dataContext,
            insights := current.insights + update.insights)
  }

  /** Onto empty lists, the reducer yields the returned state itself. */
  lemma ReduceOntoEmpty(current: AnalystState, update: AnalystState)
    requires current.dataContext == [] && current.insights == []
    ensures Reduce(current, update) == update
  {
    assert [] + update.dataContext == update.dataContext;
    assert [] + update.insights == update.insights;
  }

  /** The reducer keeps the current lists as a prefix and appends the update; `recommendations` is replaced. */
  lemma ReduceConcatenates(current: AnalystState, update: AnalystState)
    ensures var r := Reduce(current, update);
      && |r.dataContext| == |current.dataContext| + |update.dataContext|
      && r.dataContext[..|current.dataContext|] == current.dataContext
      && r.dataContext[|current.dataContext|..] == update.dataContext
      && |r.insights| == |current.insights| + |update.insights|
      && r.insights[..|current.insights|] == current.insights
      && r.insights[|current.insights|..] == update.insights
      && r.recommendations == update.recommendations
      && r.intent == update.intent && r.response == update.response
  {
    var r := Reduce(current, update);
    assert r.dataContext[..|current.dataContext|] == current.dataContext;
    assert r.dataContext[|current.dataContext|..] == update.dataContext;
    assert r.insights[..|current.insights|] == current.insights;
    assert r.insights[|current.insights|..] == update.insights;
  }
}
