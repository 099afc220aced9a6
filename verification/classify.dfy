/**
 * The classify node: the language model's reply is stripped of a markdown
 * fence and parsed as JSON; when parsing fails, an ordered keyword cascade
 * over the lower-cased question picks the intent.
 */
module Classify {
  import opened Wrappers
  import opened Text
  import opened State

  const JsonFence := "```json"
  const Fence := "```"

  /** Words that make the fallback answer `diagnose`; checked first. */
  const CausalWords := ["почему", "причин", "упал", "снизил", "что случил"]
  /** Words that make the fallback answer `prescribe`; checked second. */
  const ActionWords := ["что делать", "как улучш", "рекоменд", "оптимиз", "совет"]
  /** Words of the factual branch; it answers `describe`, as does the final `else`. */
  const FactWords := ["какой", "сколько", "покажи", "топ", "план", "маржа", "выручка"]

  lemma JsonFenceHasFence(s: string)
    requires Contains(s, JsonFence)
    ensures Contains(s, Fence)
  {
    var j := Find(s, JsonFence).value;
    assert s[j..j + 3] == s[j..j + 7][..3];
    assert OccursAt(s, Fence, j);
    FindIff(s, Fence);
  }

  /**
   * The text handed to the JSON parser before `strip()`: with a "```json" fence
   * the piece after the first "```json" up to the next "```", otherwise with a
   * "```" fence the piece between the first two fences, otherwise the reply.
   * Python's `[1]` index on the split never raises: the split has two pieces
   * whenever the separator is present.
   */
  function StripFence(content: string): string {
    if Contains(content, JsonFence) then
      SplitSecond(content, JsonFence);
      Split(Split(content, JsonFence)[1], Fence)[0]
    else if Contains(content, Fence) then
      SplitSecond(content, Fence);
      Split(Split(content, Fence)[1], Fence)[0]
    else content
  }

  /** Where the piece after the first "```json" is cut: at the next "```json", or at its end. */
  function JsonCut(rest: string): nat {
    match Find(rest, JsonFence)
    case None => |rest|
    case Some(k) => k
  }

  /**
   * A "```json" fence: the text after its first occurrence, up to the next
   * "```" (or, when that "```" overlaps a further "```json", up to that
   * "```json"); the result holds no fence.
   */
  lemma StripJsonFence(content: string)
    requires Contains(content, JsonFence)
    ensures var rest := content[Find(content, JsonFence).value + |JsonFence|..];
      var k := JsonCut(rest);
      StripFence(content) == (match Find(rest, Fence)
                              case None => rest
                              case Some(j) => rest[..if j + |Fence| <= k then j else k])
    ensures !Contains(StripFence(content), Fence)
  {
    var rest := content[Find(content, JsonFence).value + |JsonFence|..];
    SplitSecond(content, JsonFence);
    SplitHead(rest, JsonFence);
    var piece := Split(rest, JsonFence)[0];
    SplitHead(piece, Fence);
    match Find(rest, Fence)
    case None =>
      if Contains(rest, JsonFence) {
        JsonFenceHasFence(rest);
      }
      assert piece == rest;
    case Some(j) =>
      PrefixCut(rest, j, piece);
  }

  /** Cutting `rest` at its first "```json" and then at its first "```". */
  lemma PrefixCut(rest: string, j: nat, piece: string)
    requires Find(rest, Fence) == Some(j)
    requires piece == Split(rest, JsonFence)[0]
    ensures var k := JsonCut(rest);
      Split(piece, Fence)[0] == rest[..if j + |Fence| <= k then j else k]
  {
    SplitHead(rest, JsonFence);
    SplitHead(piece, Fence);
    var k := JsonCut(rest);
    assert piece == rest[..k];
    var f := Find(piece, Fence);
    if f.Some? {
      assert piece[f.value..f.value + 3] == rest[f.value..f.value + 3];
      assert OccursAt(rest, Fence, f.value);
      assert j <= f.value;
    }
    if j + 3 <= k {
      assert OccursAt(piece, Fence, j) by {
        assert piece[j..j + 3] == rest[j..j + 3];
      }
      assert f.Some? && f.value == j;
    } else {
      assert f.None?;
    }
  }

  /** A bare "```" fence: the segment between the first and the second fence, which holds no fence. */
  lemma StripPlainFence(content: string)
    requires !Contains(content, JsonFence) && Contains(content, Fence)
    ensures var rest := content[Find(content, Fence).value + |Fence|..];
      StripFence(content) == (match Find(rest, Fence)
                              case None => rest
                              case Some(j) => rest[..j])
    ensures !Contains(StripFence(content), Fence)
  {
    var rest := content[Find(content, Fence).value + |Fence|..];
    SplitSecond(content, Fence);
    SplitHead(rest, Fence);
  }

  /** Without any fence the reply reaches `strip()` unchanged. */
  lemma StripNoFence(content: string)
    requires !Contains(content, Fence)
    ensures StripFence(content) == content
  {
    if Contains(content, JsonFence) {
      JsonFenceHasFence(content);
    }
  }

  /** The keyword cascade used when the reply is not JSON; it never answers `clarify`. */
  function FallbackIntent(questionLower: string): (i: Intent)
    ensures i == Diagnose <==> ContainsAny(questionLower, CausalWords)
    ensures i == Prescribe <==> !ContainsAny(questionLower, CausalWords) && ContainsAny(questionLower, ActionWords)
    ensures i == Describe <==> !ContainsAny(questionLower, CausalWords) && !ContainsAny(questionLower, ActionWords)
    ensures IsDeclared(i) && i != Clarify
  {
    if ContainsAny(questionLower, CausalWords) then Diagnose
    else if ContainsAny(questionLower, ActionWords) then Prescribe
    else if ContainsAny(questionLower, FactWords) then Describe
    else Describe
  }

  /** The entities the fallback installs. */
  const FallbackEntities: Json :=
    JObj(map["skus" := JArr([]), "date_range" := JStr("yesterday"), "metrics" := JArr([])])

  /**
   * The classify node. `reply` is the model's answer to the classification
   * prompt and `parse` is `json.loads` (`None` for a `JSONDecodeError`). A
   * decoded value that is not an object makes `result.get` raise, which the
   * node does not catch.
   */
  function ClassifyNode(s: AnalystState, reply: string, parse: string -> Option<Json>): (r: Result<AnalystState, Failure>)
    ensures r.Ok? ==> r.value == s.(intent := r.value.intent, entities := r.value.entities)
    ensures r.Failed? <==> parse(Strip(StripFence(reply))).Some? && !parse(Strip(StripFence(reply))).value.JObj?
    ensures parse(Strip(StripFence(reply))).None? ==>
              r.Ok? && r.value.intent == FallbackIntent(Lower(s.question)) && r.value.entities == FallbackEntities
  {
    match parse(Strip(StripFence(reply)))
    case None =>
      Ok(s.(intent := FallbackIntent(Lower(s.question)), entities := FallbackEntities))
    case Some(result) =>
      if !result.JObj? then Failed(PayloadNotObject)
      else
        var intent := Get(result, "intent", JStr("describe")).value;
        var entities := Get(result, "entities", JObj(map[])).value;
        Ok(s.(intent := IntentFromJson(intent), entities := entities))
  }

  /** A parsed object: a missing intent reads as `describe`, missing entities as `{}`, and any other intent is kept unvalidated. */
  lemma ClassifyParsed(s: AnalystState, reply: string, parse: string -> Option<Json>, fields: map<string, Json>)
    requires parse(Strip(StripFence(reply))) == Some(JObj(fields))
    ensures var r := ClassifyNode(s, reply, parse);
      && r.Ok?
      && ("intent" !in fields ==> r.value.intent == Describe)
      && ("intent" in fields ==> r.value.intent == IntentFromJson(fields["intent"]))
      && ("entities" !in fields ==> r.value.entities == JObj(map[]))
      && ("entities" in fields ==> r.value.entities == fields["entities"])
  {
  }
}
