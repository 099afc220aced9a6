/**
 * The synthesize node: the collected context, insights and recommendations
 * are rendered into the three prompt fragments, and the language model's
 * answer becomes `response`. The model itself is a parameter.
 */
module Synthesize {
  import opened Text
  import opened State

  const NoInsights := "Нет дополнительных инсайтов"
  const NoRecommendations := "Нет рекомендаций"

  /** The language model, seen through the four values the prompt is filled with. */
  type Llm = (string, string, string, string) -> string

  /** One context entry as it appears in the data fragment. */
  function Block(e: Entry): (b: string)
    ensures StartsWith(b, "\n### " + e.tool + ":\n")
    ensures |b| == |e.tool| + |e.result| + 8
    ensures b[|b| - 1] == '\n'
  {
    var head := "\n### " + e.tool + ":\n";
    assert (head + e.result + "\n")[..|head|] == head;
    head + e.result + "\n"
  }

  /** The data fragment: the blocks of all entries, in order. */
  function RenderData(ctx: seq<Entry>): string
    decreases |ctx|
  {
    if ctx == [] then "" else RenderData(ctx[..|ctx| - 1]) + Block(ctx[|ctx| - 1])
  }

  /** Rendering distributes over concatenation of contexts. */
  lemma {:induction false} RenderDataAppend(a: seq<Entry>, b: seq<Entry>)
    ensures RenderData(a + b) == RenderData(a) + RenderData(b)
    decreases |b|
  {
    if b == [] {
      assert a + b == a;
    } else {
      var b' := b[..|b| - 1];
      var last := Block(b[|b| - 1]);
      RenderDataAppend(a, b');
      assert (a + b)[..|a + b| - 1] == a + b';
      assert (a + b)[|a + b| - 1] == b[|b| - 1];
      calc {
        RenderData(a + b);
        RenderData(a + b') + last;
        (RenderData(a) + RenderData(b')) + last;
        RenderData(a) + (RenderData(b') + last);
        RenderData(a) + RenderData(b);
      }
    }
  }

  /** The data fragment is empty exactly when the context is, and entry `i`'s block starts where the earlier ones end. */
  lemma {:induction false} RenderDataShape(ctx: seq<Entry>, i: nat)
    requires i < |ctx|
    ensures RenderData(ctx) != ""
    ensures RenderData(ctx[..0]) == ""
    ensures var before := |RenderData(ctx[..i])|;
      && before + |Block(ctx[i])| <= |RenderData(ctx)|
      && RenderData(ctx)[before..before + |Block(ctx[i])|] == Block(ctx[i])
  {
    var before := RenderData(ctx[..i]);
    var b := Block(ctx[i]);
    var after := RenderData(ctx[i + 1..]);
    assert ctx == ctx[..i] + [ctx[i]] + ctx[i + 1..];
    RenderDataAppend(ctx[..i] + [ctx[i]], ctx[i + 1..]);
    RenderDataAppend(ctx[..i], [ctx[i]]);
    assert RenderData([ctx[i]]) == b by {
      assert [ctx[i]][..0] == [];
    }
    assert RenderData(ctx) == before + b + after;
    assert (before + b + after)[|before|..|before| + |b|] == b;
  }

  /** The `for item in data_context: data_str += ...` loop. */
  method DataBlock(ctx: seq<Entry>) returns (data: string)
    ensures data == RenderData(ctx)
  {
    data := "";
    for i := 0 to |ctx|
      invariant data == RenderData(ctx[..i])
    {
      assert ctx[..i + 1][..i] == ctx[..i];
      data := data + Block(ctx[i]);
    }
    assert ctx[..|ctx|] == ctx;
  }

  /** The insights fragment: the insights one per line, or the placeholder. */
  function InsightsText(insights: seq<string>): (text: string)
    ensures insights == [] ==> text == NoInsights
    ensures |insights| == 1 ==> text == insights[0]
  {
    if insights == [] then NoInsights else Join(insights, "\n")
  }

  /** The recommendations fragment: each recommendation's text one per line, or the placeholder. */
  function RecommendationsText(recs: seq<Recommendation>): (text: string)
    ensures recs == [] ==> text == NoRecommendations
    ensures |recs| == 1 ==> text == recs[0].text
  {
    if recs == [] then NoRecommendations
    else Join(seq(|recs|, i requires 0 <= i < |recs| => recs[i].text), "\n")
  }

  /** Insights without line breaks are recovered from their fragment by splitting on lines. */
  lemma InsightsRoundTrip(insights: seq<string>)
    requires insights != []
    requires forall i :: 0 <= i < |insights| ==> !Contains(insights[i], "\n")
    ensures Split(InsightsText(insights), "\n") == insights
  {
    SplitJoin(insights, "\n");
  }

  /** Recommendation texts without line breaks are recovered from their fragment by splitting on lines. */
  lemma RecommendationsRoundTrip(recs: seq<Recommendation>)
    requires recs != []
    requires forall i :: 0 <= i < |recs| ==> !Contains(recs[i].text, "\n")
    ensures |Split(RecommendationsText(recs), "\n")| == |recs|
    ensures forall i :: 0 <= i < |recs| ==> Split(RecommendationsText(recs), "\n")[i] == recs[i].text
  {
    var texts := seq(|recs|, i requires 0 <= i < |recs| => recs[i].text);
    SplitJoin(texts, "\n");
  }

  /** The node's result: the answer becomes `response`. */
  function SynthesizeNode(s: AnalystState, llm: Llm): AnalystState {
    s.(response := llm(s.question, RenderData(s.dataContext), InsightsText(s.insights),
                       RecommendationsText(s.recommendations)))
  }

  /**
   * Only `response` changes, and it depends on the state only through the
   * question and the three fragments.
   */
  lemma SynthesizeFrame(s: AnalystState, t: AnalystState, llm: Llm)
    ensures SynthesizeNode(s, llm).(response := s.response) == s
    ensures s.question == t.question && RenderData(s.dataContext) == RenderData(t.dataContext)
            && InsightsText(s.insights) == InsightsText(t.insights)
            && RecommendationsText(s.recommendations) == RecommendationsText(t.recommendations)
            ==> SynthesizeNode(s, llm).response == SynthesizeNode(t, llm).response
  {
  }

  /** The node as the source writes it, with the data fragment built by the loop. */
  method Synthesize(s: AnalystState, llm: Llm) returns (r: AnalystState)
    ensures r == SynthesizeNode(s, llm)
  {
    var dataStr := DataBlock(s.dataContext);
    var insightsStr := InsightsText(s.insights);
    var recommendationsStr := RecommendationsText(s.recommendations);
    var response := llm(s.question, dataStr, insightsStr, recommendationsStr);
    return s.(response := response);
  }
}
