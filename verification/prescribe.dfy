/**
 * The prescribe node: four keyword groups appending recommendation tools to
 * the incoming `data_context`, a default when none of those tools is present,
 * and an emptied `recommendations` list.
 */
module Prescribe {
  import opened Text
  import opened State
  import opened Tools

  const AdviceWords := ["что делать", "как улучш", "рекоменд", "совет", "действ"]
  const SavingWords := ["оптимиз", "снизить", "сэконом", "убыточ", "дрр"]
  const GrowthWords := ["масштаб", "увелич", "рост", "больше", "скейл"]
  const TargetWords := ["план", "выполн", "kpi", "цел"]

  /** The recommendation tools, in the order the groups are checked. */
  const PrescriptiveTools := ["actionable_insights", "optimization_candidates", "scaling_candidates", "plan_recommendations"]

  function Actionable(tb: Toolbox): Entry {
    Invoke(tb, "actionable_insights", ActionableInsights)
  }

  function Optimization(tb: Toolbox): Entry {
    Invoke(tb, "optimization_candidates", OptimizationCandidates)
  }

  function Scaling(tb: Toolbox): Entry {
    Invoke(tb, "scaling_candidates", ScalingCandidates)
  }

  function PlanAdvice(tb: Toolbox): Entry {
    Invoke(tb, "plan_recommendations", PlanRecommendations)
  }

  /** What the four keyword groups append, in order. */
  function KeywordEntries(question: string, tb: Toolbox): seq<Entry> {
    (if ContainsAny(question, AdviceWords) then [Actionable(tb)] else [])
      + (if ContainsAny(question, SavingWords) then [Optimization(tb)] else [])
      + (if ContainsAny(question, GrowthWords) then [Scaling(tb)] else [])
      + (if ContainsAny(question, TargetWords) then [PlanAdvice(tb)] else [])
  }

  /** The final scan: some entry is one of the recommendation tools. */
  predicate HasPrescription(ctx: seq<Entry>) {
    exists i :: 0 <= i < |ctx| && ctx[i].tool in PrescriptiveTools
  }

  /** Everything the node appends to `incoming`, the default included. */
  function PrescribeAdded(question: string, incoming: seq<Entry>, tb: Toolbox): seq<Entry> {
    var a := KeywordEntries(question, tb);
    if HasPrescription(incoming + a) then a else a + [Actionable(tb)]
  }

  /** The prescribe node: the extended context and empty `recommendations`; nothing else changes. */
  function PrescribeNode(s: AnalystState, tb: Toolbox): AnalystState {
    s.(dataContext := s.dataContext + PrescribeAdded(Lower(s.question), s.dataContext, tb),
       recommendations := [])
  }

  lemma PrescriptiveToolsInOrder()
    ensures ["actionable_insights"] + ["optimization_candidates"] + ["scaling_candidates"] + ["plan_recommendations"] == PrescriptiveTools
  {
  }

  /** The keyword entries follow the groups' order, each group at most once. */
  lemma KeywordEntriesInOrder(question: string, tb: Toolbox)
    ensures IsSubseq(ToolNames(KeywordEntries(question, tb)), PrescriptiveTools)
  {
    var c1 := if ContainsAny(question, AdviceWords) then [Actionable(tb)] else [];
    var c2 := if ContainsAny(question, SavingWords) then [Optimization(tb)] else [];
    var c3 := if ContainsAny(question, GrowthWords) then [Scaling(tb)] else [];
    var c4 := if ContainsAny(question, TargetWords) then [PlanAdvice(tb)] else [];
    var k2 := c1 + c2;
    var k3 := k2 + c3;
    var o1 := ["actionable_insights"];
    var o2 := o1 + ["optimization_candidates"];
    var o3 := o2 + ["scaling_candidates"];
    SubseqEmpty<string>([]);
    NamesInOrderStep([], c1, [], o1);
    assert [] + c1 == c1 && [] + o1 == o1;
    NamesInOrderStep(c1, c2, o1, ["optimization_candidates"]);
    NamesInOrderStep(k2, c3, o2, ["scaling_candidates"]);
    NamesInOrderStep(k3, c4, o3, ["plan_recommendations"]);
    PrescriptiveToolsInOrder();
    assert k3 + c4 == KeywordEntries(question, tb);
  }

  /** Every keyword entry is a recommendation tool, and there are at most four. */
  lemma KeywordEntriesPrescriptive(question: string, tb: Toolbox)
    ensures forall j :: 0 <= j < |KeywordEntries(question, tb)| ==> KeywordEntries(question, tb)[j].tool in PrescriptiveTools
    ensures |KeywordEntries(question, tb)| <= 4
  {
    var ks := KeywordEntries(question, tb);
    KeywordEntriesInOrder(question, tb);
    SubseqMembers(ToolNames(ks), PrescriptiveTools);
    forall j | 0 <= j < |ks|
      ensures ks[j].tool in PrescriptiveTools
    {
      assert ToolNames(ks)[j] in ToolNames(ks);
    }
  }

  /** Each recommendation tool is appended exactly when a word of its group occurs. */
  lemma KeywordGroupsFire(question: string, tb: Toolbox)
    ensures var names := ToolNames(KeywordEntries(question, tb));
      && ("actionable_insights" in names <==> ContainsAny(question, AdviceWords))
      && ("optimization_candidates" in names <==> ContainsAny(question, SavingWords))
      && ("scaling_candidates" in names <==> ContainsAny(question, GrowthWords))
      && ("plan_recommendations" in names <==> ContainsAny(question, TargetWords))
  {
    var c1 := if ContainsAny(question, AdviceWords) then [Actionable(tb)] else [];
    var c2 := if ContainsAny(question, SavingWords) then [Optimization(tb)] else [];
    var c3 := if ContainsAny(question, GrowthWords) then [Scaling(tb)] else [];
    var c4 := if ContainsAny(question, TargetWords) then [PlanAdvice(tb)] else [];
    OptionalName(ContainsAny(question, AdviceWords), Actionable(tb));
    OptionalName(ContainsAny(question, SavingWords), Optimization(tb));
    OptionalName(ContainsAny(question, GrowthWords), Scaling(tb));
    OptionalName(ContainsAny(question, TargetWords), PlanAdvice(tb));
    ToolNamesAppend(c1, c2);
    ToolNamesAppend(c1 + c2, c3);
    ToolNamesAppend(c1 + c2 + c3, c4);
    assert KeywordEntries(question, tb) == c1 + c2 + c3 + c4;
    var n1, n2, n3, n4 := ToolNames(c1), ToolNames(c2), ToolNames(c3), ToolNames(c4);
    InFour("actionable_insights", n1, n2, n3, n4);
    InFour("optimization_candidates", n1, n2, n3, n4);
    InFour("scaling_candidates", n1, n2, n3, n4);
    InFour("plan_recommendations", n1, n2, n3, n4);
  }

  lemma InFour(x: string, a: seq<string>, b: seq<string>, c: seq<string>, d: seq<string>)
    ensures x in a + b + c + d <==> x in a || x in b || x in c || x in d
  {
  }

  /** Appending recommendation tools, when there are any, leaves one in the context. */
  lemma AppendedPrescription(incoming: seq<Entry>, a: seq<Entry>)
    requires forall j :: 0 <= j < |a| ==> a[j].tool in PrescriptiveTools
    ensures a != [] ==> HasPrescription(incoming + a)
  {
    if a != [] {
      assert (incoming + a)[|incoming|] == a[0];
    }
  }

  /**
   * The context keeps the incoming one as a prefix and afterwards holds a
   * recommendation tool; the names appended follow the groups' order; when no
   * recommendation tool was present on entry, one to four entries are appended.
   * The keyword entries always come first, and `actionable_insights` follows
   * them exactly when the context still lacks a recommendation tool; with no
   * group word and no recommendation tool on entry, that default is all.
   */
  lemma PrescribeGuarantee(question: string, incoming: seq<Entry>, tb: Toolbox)
    ensures var added := PrescribeAdded(question, incoming, tb);
      var kw := KeywordEntries(question, tb);
      && HasPrescription(incoming + added)
      && IsSubseq(ToolNames(added), PrescriptiveTools)
      && |added| <= 4
      && (!HasPrescription(incoming) ==> 1 <= |added|)
      && (HasPrescription(incoming + kw) ==> added == kw)
      && (!HasPrescription(incoming + kw) ==> added == kw + [Actionable(tb)])
      && ((!HasPrescription(incoming) && !ContainsAny(question, AdviceWords) && !ContainsAny(question, SavingWords)
           && !ContainsAny(question, GrowthWords) && !ContainsAny(question, TargetWords)) ==> added == [Actionable(tb)])
  {
    var a := KeywordEntries(question, tb);
    KeywordEntriesInOrder(question, tb);
    KeywordEntriesPrescriptive(question, tb);
    AppendedPrescription(incoming, a);
    if !HasPrescription(incoming + a) {
      var added := a + [Actionable(tb)];
      assert added == [Actionable(tb)];
      assert (incoming + added)[|incoming|].tool == PrescriptiveTools[0];
      assert ToolNames(added) == PrescriptiveTools[..1];
      SubseqPrefix(PrescriptiveTools, 1);
    } else if !HasPrescription(incoming) {
      var i :| 0 <= i < |incoming + a| && (incoming + a)[i].tool in PrescriptiveTools;
      assert |incoming| <= i;
    }
  }

  /** The prescribe node keeps the incoming context as a prefix, empties `recommendations`, and changes nothing else. */
  lemma PrescribeNodeFrame(s: AnalystState, tb: Toolbox)
    ensures var r := PrescribeNode(s, tb);
      && r.dataContext[..|s.dataContext|] == s.dataContext
      && HasPrescription(r.dataContext)
      && r.recommendations == []
      && r == s.(dataContext := r.dataContext, recommendations := [])
  {
    PrescribeGuarantee(Lower(s.question), s.dataContext, tb);
    var r := PrescribeNode(s, tb);
    assert r.dataContext[..|s.dataContext|] == s.dataContext;
  }

  /** The four keyword `if`s, each appending one entry or nothing, append `KeywordEntries`. */
  lemma KeywordSteps(d0: seq<Entry>, d1: seq<Entry>, d2: seq<Entry>, d3: seq<Entry>, d4: seq<Entry>,
                     question: string, tb: Toolbox)
    requires d1 == if ContainsAny(question, AdviceWords) then d0 + [Actionable(tb)] else d0
    requires d2 == if ContainsAny(question, SavingWords) then d1 + [Optimization(tb)] else d1
    requires d3 == if ContainsAny(question, GrowthWords) then d2 + [Scaling(tb)] else d2
    requires d4 == if ContainsAny(question, TargetWords) then d3 + [PlanAdvice(tb)] else d3
    ensures d4 == d0 + KeywordEntries(question, tb)
  {
  }

  /** The node as the source runs it, appending to a copy of the incoming context. */
  method Prescribe(s: AnalystState, tb: Toolbox) returns (r: AnalystState)
    ensures r == PrescribeNode(s, tb)
  {
    var question := Lower(s.question);
    var dataContext := s.dataContext;
    var recommendations: seq<Recommendation> := [];
    ghost var d0 := dataContext;
    if ContainsAny(question, AdviceWords) {
      dataContext := dataContext + [Actionable(tb)];
    }
    ghost var d1 := dataContext;
    if ContainsAny(question, SavingWords) {
      dataContext := dataContext + [Optimization(tb)];
    }
    ghost var d2 := dataContext;
    if ContainsAny(question, GrowthWords) {
      dataContext := dataContext + [Scaling(tb)];
    }
    ghost var d3 := dataContext;
    if ContainsAny(question, TargetWords) {
      dataContext := dataContext + [PlanAdvice(tb)];
    }
    KeywordSteps(d0, d1, d2, d3, dataContext, question, tb);
    if !HasPrescription(dataContext) {
      dataContext := dataContext + [Actionable(tb)];
    }
    return s.(dataContext := dataContext, recommendations := recommendations);
  }
}
