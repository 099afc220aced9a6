/**
 * The diagnose node: per-SKU lookups for at most three SKUs, three keyword
 * groups, and a default analysis when the context holds no diagnostic entry.
 * Everything it adds is appended after the incoming `data_context`.
 */
module Diagnose {
  import opened Wrappers
  import opened Text
  import opened State
  import opened Tools

  const CausalWords := ["почему", "причин", "что случил", "что произошл"]
  const CompareWords := ["сравн", "неделя", "период", "было"]
  const AnomalyWords := ["аномал", "резк", "скачок", "провал", "выброс"]

  /** The tool-name prefixes that count as diagnostic. */
  const DiagnosticPrefixes := ["analyze", "compare", "find_anomalies", "diagnose_sku"]

  /** The margin-change analysis over the last 7 days. */
  function Analysis(tb: Toolbox): Entry {
    Invoke(tb, "analyze_margin_change", AnalyzeMarginChange(7))
  }

  /** The comparison of the two fixed periods. */
  function Comparison(tb: Toolbox): Entry {
    Invoke(tb, "compare_periods", ComparePeriods("2026-01-06", "2026-01-12", "2026-01-13", "2026-01-18"))
  }

  /** The anomaly search over the last 7 days. */
  function Anomalies(tb: Toolbox): Entry {
    Invoke(tb, "find_anomalies", FindMarginAnomalies(7))
  }

  /**
   * `skus[:3]` under `if skus:`. A list gives its first three items, a string its
   * first three characters, and a falsy value nothing; any other truthy value
   * cannot be sliced and the exception ends the run.
   */
  function FirstSkus(skus: Json): (r: Result<seq<Json>, Failure>)
    ensures r.Failed? <==> Truthy(skus) && !skus.JArr? && !skus.JStr?
    ensures r.Ok? ==> |r.value| <= 3
    ensures r.Ok? && skus.JStr? ==> |r.value| == |Take(skus.s, 3)|
    ensures r.Ok? && skus.JArr? ==> r.value == Take(skus.items, 3)
    ensures r.Ok? && skus.JStr? ==> forall i :: 0 <= i < |r.value| ==> r.value[i] == JStr([skus.s[i]])
  {
    if !Truthy(skus) then Ok([])
    else
      match skus
      case JArr(items) => Ok(Take(items, 3))
      case JStr(s) => Ok(Chars(Take(s, 3)))
      case _ => Failed(SkusNotSliceable)
  }

  /** Iterating over a string: its characters as one-character strings. */
  function Chars(s: string): (r: seq<Json>)
    ensures |r| == |s|
    ensures forall i :: 0 <= i < |s| ==> r[i] == JStr([s[i]])
  {
    if s == [] then [] else [JStr([s[0]])] + Chars(s[1..])
  }

  /**
   * `int(sku) if str(sku).isdigit() else None` inside the loop's `try`. A
   * string of Unicode decimal digits is read digit by digit; a digit that
   * `isdigit` admits but `int` refuses (a superscript, a circled digit) makes
   * `int` raise, which the `try` swallows, so that SKU gives no number either.
   */
  function SkuNumber(sku: Json): Option<nat> {
    match sku
    case JStr(s) => if IsDecimal(s) then Some(DecimalsValue(s)) else None
    case JNum(n) => if n >= 0 then Some(n) else None
    case _ => None
  }

  /** `SkuNumber` is `int` applied to the values whose `str()` is all decimal digits. */
  lemma SkuNumberOfText(sku: Json)
    ensures SkuNumber(sku).Some? <==> IsDecimal(PyStr(sku))
    ensures SkuNumber(sku).Some? ==> SkuNumber(sku).value == DecimalsValue(PyStr(sku))
  {
    match sku
    case JNull =>
      BelowArabicNotDecimal(PyStr(sku)[0]);
    case JBool(b) =>
      BelowArabicNotDecimal(PyStr(sku)[0]);
    case JNum(n) =>
      if n < 0 {
        BelowArabicNotDecimal(PyStr(sku)[0]);
      } else {
        AsciiDecimals(NatToString(n));
      }
    case JStr(_) =>
    case JArr(_) =>
      BelowArabicNotDecimal(PyStr(sku)[0]);
    case JObj(_) =>
      BelowArabicNotDecimal(PyStr(sku)[0]);
  }

  /** Arabic-Indic digits are read by value; a superscript or a letter gives no number. */
  lemma SkuNumberExamples()
    ensures SkuNumber(JStr("٣٤")) == Some(34)
    ensures SkuNumber(JStr("²")).None?
    ensures SkuNumber(JStr("12a")).None?
    ensures SkuNumber(JStr("")).None?
  {
    var arabic := "٣٤";
    assert arabic[0] as int == 0x0663 && arabic[1] as int == 0x0664;
    assert DecimalZeros[0] == 0x0030 && DecimalZeros[1..][0] == 0x0660;
    assert DecimalValue(arabic[0]) == DecimalIn(0x0663, DecimalZeros[1..]) == Some(3);
    assert DecimalValue(arabic[1]) == DecimalIn(0x0664, DecimalZeros[1..]) == Some(4);
    assert arabic[..1] == [arabic[0]] && arabic[..1][..0] == [];
    assert DecimalsValue(arabic[..1]) == 3;
    assert DecimalsValue(arabic) == 34;
    BelowArabicNotDecimal("²"[0]);
    BelowArabicNotDecimal("12a"[2]);
  }

  /** The entry one SKU contributes: a non-zero number whose lookup does not raise. */
  function SkuEntry(sku: Json, tb: Toolbox): seq<Entry> {
    match SkuNumber(sku)
    case Some(n) =>
      if n != 0 && !tb.raises(DiagnoseSku(n, 7)) then [Invoke(tb, "diagnose_sku", DiagnoseSku(n, 7))] else []
    case None => []
  }

  /** The entries of a batch of SKUs, in order. */
  function SkuEntries(batch: seq<Json>, tb: Toolbox): seq<Entry> {
    if batch == [] then [] else SkuEntries(batch[..|batch| - 1], tb) + SkuEntry(batch[|batch| - 1], tb)
  }

  /** `e` is the lookup of `sku`: a non-zero SKU number whose lookup did not raise. */
  predicate LookupOf(e: Entry, sku: Json, tb: Toolbox) {
    SkuNumber(sku).Some? && SkuNumber(sku).value != 0 && !tb.raises(DiagnoseSku(SkuNumber(sku).value, 7))
    && e == Invoke(tb, "diagnose_sku", DiagnoseSku(SkuNumber(sku).value, 7))
  }

  predicate LookedUp(e: Entry, batch: seq<Json>, tb: Toolbox) {
    exists i :: 0 <= i < |batch| && LookupOf(e, batch[i], tb)
  }

  /** Every SKU entry is a lookup of a non-zero SKU number of the batch that did not raise, one at most per SKU. */
  lemma {:induction false} SkuEntriesSound(batch: seq<Json>, tb: Toolbox)
    ensures |SkuEntries(batch, tb)| <= |batch|
    ensures forall e :: e in SkuEntries(batch, tb) ==> LookedUp(e, batch, tb)
  {
    if batch != [] {
      var init := batch[..|batch| - 1];
      SkuEntriesSound(init, tb);
      forall e | e in SkuEntries(batch, tb)
        ensures LookedUp(e, batch, tb)
      {
        if e in SkuEntries(init, tb) {
          var i :| 0 <= i < |init| && LookupOf(e, init[i], tb);
          assert batch[i] == init[i];
        } else {
          assert e in SkuEntry(batch[|batch| - 1], tb);
          assert LookupOf(e, batch[|batch| - 1], tb);
        }
      }
    }
  }

  /** A tool name that the node's final scan counts as diagnostic. */
  predicate IsDiagnostic(e: Entry) {
    exists p :: p in DiagnosticPrefixes && StartsWith(e.tool, p)
  }

  predicate HasDiagnostic(ctx: seq<Entry>) {
    exists i :: 0 <= i < |ctx| && IsDiagnostic(ctx[i])
  }

  lemma AnalysisIsDiagnostic(tb: Toolbox)
    ensures IsDiagnostic(Analysis(tb))
  {
    assert StartsWith(Analysis(tb).tool, DiagnosticPrefixes[0]);
  }

  /** What the three keyword groups append, in order. */
  function KeywordEntries(question: string, tb: Toolbox): seq<Entry> {
    (if ContainsAny(question, CausalWords) then [Analysis(tb)] else [])
      + (if ContainsAny(question, CompareWords) then [Comparison(tb)] else [])
      + (if ContainsAny(question, AnomalyWords) then [Anomalies(tb)] else [])
  }

  /** What the node appends before its final scan. */
  function Additions(question: string, batch: seq<Json>, tb: Toolbox): seq<Entry> {
    SkuEntries(batch, tb) + KeywordEntries(question, tb)
  }

  /** Everything the node appends to `incoming`, the default analysis included. */
  function DiagnoseAdded(question: string, incoming: seq<Entry>, batch: seq<Json>, tb: Toolbox): seq<Entry> {
    var a := Additions(question, batch, tb);
    if HasDiagnostic(incoming + a) then a else a + [Analysis(tb)]
  }

  /** The diagnose node; only `data_context` changes. */
  function DiagnoseNode(s: AnalystState, tb: Toolbox): (r: Result<AnalystState, Failure>)
    ensures r.Failed? <==> !s.entities.JObj? || FirstSkus(Get(s.entities, "skus", JArr([])).value).Failed?
  {
    match Get(s.entities, "skus", JArr([]))
    case None => Failed(EntitiesNotObject)
    case Some(skus) =>
      match FirstSkus(skus)
      case Failed(f) => Failed(f)
      case Ok(batch) =>
        Ok(s.(dataContext := s.dataContext + DiagnoseAdded(Lower(s.question), s.dataContext, batch, tb)))
  }

  /**
   * After the node the context starts with the incoming one, holds a diagnostic
   * entry, and every other field, `insights` included, is unchanged.
   */
  lemma DiagnoseGuarantee(s: AnalystState, tb: Toolbox)
    ensures var r := DiagnoseNode(s, tb);
      r.Ok? ==>
        && |s.dataContext| <= |r.value.dataContext|
        && r.value.dataContext[..|s.dataContext|] == s.dataContext
        && HasDiagnostic(r.value.dataContext)
        && r.value == s.(dataContext := r.value.dataContext)
  {
    var r := DiagnoseNode(s, tb);
    if r.Ok? {
      var batch := FirstSkus(Get(s.entities, "skus", JArr([])).value).value;
      var question := Lower(s.question);
      var a := Additions(question, batch, tb);
      var ctx := r.value.dataContext;
      assert ctx[..|s.dataContext|] == s.dataContext;
      if !HasDiagnostic(s.dataContext + a) {
        AnalysisIsDiagnostic(tb);
        assert ctx == s.dataContext + a + [Analysis(tb)];
        assert ctx[|ctx| - 1] == Analysis(tb);
      }
    }
  }

  /**
   * The SKU lookups and keyword entries always come first, and the general
   * analysis `analyze_margin_change(days_back=7)` follows them exactly when the
   * context still lacks a diagnostic entry; with no SKU entry, no group word and
   * no diagnostic entry on entry, that default is all.
   */
  lemma DiagnoseDefault(question: string, incoming: seq<Entry>, batch: seq<Json>, tb: Toolbox)
    ensures var added := DiagnoseAdded(question, incoming, batch, tb);
      var a := Additions(question, batch, tb);
      && (HasDiagnostic(incoming + a) ==> added == a)
      && (!HasDiagnostic(incoming + a) ==> added == a + [Analysis(tb)])
      && ((!HasDiagnostic(incoming) && SkuEntries(batch, tb) == [] && !ContainsAny(question, CausalWords)
           && !ContainsAny(question, CompareWords) && !ContainsAny(question, AnomalyWords)) ==> added == [Analysis(tb)])
  {
    var a := Additions(question, batch, tb);
    if SkuEntries(batch, tb) == [] && !ContainsAny(question, CausalWords)
      && !ContainsAny(question, CompareWords) && !ContainsAny(question, AnomalyWords) {
      assert a == [];
      assert incoming + a == incoming;
    }
  }

  /** Each keyword tool is appended exactly when a word of its group occurs. */
  lemma KeywordGroupsFire(question: string, tb: Toolbox)
    ensures var names := ToolNames(KeywordEntries(question, tb));
      && ("analyze_margin_change" in names <==> ContainsAny(question, CausalWords))
      && ("compare_periods" in names <==> ContainsAny(question, CompareWords))
      && ("find_anomalies" in names <==> ContainsAny(question, AnomalyWords))
  {
    var c1 := if ContainsAny(question, CausalWords) then [Analysis(tb)] else [];
    var c2 := if ContainsAny(question, CompareWords) then [Comparison(tb)] else [];
    var c3 := if ContainsAny(question, AnomalyWords) then [Anomalies(tb)] else [];
    OptionalName(ContainsAny(question, CausalWords), Analysis(tb));
    OptionalName(ContainsAny(question, CompareWords), Comparison(tb));
    OptionalName(ContainsAny(question, AnomalyWords), Anomalies(tb));
    ToolNamesAppend(c1, c2);
    ToolNamesAppend(c1 + c2, c3);
    assert KeywordEntries(question, tb) == c1 + c2 + c3;
  }

  lemma {:induction false} SkuEntriesNamed(batch: seq<Json>, tb: Toolbox)
    ensures forall j :: 0 <= j < |SkuEntries(batch, tb)| ==> SkuEntries(batch, tb)[j].tool == "diagnose_sku"
  {
    if batch != [] {
      SkuEntriesNamed(batch[..|batch| - 1], tb);
    }
  }

  /** The keyword groups append only the analysis, the comparison and the anomaly search, the analysis at most once. */
  lemma KeywordEntriesNamed(question: string, tb: Toolbox)
    ensures forall j :: 0 <= j < |KeywordEntries(question, tb)| ==>
      KeywordEntries(question, tb)[j].tool in {"analyze_margin_change", "compare_periods", "find_anomalies"}
    ensures forall j :: 1 <= j < |KeywordEntries(question, tb)| ==>
      KeywordEntries(question, tb)[j].tool != "analyze_margin_change"
    ensures |KeywordEntries(question, tb)| > 0 && KeywordEntries(question, tb)[0] == Analysis(tb)
      <==> ContainsAny(question, CausalWords)
  {
  }

  /** The node appends at most three SKU lookups. */
  lemma SkuLookupsAtMostThree(question: string, incoming: seq<Entry>, batch: seq<Json>, tb: Toolbox)
    requires |batch| <= 3
    ensures multiset(ToolNames(DiagnoseAdded(question, incoming, batch, tb)))["diagnose_sku"] <= 3
  {
    var sku := SkuEntries(batch, tb);
    SkuEntriesSound(batch, tb);
    SkuNamesCount(sku);
    var rest := KeywordEntries(question, tb) + (if HasDiagnostic(incoming + Additions(question, batch, tb)) then [] else [Analysis(tb)]);
    assert DiagnoseAdded(question, incoming, batch, tb) == sku + rest;
    ToolNamesAppend(sku, rest);
    KeywordEntriesNamed(question, tb);
    ToolNamesAppend(KeywordEntries(question, tb), rest[|KeywordEntries(question, tb)|..]);
    assert rest == KeywordEntries(question, tb) + rest[|KeywordEntries(question, tb)|..];
    assert "diagnose_sku" !in ToolNames(rest);
  }

  lemma {:induction false} SkuNamesCount(sku: seq<Entry>)
    ensures multiset(ToolNames(sku))["diagnose_sku"] <= |sku|
  {
    if sku != [] {
      SkuNamesCount(sku[..|sku| - 1]);
      ToolNamesAppend(sku[..|sku| - 1], [sku[|sku| - 1]]);
      assert sku[..|sku| - 1] + [sku[|sku| - 1]] == sku;
    }
  }

  /** When the causal words match, the context already holds a diagnostic entry and the default is skipped. */
  lemma CausalSkipsDefault(question: string, incoming: seq<Entry>, batch: seq<Json>, tb: Toolbox)
    requires ContainsAny(question, CausalWords)
    ensures DiagnoseAdded(question, incoming, batch, tb) == Additions(question, batch, tb)
  {
    var a := Additions(question, batch, tb);
    AnalysisIsDiagnostic(tb);
    assert (incoming + a)[|incoming| + |SkuEntries(batch, tb)|] == Analysis(tb);
  }

  /** A name that no entry carries is counted zero times. */
  lemma AbsentName(ctx: seq<Entry>, name: string)
    requires forall j :: 0 <= j < |ctx| ==> ctx[j].tool != name
    ensures multiset(ToolNames(ctx))[name] == 0
  {
    assert name !in ToolNames(ctx);
  }

  /** `analyze_margin_change` is appended at most once: the keyword rule and the default exclude each other. */
  lemma AnalysisAtMostOnce(question: string, incoming: seq<Entry>, batch: seq<Json>, tb: Toolbox)
    ensures multiset(ToolNames(DiagnoseAdded(question, incoming, batch, tb)))["analyze_margin_change"] <= 1
  {
    var a := Additions(question, batch, tb);
    AnalysisCountInAdditions(question, batch, tb);
    if ContainsAny(question, CausalWords) {
      CausalSkipsDefault(question, incoming, batch, tb);
    } else {
      ToolNamesAppend(a, [Analysis(tb)]);
    }
  }

  /** The SKU lookups and keyword entries name the analysis once when a causal word occurs, and never otherwise. */
  lemma AnalysisCountInAdditions(question: string, batch: seq<Json>, tb: Toolbox)
    ensures multiset(ToolNames(Additions(question, batch, tb)))["analyze_margin_change"]
      == if ContainsAny(question, CausalWords) then 1 else 0
  {
    var sku := SkuEntries(batch, tb);
    var kw := KeywordEntries(question, tb);
    SkuEntriesNamed(batch, tb);
    KeywordEntriesNamed(question, tb);
    AbsentName(sku, "analyze_margin_change");
    ToolNamesAppend(sku, kw);
    if ContainsAny(question, CausalWords) {
      AbsentName(kw[1..], "analyze_margin_change");
      ToolNamesAppend([kw[0]], kw[1..]);
      assert [kw[0]] + kw[1..] == kw;
    } else {
      AbsentName(kw, "analyze_margin_change");
    }
  }

  lemma AppendAssoc(a: seq<Entry>, b: seq<Entry>, c: seq<Entry>)
    ensures a + b + c == a + (b + c)
  {
  }

  /** The three keyword `if`s, each appending one entry or nothing, append `KeywordEntries`. */
  lemma KeywordSteps(d0: seq<Entry>, d1: seq<Entry>, d2: seq<Entry>, d3: seq<Entry>, question: string, tb: Toolbox)
    requires d1 == if ContainsAny(question, CausalWords) then d0 + [Analysis(tb)] else d0
    requires d2 == if ContainsAny(question, CompareWords) then d1 + [Comparison(tb)] else d1
    requires d3 == if ContainsAny(question, AnomalyWords) then d2 + [Anomalies(tb)] else d2
    ensures d3 == d0 + KeywordEntries(question, tb)
  {
  }

  /** The `for sku in skus[:3]` loop: look each SKU up and skip those that are not numbers, are zero, or raise. */
  method LookupSkus(dataContext: seq<Entry>, batch: seq<Json>, tb: Toolbox) returns (ctx: seq<Entry>)
    ensures ctx == dataContext + SkuEntries(batch, tb)
  {
    ctx := dataContext;
    for i := 0 to |batch|
      invariant ctx == dataContext + SkuEntries(batch[..i], tb)
    {
      var nmid := SkuNumber(batch[i]);
      if nmid.Some? && nmid.value != 0 {
        // a lookup that raises is skipped by the `except`
        if !tb.raises(DiagnoseSku(nmid.value, 7)) {
          ctx := ctx + [Invoke(tb, "diagnose_sku", DiagnoseSku(nmid.value, 7))];
        }
      }
      assert batch[..i + 1][..i] == batch[..i];
    }
    assert batch[..|batch|] == batch;
  }

  /** The node as the source runs it, appending to a copy of the incoming context. */
  method Diagnose(s: AnalystState, tb: Toolbox) returns (r: Result<AnalystState, Failure>)
    ensures r == DiagnoseNode(s, tb)
  {
    var question := Lower(s.question);
    var skus := Get(s.entities, "skus", JArr([]));
    if skus.None? {
      return Failed(EntitiesNotObject);
    }
    var dataContext := s.dataContext;
    var insights := s.insights;
    var batch: seq<Json> := [];
    if Truthy(skus.value) {
      var sliced := FirstSkus(skus.value);
      if sliced.Failed? {
        return Failed(sliced.error);
      }
      batch := sliced.value;
      dataContext := LookupSkus(dataContext, batch, tb);
    }
    assert FirstSkus(skus.value) == Ok(batch);
    assert dataContext == s.dataContext + SkuEntries(batch, tb);
    ghost var d0 := dataContext;
    if ContainsAny(question, CausalWords) {
      dataContext := dataContext + [Analysis(tb)];
    }
    ghost var d1 := dataContext;
    if ContainsAny(question, CompareWords) {
      dataContext := dataContext + [Comparison(tb)];
    }
    ghost var d2 := dataContext;
    if ContainsAny(question, AnomalyWords) {
      dataContext := dataContext + [Anomalies(tb)];
    }
    KeywordSteps(d0, d1, d2, dataContext, question, tb);
    AppendAssoc(s.dataContext, SkuEntries(batch, tb), KeywordEntries(question, tb));
    assert dataContext == s.dataContext + Additions(question, batch, tb);
    if !HasDiagnostic(dataContext) {
      dataContext := dataContext + [Analysis(tb)];
    }
    assert dataContext == s.dataContext + DiagnoseAdded(question, s.dataContext, batch, tb);
    return Ok(s.(dataContext := dataContext, insights := insights));
  }
}
