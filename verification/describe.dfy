/**
 * The describe node: resolves the date token, then walks an ordered set of
 * keyword groups over the lower-cased question, appending one or two tool
 * entries per matched group, with a two-entry default when nothing matched.
 */
module Describe {
  import opened Wrappers
  import opened Text
  import opened State
  import opened Tools

  /**
   * `get_date_from_range`, with today's date as a day number. The three tokens
   * are resolved (`last_week` included), any other string holding a "-" is
   * passed through, and everything else means yesterday.
   */
  function ResolveDate(range: Json, today: int): DateArg {
    if range == JStr("today") then OnDay(today)
    else if range == JStr("yesterday") then OnDay(today - 1)
    else if range == JStr("last_week") then OnDay(today - 7)
    else if range.JStr? && Contains(range.s, "-") then AsGiven(range.s)
    else OnDay(today - 1)
  }

  /**
   * A resolved date is a day of the past week or a dashed string taken
   * verbatim from the entities: each token names its own day, any other
   * dashed string passes through, and anything else means yesterday.
   */
  lemma ResolveDateRange(range: Json, today: int)
    ensures var d := ResolveDate(range, today);
      && (d.OnDay? ==> today - 7 <= d.day <= today)
      && (d.AsGiven? ==> range == JStr(d.text) && Contains(d.text, "-"))
      && (d == OnDay(today - 7) <==> range == JStr("last_week"))
      && (d == OnDay(today) <==> range == JStr("today"))
      && (range == JStr("yesterday") ==> d == OnDay(today - 1))
      && (range.JStr? && range.s !in {"today", "yesterday", "last_week"} && Contains(range.s, "-") ==> d == AsGiven(range.s))
      && (range.JStr? && range.s !in {"today", "yesterday", "last_week"} && !Contains(range.s, "-") ==> d == OnDay(today - 1))
      && (!range.JStr? ==> d == OnDay(today - 1))
  {
  }

  const MarginWords := ["маржа", "прибыль", "финрез", "финансов"]
  const PlanWords := ["план", "выполнен", "факт", "kpi"]
  const TopWords := ["топ", "лучш", "лидер"]
  const BottomWords := ["убыточ", "худш", "минус", "отрицат", "проблем"]
  const FunnelWords := ["воронк", "конверс", "просмотр", "заказ", "выкуп"]
  const StockWords := ["остат", "сток", "склад", "наличи"]
  const AdsWords := ["реклам", "drr", "дрр", "кампани", "ставк"]
  const TrendWords := ["динамик", "тренд", "неделя", "дней", "измен"]
  const LaggingWords := ["отстающ", "отставан", "недовыполн"]

  /** The keyword groups. */
  datatype Group = Margin | Plan | Top | Bottom | Funnel | Stock | Ads | Trend | Lagging

  /** The order in which the node checks the groups. */
  const GroupOrder := [Margin, Plan, Top, Bottom, Funnel, Stock, Ads, Trend, Lagging]

  function Words(g: Group): seq<string> {
    match g
    case Margin => MarginWords
    case Plan => PlanWords
    case Top => TopWords
    case Bottom => BottomWords
    case Funnel => FunnelWords
    case Stock => StockWords
    case Ads => AdsWords
    case Trend => TrendWords
    case Lagging => LaggingWords
  }

  /** The entries a matched group appends, in order; the plan and ads groups append two each. */
  function GroupEntries(g: Group, date: DateArg, tb: Toolbox): seq<Entry> {
    match g
    case Margin => [Invoke(tb, "margin_summary", MarginSummary(date))]
    case Plan => [Invoke(tb, "plan_fact", PlanFactSummary), Invoke(tb, "plan_forecast", PlanForecast)]
    case Top => [Invoke(tb, "top_margin_sku", TopMarginSku(date, 10))]
    case Bottom => [Invoke(tb, "bottom_margin_sku", BottomMarginSku(date, 10))]
    case Funnel => [Invoke(tb, "funnel_summary", FunnelSummary(date))]
    case Stock => [Invoke(tb, "stock_summary", StockSummary(date))]
    case Ads => [Invoke(tb, "ads_summary", AdsSummary(date)), Invoke(tb, "high_drr_campaigns", HighDrrCampaigns(date, 15))]
    case Trend => [Invoke(tb, "margin_trend", MarginTrend(7))]
    case Lagging => [Invoke(tb, "underperforming_sku", UnderperformingSku(80))]
  }

  /** The tool names of all groups, in checking order. */
  const DescribeOrder := ["margin_summary", "plan_fact", "plan_forecast", "top_margin_sku",
                          "bottom_margin_sku", "funnel_summary", "stock_summary", "ads_summary",
                          "high_drr_campaigns", "margin_trend", "underperforming_sku"]

  /** Whether the question mentions a word of the group. */
  predicate Mentions(question: string, g: Group) {
    ContainsAny(question, Words(g))
  }

  /** What one group contributes. */
  function Fire(g: Group, question: string, date: DateArg, tb: Toolbox): seq<Entry> {
    if Mentions(question, g) then GroupEntries(g, date, tb) else []
  }

  /** The contributions of the first `n` groups, in checking order. */
  function Matched(n: nat, question: string, date: DateArg, tb: Toolbox): seq<Entry>
    requires n <= |GroupOrder|
  {
    if n == 0 then [] else Matched(n - 1, question, date, tb) + Fire(GroupOrder[n - 1], question, date, tb)
  }

  /** The tool names a matched group appends. */
  function GroupNames(g: Group): seq<string> {
    match g
    case Margin => ["margin_summary"]
    case Plan => ["plan_fact", "plan_forecast"]
    case Top => ["top_margin_sku"]
    case Bottom => ["bottom_margin_sku"]
    case Funnel => ["funnel_summary"]
    case Stock => ["stock_summary"]
    case Ads => ["ads_summary", "high_drr_campaigns"]
    case Trend => ["margin_trend"]
    case Lagging => ["underperforming_sku"]
  }

  lemma GroupEntriesNamed(g: Group, date: DateArg, tb: Toolbox)
    ensures ToolNames(GroupEntries(g, date, tb)) == GroupNames(g)
  {
    match g
    case Margin =>
    case Plan =>
    case Top =>
    case Bottom =>
    case Funnel =>
    case Stock =>
    case Ads =>
    case Trend =>
    case Lagging =>
  }

  /** The names of all entries the first `n` groups could contribute. */
  function OrderPrefix(n: nat): seq<string>
    requires n <= |GroupOrder|
  {
    if n == 0 then [] else OrderPrefix(n - 1) + GroupNames(GroupOrder[n - 1])
  }

  /** The default when no group matched. */
  function Fallback(date: DateArg, tb: Toolbox): seq<Entry> {
    [Invoke(tb, "margin_summary", MarginSummary(date)), Invoke(tb, "plan_fact", PlanFactSummary)]
  }

  /** The entries the describe node produces. */
  function DescribeEntries(question: string, date: DateArg, tb: Toolbox): seq<Entry> {
    var m := Matched(|GroupOrder|, question, date, tb);
    if m == [] then Fallback(date, tb) else m
  }

  /** The describe node: a fresh `data_context`, empty `insights`, every other field untouched. */
  function DescribeNode(s: AnalystState, tb: Toolbox, today: int): (r: Result<AnalystState, Failure>)
    ensures r.Failed? <==> !s.entities.JObj?
  {
    match Get(s.entities, "date_range", JStr("yesterday"))
    case None => Failed(EntitiesNotObject)
    case Some(range) =>
      Ok(s.(dataContext := DescribeEntries(Lower(s.question), ResolveDate(range, today), tb),
            insights := []))
  }

  /** The names the whole table could contribute are the fixed describe order. */
  lemma OrderPrefixIsDescribeOrder()
    ensures OrderPrefix(|GroupOrder|) == DescribeOrder
  {
    var p1 := ["margin_summary"];
    var p2 := p1 + ["plan_fact", "plan_forecast"];
    var p3 := p2 + ["top_margin_sku"];
    var p4 := p3 + ["bottom_margin_sku"];
    var p5 := p4 + ["funnel_summary"];
    var p6 := p5 + ["stock_summary"];
    var p7 := p6 + ["ads_summary", "high_drr_campaigns"];
    var p8 := p7 + ["margin_trend"];
    var p9 := p8 + ["underperforming_sku"];
    assert OrderPrefix(1) == p1;
    assert OrderPrefix(2) == p2;
    assert OrderPrefix(3) == p3;
    assert OrderPrefix(4) == p4;
    assert OrderPrefix(5) == p5;
    assert OrderPrefix(6) == p6;
    assert OrderPrefix(7) == p7;
    assert OrderPrefix(8) == p8;
    assert OrderPrefix(9) == p9;
    DescribeOrderSpelled();
  }

  lemma DescribeOrderSpelled()
    ensures ["margin_summary"] + ["plan_fact", "plan_forecast"] + ["top_margin_sku"] + ["bottom_margin_sku"]
            + ["funnel_summary"] + ["stock_summary"] + ["ads_summary", "high_drr_campaigns"] + ["margin_trend"]
            + ["underperforming_sku"] == DescribeOrder
  {
  }

  /** The first `n` groups append their entries in table order. */
  lemma {:induction false} MatchedInOrder(n: nat, question: string, date: DateArg, tb: Toolbox)
    requires n <= |GroupOrder|
    ensures IsSubseq(ToolNames(Matched(n, question, date, tb)), OrderPrefix(n))
  {
    if n == 0 {
      SubseqEmpty(OrderPrefix(0));
    } else {
      MatchedInOrder(n - 1, question, date, tb);
      var g := GroupOrder[n - 1];
      GroupEntriesNamed(g, date, tb);
      NamesInOrderStep(Matched(n - 1, question, date, tb), Fire(g, question, date, tb), OrderPrefix(n - 1), GroupNames(g));
    }
  }

  /** The first `n` groups append nothing exactly when the question mentions none of them. */
  lemma {:induction false} MatchedEmpty(n: nat, question: string, date: DateArg, tb: Toolbox)
    requires n <= |GroupOrder|
    ensures Matched(n, question, date, tb) == [] <==> forall i :: 0 <= i < n ==> !Mentions(question, GroupOrder[i])
  {
    if n > 0 {
      MatchedEmpty(n - 1, question, date, tb);
      assert GroupEntries(GroupOrder[n - 1], date, tb) != [];
    }
  }

  /**
   * The describe entries are never empty, follow the fixed tool order, and are the
   * default pair exactly when the question mentions no group.
   */
  lemma DescribeEntriesShape(question: string, date: DateArg, tb: Toolbox)
    ensures var e := DescribeEntries(question, date, tb);
      && e != []
      && IsSubseq(ToolNames(e), DescribeOrder)
      && ((forall g :: !Mentions(question, g)) ==> e == Fallback(date, tb))
      && ((exists g :: Mentions(question, g)) ==> e == Matched(|GroupOrder|, question, date, tb))
  {
    MatchedInOrder(|GroupOrder|, question, date, tb);
    MatchedEmpty(|GroupOrder|, question, date, tb);
    OrderPrefixIsDescribeOrder();
    var e := DescribeEntries(question, date, tb);
    if Matched(|GroupOrder|, question, date, tb) == [] {
      assert ToolNames(e) == DescribeOrder[..2];
      SubseqPrefix(DescribeOrder, 2);
      forall g ensures !Mentions(question, g) {
        assert g == GroupOrder[GroupIndex(g)];
      }
    } else {
      var i :| 0 <= i < |GroupOrder| && Mentions(question, GroupOrder[i]);
    }
  }

  /** Where a group sits in the checking order. */
  function GroupIndex(g: Group): (i: nat)
    ensures i < |GroupOrder| && GroupOrder[i] == g
  {
    match g
    case Margin => 0 case Plan => 1 case Top => 2 case Bottom => 3 case Funnel => 4
    case Stock => 5 case Ads => 6 case Trend => 7 case Lagging => 8
  }

  /** A node that does not raise leaves a non-empty context and empty insights, and touches nothing else. */
  lemma DescribeGuarantee(s: AnalystState, tb: Toolbox, today: int)
    ensures var r := DescribeNode(s, tb, today);
      r.Ok? ==>
        && r.value.dataContext != []
        && IsSubseq(ToolNames(r.value.dataContext), DescribeOrder)
        && r.value == s.(dataContext := r.value.dataContext, insights := [])
  {
    if s.entities.JObj? {
      var range := Get(s.entities, "date_range", JStr("yesterday")).value;
      DescribeEntriesShape(Lower(s.question), ResolveDate(range, today), tb);
    }
  }

  /** The table's contributions, group by group, nested the way the method below builds them. */
  lemma MatchedUnrolled(question: string, date: DateArg, tb: Toolbox)
    ensures Matched(|GroupOrder|, question, date, tb)
      == [] + Fire(Margin, question, date, tb) + Fire(Plan, question, date, tb) + Fire(Top, question, date, tb)
         + Fire(Bottom, question, date, tb) + Fire(Funnel, question, date, tb) + Fire(Stock, question, date, tb)
         + Fire(Ads, question, date, tb) + Fire(Trend, question, date, tb) + Fire(Lagging, question, date, tb)
  {
    assert Matched(1, question, date, tb) == [] + Fire(Margin, question, date, tb);
    assert Matched(2, question, date, tb) == Matched(1, question, date, tb) + Fire(Plan, question, date, tb);
    assert Matched(3, question, date, tb) == Matched(2, question, date, tb) + Fire(Top, question, date, tb);
    assert Matched(4, question, date, tb) == Matched(3, question, date, tb) + Fire(Bottom, question, date, tb);
    assert Matched(5, question, date, tb) == Matched(4, question, date, tb) + Fire(Funnel, question, date, tb);
    assert Matched(6, question, date, tb) == Matched(5, question, date, tb) + Fire(Stock, question, date, tb);
    assert Matched(7, question, date, tb) == Matched(6, question, date, tb) + Fire(Ads, question, date, tb);
    assert Matched(8, question, date, tb) == Matched(7, question, date, tb) + Fire(Trend, question, date, tb);
  }

  /** One keyword group of the node: when the question mentions a word of the group, append the group's entries. */
  method ApplyGroup(dataContext: seq<Entry>, question: string, g: Group, date: DateArg, tb: Toolbox)
    returns (after: seq<Entry>)
    ensures after == dataContext + Fire(g, question, date, tb)
  {
    after := dataContext;
    if ContainsAny(question, Words(g)) {
      after := after + GroupEntries(g, date, tb);
    }
  }

  /** The node as the source runs it: the groups in order, appending to a local list, then the default. */
  method Describe(s: AnalystState, tb: Toolbox, today: int) returns (r: Result<AnalystState, Failure>)
    ensures r == DescribeNode(s, tb, today)
  {
    var question := Lower(s.question);
    var range := Get(s.entities, "date_range", JStr("yesterday"));
    if range.None? {
      return Failed(EntitiesNotObject);
    }
    var date := ResolveDate(range.value, today);
    var dataContext: seq<Entry> := [];
    var insights: seq<string> := [];
    dataContext := ApplyGroup(dataContext, question, Margin, date, tb);
    dataContext := ApplyGroup(dataContext, question, Plan, date, tb);
    dataContext := ApplyGroup(dataContext, question, Top, date, tb);
    dataContext := ApplyGroup(dataContext, question, Bottom, date, tb);
    dataContext := ApplyGroup(dataContext, question, Funnel, date, tb);
    dataContext := ApplyGroup(dataContext, question, Stock, date, tb);
    dataContext := ApplyGroup(dataContext, question, Ads, date, tb);
    dataContext := ApplyGroup(dataContext, question, Trend, date, tb);
    dataContext := ApplyGroup(dataContext, question, Lagging, date, tb);
    MatchedUnrolled(question, date, tb);
    assert dataContext == Matched(|GroupOrder|, question, date, tb);
    if dataContext == [] {
      dataContext := dataContext + [Invoke(tb, "margin_summary", MarginSummary(date))];
      dataContext := dataContext + [Invoke(tb, "plan_fact", PlanFactSummary)];
    }
    assert dataContext == DescribeEntries(question, date, tb);
    return Ok(s.(dataContext := dataContext, insights := insights));
  }
}
