/**
 * The data tools the graph nodes invoke. Their bodies (database queries and
 * aggregation) are not part of this model: a `Toolbox` supplies, for every
 * call, the text the tool returns and whether it raises.
 */
module Tools {
  import opened State

  /** A date argument: a day number rendered as `YYYY-MM-DD`, or a string passed through as given. */
  datatype DateArg = OnDay(day: int) | AsGiven(text: string)

  /** A tool invocation together with its arguments. */
  datatype ToolCall =
    // wb_margin / wb_plan / wb_funnel / ads, used by the describe node
    | MarginSummary(date: DateArg)
    | PlanFactSummary
    | PlanForecast
    | TopMarginSku(date: DateArg, n: int)
    | BottomMarginSku(date: DateArg, n: int)
    | FunnelSummary(date: DateArg)
    | StockSummary(date: DateArg)
    | AdsSummary(date: DateArg)
    | HighDrrCampaigns(date: DateArg, threshold: int)
    | MarginTrend(days: int)
    | UnderperformingSku(threshold: int)
    // wb_diagnostics, used by the diagnose node
    | DiagnoseSku(nmid: int, days: int)
    | AnalyzeMarginChange(daysBack: int)
    | ComparePeriods(period1Start: string, period1End: string, period2Start: string, period2End: string)
    | FindMarginAnomalies(days: int)
    // wb_recommendations, used by the prescribe node
    | ActionableInsights
    | OptimizationCandidates
    | ScalingCandidates
    | PlanRecommendations

  /** What each tool returns for each call, and which calls raise. */
  datatype Toolbox = Toolbox(run: ToolCall -> string, raises: ToolCall -> bool)

  /** `{"tool": name, "result": tool.invoke(args)}`. */
  function Invoke(tb: Toolbox, name: string, call: ToolCall): (e: Entry)
    ensures e.tool == name
  {
    Entry(name, tb.run(call))
  }
}
