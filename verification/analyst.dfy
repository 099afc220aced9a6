/**
 * The session facade: `ask` runs the graph on a fresh state and records the
 * turn in the conversation memory; `report_error` classifies a complaint and
 * builds the feedback row for the last turn.
 */
module Analyst {
  import opened Wrappers
  import opened Text
  import opened State
  import Graph
  import Conversation
  import Feedback

  const NoPreviousQuestion := "Нет предыдущего вопроса для записи фидбека"
  const FullFeedbackStored := "✅ Полный фидбек записан"

  const DataWords := ["цифр", "данн", "числ", "сумм"]
  const AdviceWords := ["рекоменд", "совет", "действ"]
  const CalculationWords := ["расчёт", "формул", "считает"]
  const MissingWords := ["нет", "не хватает", "добав"]

  /** The ordered complaint classifier over the lower-cased comment. */
  function CommentType(comment: string): (t: string)
    ensures t in Feedback.ValidTypes
    ensures t == "incorrect_data" <==> ContainsAny(comment, DataWords)
    ensures t == "wrong_recommendation" <==> !ContainsAny(comment, DataWords) && ContainsAny(comment, AdviceWords)
    ensures t == "wrong_calculation" <==>
              !ContainsAny(comment, DataWords) && !ContainsAny(comment, AdviceWords) && ContainsAny(comment, CalculationWords)
    ensures t == "missing_info" <==>
              !ContainsAny(comment, DataWords) && !ContainsAny(comment, AdviceWords)
              && !ContainsAny(comment, CalculationWords) && ContainsAny(comment, MissingWords)
  {
    if ContainsAny(comment, DataWords) then "incorrect_data"
    else if ContainsAny(comment, AdviceWords) then "wrong_recommendation"
    else if ContainsAny(comment, CalculationWords) then "wrong_calculation"
    else if ContainsAny(comment, MissingWords) then "missing_info"
    else "other"
  }

  /** The computed type is stored as it is: normalisation leaves it alone. */
  lemma CommentTypeIsStored(comment: string)
    ensures Feedback.NormaliseType(CommentType(comment)) == CommentType(comment)
  {
  }

  /** The state `ask` starts the graph with; the history digest is not part of it. */
  function InitialState(question: string, history: seq<Exchange>): (s: AnalystState)
    ensures s.question == question && s.intent == Describe && s.entities == JObj(map[])
    ensures s.dataContext == [] && s.insights == [] && s.recommendations == []
    ensures s.response == "" && s.conversationHistory == history
  {
    AnalystState(question, Describe, JObj(map[]), [], [], [], "", history)
  }

  /** The graph run `ask` makes for a question, given the history so far. */
  function Outcome(question: string, history: seq<Exchange>, env: Graph.Env): Result<AnalystState, Failure> {
    Graph.Run(InitialState(question, history), env, Graph.Overwrite)
  }

  /** The history after a turn: one exchange more when the run succeeds, the same history when it raises. */
  function Recorded(question: string, history: seq<Exchange>, run: Result<AnalystState, Failure>, now: string): (h: seq<Exchange>)
    ensures run.Failed? ==> h == history
    ensures run.Ok? ==> |h| == |history| + 1 && h[..|history|] == history
    ensures run.Ok? ==> h[|history|].question == question && h[|history|].response == run.value.response
    ensures run.Ok? ==> h[|history|].toolsUsed == ToolNames(run.value.dataContext)
  {
    if run.Failed? then history
    else history + [Exchange(question, run.value.response, run.value.intent, ToolNames(run.value.dataContext), now)]
  }

  /** `expected or ""`. */
  function ExpectedOrEmpty(expected: Option<string>): (e: string)
    ensures expected.Some? ==> e == expected.value
    ensures expected.None? ==> e == ""
  {
    if expected.Some? then expected.value else ""
  }

  class SeniorAnalyst {
    const memory: Conversation.ConversationMemory
    var lastResult: Option<AnalystState>

    ghost predicate Valid()
      reads this, memory
    {
      memory.Valid()
    }

    /** A new analyst with an empty memory under the given session id. */
    constructor(id: Option<string>, clockStamp: string)
      ensures Valid() && fresh(memory)
      ensures memory.history == [] && memory.lastQuestion == None
      ensures memory.sessionId == (if id.Some? && id.value != "" then id.value else clockStamp)
      ensures lastResult == None
    {
      memory := new Conversation.ConversationMemory(id, clockStamp);
      lastResult := None;
    }

    /**
     * `ask`: run the graph on the initial state and record exactly one turn,
     * whose tool list is the tool names of the final context in order. A run
     * that raises changes nothing.
     */
    method Ask(question: string, env: Graph.Env, now: string) returns (r: Result<string, Failure>)
      requires Valid()
      modifies this, memory
      ensures Valid()
      ensures var run := Outcome(question, old(memory.history), env);
        && memory.history == Recorded(question, old(memory.history), run, now)
        && (run.Failed? ==> r == Failed(run.error) && lastResult == old(lastResult))
        && (run.Ok? ==>
              && r == Ok(run.value.response)
              && memory.lastQuestion == Some(question) && memory.lastResponse == Some(run.value.response)
              && memory.lastToolsUsed == ToolNames(run.value.dataContext)
              && lastResult == Some(run.value))
      ensures memory.sessionId == old(memory.sessionId)
    {
      var context := memory.Context();
      var run := Outcome(question, memory.history, env);
      if run.Failed? {
        return Failed(run.error);
      }
      var result := run.value;
      var tools := ToolNames(result.dataContext);
      var _ := memory.AddExchange(question, result.response, result.intent, Some(tools), now);
      lastResult := Some(result);
      return Ok(result.response);
    }

    /**
     * `report_error`: with no previous question, the fixed reply and no row;
     * otherwise the row for the last turn and the reply of the feedback tool
     * (`insertError` is the database's failure, if any).
     */
    method ReportError(comment: string, expected: Option<string>, insertError: Option<string>)
      returns (reply: string, row: Option<Feedback.FeedbackRow>)
      requires Valid()
      ensures memory.lastQuestion.None? || memory.lastQuestion.value == "" ==>
                reply == NoPreviousQuestion && row.None?
      ensures memory.lastQuestion.Some? && memory.lastQuestion.value != "" ==>
                && row.Some?
                && row.value.question == memory.lastQuestion
                && row.value.feedbackType == CommentType(Lower(comment))
                && row.value.userComment == comment
                && row.value.expectedAnswer == Some(ExpectedOrEmpty(expected))
                && row.value == Feedback.FullRecord(memory.lastQuestion.value, memory.lastResponse,
                                                     CommentType(Lower(comment)), comment,
                                                     Some(ExpectedOrEmpty(expected)), Some(memory.lastToolsUsed))
                && (insertError.None? ==> reply == FullFeedbackStored)
                && (insertError.Some? ==> reply == "❌ Ошибка записи: " + insertError.value)
    {
      if memory.lastQuestion.None? || memory.lastQuestion.value == "" {
        return NoPreviousQuestion, None;
      }
      var commentLower := Lower(comment);
      var feedbackType := CommentType(commentLower);
      CommentTypeIsStored(commentLower);
      var record := Feedback.FullRecord(memory.lastQuestion.value, memory.lastResponse, feedbackType, comment,
                                        Some(ExpectedOrEmpty(expected)), Some(memory.lastToolsUsed));
      row := Some(record);
      reply := if insertError.None? then FullFeedbackStored else "❌ Ошибка записи: " + insertError.value;
    }
  }

  /** The feedback row built for the last turn carries the turn's answer, and its tool list when there is one. */
  lemma ReportCarriesTurn(question: string, response: string, tools: seq<string>, comment: string, expected: Option<string>)
    requires question != ""
    ensures var row := Feedback.FullRecord(question, Some(response), CommentType(Lower(comment)), comment,
                                           Some(ExpectedOrEmpty(expected)), Some(tools));
      && row.feedbackType == CommentType(Lower(comment))
      && (response != "" ==> row.response.Some? && StartsWith(response, row.response.value))
      && (tools != [] <==> row.toolsUsed == Some(tools))
      && row.status == "new"
  {
    CommentTypeIsStored(Lower(comment));
  }
}
