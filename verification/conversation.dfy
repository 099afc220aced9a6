/**
 * Conversation memory: the per-session history of question/answer turns, the
 * `last_*` mirror of the latest turn, the digest of recent turns shown to the
 * next question, and the row written to the conversations table.
 */
module Conversation {
  import opened Wrappers
  import opened Text
  import opened State

  const DigestHeader := "Предыдущие вопросы в этой сессии:\n\n"
  const DigestWindow := 5
  const ShownResponse := 200
  const StoredResponse := 10000

  /** One numbered turn of the digest, the answer cut to 200 characters. */
  function Item(number: nat, ex: Exchange): string {
    NatToString(number) + ". Вопрос: " + ex.question + "\n"
      + "   Ответ: " + Abbreviate(ex.response, ShownResponse) + "\n\n"
  }

  /** The turns `xs`, numbered from 1 in order. */
  function Items(xs: seq<Exchange>): string
    decreases |xs|
  {
    if xs == [] then "" else Items(xs[..|xs| - 1]) + Item(|xs|, xs[|xs| - 1])
  }

  /** The digest of a history: nothing for no turns, otherwise the header and the last five turns. */
  function Digest(history: seq<Exchange>): (d: string)
    ensures d == "" <==> history == []
  {
    if history == [] then "" else DigestHeader + Items(LastN(history, DigestWindow))
  }

  /** Only the last five turns reach the digest. */
  lemma DigestLastFive(history: seq<Exchange>)
    ensures Digest(history) == Digest(LastN(history, DigestWindow))
  {
    if |history| > DigestWindow {
      var w := LastN(history, DigestWindow);
      assert |w| == DigestWindow;
      assert LastN(w, DigestWindow) == w;
    }
  }

  /** While the history is shorter than the window, a new turn is listed last, with the next number. */
  lemma DigestExtend(history: seq<Exchange>, ex: Exchange)
    requires 0 < |history| < DigestWindow
    ensures Digest(history + [ex]) == Digest(history) + Item(|history| + 1, ex)
  {
    var h := history + [ex];
    assert h[..|h| - 1] == history;
    assert DigestHeader + (Items(history) + Item(|history| + 1, ex))
        == DigestHeader + Items(history) + Item(|history| + 1, ex);
  }

  /** The digest of a single turn lists it as turn 1. */
  lemma DigestSingle(ex: Exchange)
    ensures Digest([ex]) == DigestHeader + Item(1, ex)
  {
    assert [ex][..0] == [];
    assert Items([ex]) == "" + Item(1, ex) == Item(1, ex);
  }

  /** `format_history_for_context`, with its numbering loop. */
  method FormatHistory(history: seq<Exchange>) returns (result: string)
    ensures result == Digest(history)
  {
    if history == [] {
      return "";
    }
    result := DigestHeader;
    var recent := LastN(history, DigestWindow);
    for i := 0 to |recent|
      invariant result == DigestHeader + Items(recent[..i])
    {
      assert recent[..i + 1][..i] == recent[..i];
      result := result + Item(i + 1, recent[i]);
    }
    assert recent[..|recent|] == recent;
  }

  /** `tools_used or []`. */
  function ToolsOrEmpty(tools: Option<seq<string>>): (t: seq<string>)
    ensures tools.Some? ==> t == tools.value
    ensures tools.None? ==> t == []
  {
    if tools.Some? then tools.value else []
  }

  /** The row written to the conversations table; `tools_used` is `None` unless it holds a tool. */
  datatype ConversationRow = ConversationRow(
    sessionId: string,
    question: string,
    response: Option<string>,
    intent: Intent,
    toolsUsed: Option<seq<string>>,
    createdAt: string)

  /** The row `save_conversation_to_db` builds (the JSON encoding of the tool list is left abstract). */
  function ConversationRecord(sessionId: string, question: string, response: string, intent: Intent,
                              tools: Option<seq<string>>, now: string): (row: ConversationRow)
    ensures row.sessionId == sessionId && row.question == question && row.intent == intent && row.createdAt == now
    ensures row.response.None? <==> response == ""
    ensures row.response.Some? ==> |row.response.value| <= StoredResponse && StartsWith(response, row.response.value)
    ensures row.response.Some? && |response| <= StoredResponse ==> row.response.value == response
    ensures row.toolsUsed.Some? <==> tools.Some? && tools.value != []
    ensures row.toolsUsed.Some? ==> row.toolsUsed == tools
  {
    ConversationRow(sessionId, question,
                    if response != "" then Some(Take(response, StoredResponse)) else None,
                    intent,
                    if tools.Some? && tools.value != [] then tools else None,
                    now)
  }

  class ConversationMemory {
    var sessionId: string
    var history: seq<Exchange>
    var lastQuestion: Option<string>
    var lastResponse: Option<string>
    var lastToolsUsed: seq<string>

    /** The `last_*` fields mirror the latest turn, and are reset exactly when there is none. */
    ghost predicate Valid()
      reads this
    {
      && (history == [] ==> lastQuestion == None && lastResponse == None && lastToolsUsed == [])
      && (history != [] ==>
            var last := history[|history| - 1];
            lastQuestion == Some(last.question) && lastResponse == Some(last.response)
            && lastToolsUsed == last.toolsUsed)
    }

    /** A new memory: the given session id, or the clock stamp when none is given. */
    constructor(id: Option<string>, clockStamp: string)
      ensures Valid()
      ensures sessionId == (if id.Some? && id.value != "" then id.value else clockStamp)
      ensures history == [] && lastQuestion == None && lastResponse == None && lastToolsUsed == []
    {
      sessionId := if id.Some? && id.value != "" then id.value else clockStamp;
      history := [];
      lastQuestion := None;
      lastResponse := None;
      lastToolsUsed := [];
    }

    /** `add_exchange`: one turn appended, the `last_*` fields set, and the row handed to the database. */
    method AddExchange(question: string, response: string, intent: Intent, tools: Option<seq<string>>, now: string)
      returns (row: ConversationRow)
      requires Valid()
      modifies this
      ensures Valid()
      ensures history == old(history) + [Exchange(question, response, intent, ToolsOrEmpty(tools), now)]
      ensures lastQuestion == Some(question) && lastResponse == Some(response)
      ensures lastToolsUsed == ToolsOrEmpty(tools)
      ensures sessionId == old(sessionId)
      ensures row == ConversationRecord(sessionId, question, response, intent, tools, now)
    {
      var exchange := Exchange(question, response, intent, ToolsOrEmpty(tools), now);
      history := history + [exchange];
      lastQuestion := Some(question);
      lastResponse := Some(response);
      lastToolsUsed := ToolsOrEmpty(tools);
      row := ConversationRecord(sessionId, question, response, intent, tools, now);
    }

    /** `get_context`: the digest of the history. */
    function Context(): (c: string)
      reads this
      ensures c == Digest(history)
      ensures c == "" <==> history == []
    {
      if history == [] then "" else Digest(history)
    }

    /** `get_last_exchange`: the latest turn, if any. */
    function LastExchange(): (r: Option<Exchange>)
      reads this
      ensures r.Some? <==> history != []
      ensures r.Some? ==> r.value == history[|history| - 1]
    {
      if history != [] then Some(history[|history| - 1]) else None
    }

    /** `clear`: no turns and the `last_*` fields reset; the session id stays. */
    method Clear()
      modifies this
      ensures Valid()
      ensures history == [] && lastQuestion == None && lastResponse == None && lastToolsUsed == []
      ensures sessionId == old(sessionId)
    {
      history := [];
      lastQuestion := None;
      lastResponse := None;
      lastToolsUsed := [];
    }
  }

}
