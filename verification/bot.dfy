/**
 * The chat front end's own logic: one analyst per user kept in a session
 * map, replies over the message limit cut into consecutive slices, the
 * history listing, and the `/error` command. Message transport is left out.
 */
module Bot {
  import opened Wrappers
  import opened Text
  import opened State
  import Graph
  import Analyst
  import Feedback

  const ChunkSize := 4000
  const HistoryWindow := 10
  const ShownQuestion := 50

  const EmptyHistory := "📭 История пуста. Задай первый вопрос!"
  const HistoryHeader := "📜 **История сессии:**\n\n"
  const ErrorUsage := "❓ Укажи что не так в ответе.\n\nПример: `/error маржа должна быть 50к, а не 30к`"
  const QuestionFailed := "❌ Произошла ошибка при обработке вопроса.\n\nПопробуй переформулировать или напиши /newsession для новой сессии."

  /** The session id of a user's analyst. */
  function SessionId(userId: int): (id: string)
    ensures StartsWith(id, "tg_") && |id| > 3
    ensures id[3..] == IntToString(userId)
  {
    var digits := IntToString(userId);
    assert ("tg_" + digits)[..3] == "tg_";
    "tg_" + digits
  }

  /** Different users get different session ids, so no two users share an analyst's session. */
  lemma SessionIdInjective(u: int, v: int)
    requires SessionId(u) == SessionId(v)
    ensures u == v
  {
    IntToStringInjective(u, v);
  }

  // ---------------------------------------------------------------------------
  // Chunking

  /** `[s[i:i+n] for i in range(0, len(s), n)]`. */
  function Slices(s: string, n: nat): seq<string>
    requires n > 0
    decreases |s|
  {
    if s == "" then [] else if |s| <= n then [s] else [s[..n]] + Slices(s[n..], n)
  }

  /** Slice `i` is the text from `i * n` up to `n` characters further, cut at the end of the text. */
  lemma {:induction false} SlicesAt(s: string, n: nat, i: nat)
    requires n > 0 && i < |Slices(s, n)|
    ensures i * n < |s|
    ensures Slices(s, n)[i] == s[i * n..if i * n + n <= |s| then i * n + n else |s|]
    decreases |s|
  {
    var parts := Slices(s, n);
    if i == 0 {
      assert parts[0] == if |s| <= n then s else s[..n];
    } else {
      var t := s[n..];
      assert |s| > n && parts == [s[..n]] + Slices(t, n);
      assert parts[i] == Slices(t, n)[i - 1];
      SlicesAt(t, n, i - 1);
      var k := (i - 1) * n;
      MulStep(i, n);
      var e := if k + n <= |t| then k + n else |t|;
      assert Slices(t, n)[i - 1] == t[k..e];
      SliceOfSuffix(s, n, k, e);
    }
  }

  lemma SliceOfSuffix(s: string, n: nat, k: nat, e: nat)
    requires n <= |s| && k <= e <= |s| - n
    ensures s[n..][k..e] == s[n + k..n + e]
  {
  }

  lemma MulStep(i: nat, n: nat)
    requires i > 0
    ensures (i - 1) * n + n == i * n
  {
  }

  /** The slices put back together give the text. */
  lemma {:induction false} SlicesConcat(s: string, n: nat)
    requires n > 0
    ensures Concat(Slices(s, n)) == s
    decreases |s|
  {
    if s == "" {
    } else if |s| <= n {
      assert Concat([s]) == s + Concat([]);
    } else {
      SlicesConcat(s[n..], n);
      assert ([s[..n]] + Slices(s[n..], n))[1..] == Slices(s[n..], n);
      assert s[..n] + s[n..] == s;
    }
  }

  /** Every slice holds between one and `n` characters, and every slice but the last exactly `n`. */
  lemma {:induction false} SlicesSizes(s: string, n: nat)
    requires n > 0
    ensures s != "" <==> Slices(s, n) != []
    ensures forall i :: 0 <= i < |Slices(s, n)| ==> 0 < |Slices(s, n)[i]| <= n
    ensures forall i :: 0 <= i < |Slices(s, n)| - 1 ==> |Slices(s, n)[i]| == n
    decreases |s|
  {
    if |s| > n {
      SlicesSizes(s[n..], n);
      var parts := Slices(s, n);
      assert forall i :: 1 <= i < |parts| ==> parts[i] == Slices(s[n..], n)[i - 1];
    }
  }

  /** The replies `handle_message` sends for an answer: the whole answer, or its 4000-character slices. */
  function Chunks(response: string): (parts: seq<string>)
    ensures |response| <= ChunkSize ==> parts == [response]
  {
    if |response| > ChunkSize then Slices(response, ChunkSize) else [response]
  }

  /** The replies together are the answer, none exceeds the limit, and all but the last are full. */
  lemma ChunksFacts(response: string)
    ensures Concat(Chunks(response)) == response
    ensures Chunks(response) != []
    ensures forall i :: 0 <= i < |Chunks(response)| ==> |Chunks(response)[i]| <= ChunkSize
    ensures forall i :: 0 <= i < |Chunks(response)| - 1 ==> |Chunks(response)[i]| == ChunkSize
  {
    if |response| > ChunkSize {
      SlicesConcat(response, ChunkSize);
      SlicesSizes(response, ChunkSize);
    } else {
      assert Concat([response]) == response + Concat([]);
    }
  }

  // ---------------------------------------------------------------------------
  // History listing

  /** One numbered line pair of the listing, the question cut to 50 characters. */
  function HistoryItem(number: nat, ex: Exchange): string {
    NatToString(number) + ". " + Abbreviate(ex.question, ShownQuestion) + "\n"
      + "   _Intent: " + IntentText(ex.intent) + "_\n\n"
  }

  /** The turns `xs`, numbered from 1 in order. */
  function HistoryItems(xs: seq<Exchange>): string
    decreases |xs|
  {
    if xs == [] then "" else HistoryItems(xs[..|xs| - 1]) + HistoryItem(|xs|, xs[|xs| - 1])
  }

  /** The `/history` reply: the empty notice, or the header and the last ten turns. */
  function HistoryText(history: seq<Exchange>): (text: string)
    ensures history == [] ==> text == EmptyHistory
    ensures history != [] ==> StartsWith(text, HistoryHeader)
  {
    if history == [] then EmptyHistory
    else
      var text := HistoryHeader + HistoryItems(LastN(history, HistoryWindow));
      assert text[..|HistoryHeader|] == HistoryHeader;
      text
  }

  /** Only the last ten turns reach the listing. */
  lemma HistoryLastTen(history: seq<Exchange>)
    ensures HistoryText(history) == HistoryText(LastN(history, HistoryWindow))
  {
    if |history| > HistoryWindow {
      var w := LastN(history, HistoryWindow);
      assert |w| == HistoryWindow;
      assert LastN(w, HistoryWindow) == w;
    }
  }

  /** The item of every turn, turn `k` numbered `k + 1`. */
  function NumberedItems(xs: seq<Exchange>): (items: seq<string>)
    ensures |items| == |xs|
    ensures forall k :: 0 <= k < |xs| ==> items[k] == HistoryItem(k + 1, xs[k])
  {
    seq(|xs|, k requires 0 <= k < |xs| => HistoryItem(k + 1, xs[k]))
  }

  lemma NumberedItemsSnoc(xs: seq<Exchange>)
    requires xs != []
    ensures NumberedItems(xs) == NumberedItems(xs[..|xs| - 1]) + [HistoryItem(|xs|, xs[|xs| - 1])]
  {
  }

  /** The listed turns are the items of the turns in order, numbered from 1. */
  lemma {:induction false} HistoryItemsNumbered(xs: seq<Exchange>)
    ensures HistoryItems(xs) == Concat(NumberedItems(xs))
  {
    if xs != [] {
      var init := xs[..|xs| - 1];
      var last := HistoryItem(|xs|, xs[|xs| - 1]);
      HistoryItemsNumbered(init);
      NumberedItemsSnoc(xs);
      ConcatAppend(NumberedItems(init), [last]);
      assert Concat([last]) == last + Concat([]);
    }
  }

  /** The listing is never the empty notice when there is a turn to list. */
  lemma HistoryNoticeOnlyWhenEmpty(history: seq<Exchange>)
    ensures HistoryText(history) == EmptyHistory <==> history == []
  {
    if history != [] {
      var text := HistoryText(history);
      assert text[0] == HistoryHeader[0];
      assert EmptyHistory[0] != HistoryHeader[0];
    }
  }

  /** A listed turn shows its question whole when short, and otherwise its first 50 characters and an ellipsis. */
  lemma HistoryItemShowsQuestion(number: nat, ex: Exchange)
    ensures var prefix := NatToString(number) + ". ";
      var shown := Abbreviate(ex.question, ShownQuestion);
      && StartsWith(HistoryItem(number, ex), prefix + shown + "\n")
      && (|ex.question| <= ShownQuestion ==> shown == ex.question)
      && (|ex.question| > ShownQuestion ==> |shown| == ShownQuestion + 3 && shown[..ShownQuestion] == ex.question[..ShownQuestion])
      && (|ex.question| > ShownQuestion ==> shown[ShownQuestion..] == "...")
      && HistoryItem(number, ex)[|prefix + shown + "\n"|..] == "   _Intent: " + IntentText(ex.intent) + "_\n\n"
  {
    var head := NatToString(number) + ". " + Abbreviate(ex.question, ShownQuestion) + "\n";
    assert HistoryItem(number, ex)[..|head|] == head;
    assert HistoryItem(number, ex)[|head|..] == "   _Intent: " + IntentText(ex.intent) + "_\n\n";
    AbbreviateBounds(ex.question, ShownQuestion);
  }

  /** The listing loop of `history_command`. */
  method HistoryListing(history: seq<Exchange>) returns (text: string)
    ensures text == HistoryText(history)
  {
    if history == [] {
      return EmptyHistory;
    }
    var items := ListItems(LastN(history, HistoryWindow));
    text := HistoryHeader + items;
  }

  /** The `history_text +=` loop over the recent turns. */
  method ListItems(recent: seq<Exchange>) returns (items: string)
    ensures items == HistoryItems(recent)
  {
    items := "";
    for i := 0 to |recent|
      invariant items == HistoryItems(recent[..i])
    {
      assert recent[..i + 1][..i] == recent[..i];
      items := items + HistoryItem(i + 1, recent[i]);
    }
    assert recent[..|recent|] == recent;
  }

  // ---------------------------------------------------------------------------
  // The `/error` command

  /** `' '.join(args) if args else None`, where an empty result counts as no comment. */
  function CommentOf(args: seq<string>): (c: Option<string>)
    ensures c.Some? ==> args != [] && c.value != "" && c.value == Join(args, " ")
    ensures c.None? <==> args == [] || Join(args, " ") == ""
  {
    if args == [] then None
    else if Join(args, " ") == "" then None
    else Some(Join(args, " "))
  }

  /** The `/newsession` reply, naming the new session. */
  function NewSessionReply(userId: int): (reply: string)
    ensures StartsWith(reply, "🔄 Новая сессия начата!")
    ensures reply[|"🔄 Новая сессия начата!"|..] == "\n\nSession ID: `" + SessionId(userId) + "`"
  {
    var head := "🔄 Новая сессия начата!";
    var reply := head + "\n\nSession ID: `" + SessionId(userId) + "`";
    assert reply[..|head|] == head;
    assert reply[|head|..] == "\n\nSession ID: `" + SessionId(userId) + "`";
    reply
  }

  // ---------------------------------------------------------------------------
  // The session map

  class SessionStore {
    var sessions: map<int, Analyst.SeniorAnalyst>

    ghost function Memories(): set<object>
      reads this
    {
      set a | a in sessions.Values :: a.memory
    }

    /** Different users hold different analysts with different memories. */
    ghost predicate Distinct()
      reads this
    {
      forall u, v | u in sessions && v in sessions && u != v ::
        sessions[u] != sessions[v] && sessions[u].memory != sessions[v].memory
    }

    /** Every analyst is in a valid state, under its user's session id. */
    ghost predicate Sound()
      reads this, sessions.Values, Memories()
    {
      forall u | u in sessions :: sessions[u].Valid() && sessions[u].memory.sessionId == SessionId(u)
    }

    ghost predicate Valid()
      reads this, sessions.Values, Memories()
    {
      Distinct() && Sound()
    }

    constructor()
      ensures Valid() && sessions == map[]
    {
      sessions := map[];
    }

    /** A fresh analyst for the user, with an empty history, in place of whatever the user had. */
    method Install(userId: int) returns (a: Analyst.SeniorAnalyst)
      requires Valid()
      modifies this
      ensures Valid()
      ensures fresh(a) && fresh(a.memory) && sessions == old(sessions)[userId := a]
      ensures a.memory.history == [] && a.memory.lastQuestion == None
    {
      a := new Analyst.SeniorAnalyst(Some(SessionId(userId)), "");
      sessions := sessions[userId := a];
      forall u | u in sessions && u != userId
        ensures sessions[u] == old(sessions)[u] && sessions[u] != a && sessions[u].memory != a.memory
      {
      }
    }

    /** `get_analyst`: the user's analyst, created with an empty history only when the user has none. */
    method GetAnalyst(userId: int) returns (a: Analyst.SeniorAnalyst)
      requires Valid()
      modifies this
      ensures Valid()
      ensures userId in sessions && a == sessions[userId]
      ensures sessions.Keys == old(sessions).Keys + {userId}
      ensures userId in old(sessions) ==> sessions == old(sessions) && a == old(sessions)[userId]
      ensures userId !in old(sessions) ==>
                && fresh(a) && fresh(a.memory)
                && sessions == old(sessions)[userId := a]
                && a.memory.history == [] && a.memory.lastQuestion == None
    {
      if userId in sessions {
        return sessions[userId];
      }
      a := Install(userId);
    }

    /** `newsession_command`: the user's analyst replaced by a fresh one; nobody else's changes. */
    method NewSession(userId: int) returns (reply: string)
      requires Valid()
      modifies this
      ensures Valid()
      ensures userId in sessions && fresh(sessions[userId]) && fresh(sessions[userId].memory)
      ensures sessions[userId].memory.history == [] && sessions[userId].memory.lastQuestion == None
      ensures forall u | u in old(sessions) && u != userId :: u in sessions && sessions[u] == old(sessions)[u]
      ensures sessions.Keys == old(sessions).Keys + {userId}
      ensures reply == NewSessionReply(userId)
    {
      var a := Install(userId);
      reply := NewSessionReply(userId);
    }

    /** `history_command`: the listing of the user's analyst's history. */
    method History(userId: int) returns (text: string)
      requires Valid()
      modifies this
      ensures Valid() && userId in sessions
      ensures text == HistoryText(sessions[userId].memory.history)
      ensures userId in old(sessions) ==> sessions == old(sessions) && text == HistoryText(old(sessions[userId].memory.history))
      ensures userId !in old(sessions) ==>
                && fresh(sessions[userId]) && sessions == old(sessions)[userId := sessions[userId]]
                && text == EmptyHistory
    {
      var a := GetAnalyst(userId);
      text := HistoryListing(a.memory.history);
    }

    /**
     * `error_command`: without a comment, the usage text and no feedback row;
     * otherwise the analyst's report, prefixed with a check mark.
     */
    method ErrorCommand(userId: int, args: seq<string>, insertError: Option<string>)
      returns (reply: string, row: Option<Feedback.FeedbackRow>)
      requires Valid()
      modifies this
      ensures Valid() && userId in sessions
      ensures userId in old(sessions) ==> sessions == old(sessions)
      ensures userId !in old(sessions) ==>
                && fresh(sessions[userId]) && sessions == old(sessions)[userId := sessions[userId]]
                && sessions[userId].memory.lastQuestion == None
      ensures CommentOf(args).None? ==> reply == ErrorUsage && row.None?
      ensures CommentOf(args).Some? ==>
                var last := if userId in old(sessions) then old(sessions[userId].memory.lastQuestion) else None;
                && (last.None? || last.value == "" ==> reply == "✅ " + Analyst.NoPreviousQuestion && row.None?)
                && (last.Some? && last.value != "" ==>
                      && row.Some? && row.value.question == last
                      && row.value.userComment == CommentOf(args).value
                      && row.value.feedbackType == Analyst.CommentType(Lower(CommentOf(args).value))
                      && (insertError.None? ==> reply == "✅ " + Analyst.FullFeedbackStored)
                      && (insertError.Some? ==> reply == "✅ " + "❌ Ошибка записи: " + insertError.value))
      ensures CommentOf(args).Some? && userId in old(sessions) ==>
                var m := old(sessions[userId].memory);
                var last := old(m.lastQuestion);
                last.Some? && last.value != "" ==>
                  row == Some(Feedback.FullRecord(last.value, old(m.lastResponse),
                                                  Analyst.CommentType(Lower(CommentOf(args).value)),
                                                  CommentOf(args).value, Some(""), Some(old(m.lastToolsUsed))))
    {
      var a := GetAnalyst(userId);
      var comment := CommentOf(args);
      if comment.None? {
        return ErrorUsage, None;
      }
      var result;
      result, row := a.ReportError(comment.value, None, insertError);
      reply := "✅ " + result;
    }

    /**
     * `handle_message`: the user's analyst answers, and the answer is sent
     * in slices; a run that raises is answered with the apology and leaves
     * the analyst's history as it was.
     */
    method HandleMessage(userId: int, question: string, env: Graph.Env, now: string)
      returns (replies: seq<string>)
      requires Valid()
      modifies this, sessions.Values, Memories()
      ensures Valid() && userId in sessions
      ensures var history := if userId in old(sessions) then old(sessions[userId].memory.history) else [];
        var run := Analyst.Outcome(question, history, env);
        && replies == Replies(run)
        && sessions[userId].memory.history == Analyst.Recorded(question, history, run, now)
      ensures sessions.Keys == old(sessions).Keys + {userId}
      ensures forall u | u in old(sessions) && u != userId ::
                sessions[u] == old(sessions)[u] && unchanged(sessions[u], sessions[u].memory)
      ensures userId in old(sessions) ==> sessions[userId] == old(sessions)[userId]
    {
      var a := GetAnalyst(userId);
      assert (this as object) != (a as object) && (this as object) != (a.memory as object);
      ghost var history := a.memory.history;
      ghost var store := sessions;
      assert history == if userId in old(sessions) then old(sessions[userId].memory.history) else [];
      assert forall u | u in old(sessions) && u != userId ::
        sessions[u] == old(sessions)[u] && unchanged(sessions[u], sessions[u].memory);
      var r := AskAs(userId, a, question, env, now);
      assert sessions == store;
      replies := if r.Failed? then [QuestionFailed] else Chunks(r.value);
    }

    /** The user's analyst answers; every other analyst is left alone. */
    method AskAs(userId: int, a: Analyst.SeniorAnalyst, question: string, env: Graph.Env, now: string)
      returns (r: Result<string, Failure>)
      requires Valid() && userId in sessions && sessions[userId] == a
      modifies a, a.memory
      ensures Valid()
      ensures var run := Analyst.Outcome(question, old(a.memory.history), env);
        && a.memory.history == Analyst.Recorded(question, old(a.memory.history), run, now)
        && (run.Failed? ==> r.Failed?)
        && (run.Ok? ==> r == Ok(run.value.response))
      ensures forall u | u in sessions && u != userId :: unchanged(sessions[u], sessions[u].memory)
    {
      assert (this as object) != (a as object) && (this as object) != (a.memory as object);
      r := a.Ask(question, env, now);
      assert sessions == old(sessions);
      assert Distinct();
      forall u | u in sessions
        ensures sessions[u].Valid() && sessions[u].memory.sessionId == SessionId(u)
      {
        if u != userId {
          assert sessions[u] != a && sessions[u].memory != a.memory;
          assert old(sessions[u].Valid());
        }
      }
      assert Sound();
    }
  }

  /** The replies to a question: the answer in slices, or the apology when the run raises. */
  function Replies(run: Result<AnalystState, Failure>): (replies: seq<string>)
    ensures run.Failed? ==> replies == [QuestionFailed]
    ensures run.Ok? ==> Concat(replies) == run.value.response && replies != []
    ensures run.Ok? ==> forall i :: 0 <= i < |replies| ==> |replies[i]| <= ChunkSize
  {
    if run.Failed? then [QuestionFailed]
    else
      ChunksFacts(run.value.response);
      Chunks(run.value.response)
  }
}
