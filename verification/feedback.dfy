/**
 * User feedback on answers: the five feedback types and the normalisation of
 * anything else to `other`, the rows written to the feedback table, and the
 * statistics text with per-type and per-status tallies.
 */
module Feedback {
  import opened Wrappers
  import opened Text

  const ValidTypes := ["incorrect_data", "wrong_recommendation", "missing_info", "wrong_calculation", "other"]

  /** A type outside the five valid values becomes `other`. */
  function NormaliseType(feedbackType: string): (t: string)
    ensures t in ValidTypes
    ensures feedbackType in ValidTypes ==> t == feedbackType
    ensures feedbackType !in ValidTypes ==> t == "other"
  {
    if feedbackType !in ValidTypes then "other" else feedbackType
  }

  /** Normalising twice is normalising once. */
  lemma NormaliseIdempotent(feedbackType: string)
    ensures NormaliseType(NormaliseType(feedbackType)) == NormaliseType(feedbackType)
  {
  }

  /** A row of the feedback table; the short form leaves the context columns unset. */
  datatype FeedbackRow = FeedbackRow(
    question: Option<string>,
    response: Option<string>,
    feedbackType: string,
    userComment: string,
    expectedAnswer: Option<string>,
    toolsUsed: Option<seq<string>>,
    status: string)

  const ResponseCap := 5000

  /** The row `record_feedback` inserts. */
  function ShortRecord(feedbackType: string, comment: string, expected: Option<string>): (row: FeedbackRow)
    ensures row.feedbackType == NormaliseType(feedbackType) && row.status == "new"
    ensures row.userComment == comment && row.expectedAnswer == expected
    ensures row.question.None? && row.response.None? && row.toolsUsed.None?
  {
    FeedbackRow(None, None, NormaliseType(feedbackType), comment, expected, None, "new")
  }

  /** The row `record_full_feedback` inserts: the answer cut to 5000 characters, no tool list when it is empty. */
  function FullRecord(question: string, response: Option<string>, feedbackType: string, comment: string,
                      expected: Option<string>, tools: Option<seq<string>>): (row: FeedbackRow)
    ensures row.question == Some(question) && row.userComment == comment && row.expectedAnswer == expected
    ensures row.feedbackType == NormaliseType(feedbackType) && row.status == "new"
    ensures row.response.None? <==> response.None? || response.value == ""
    ensures row.response.Some? ==> |row.response.value| <= ResponseCap && StartsWith(response.value, row.response.value)
    ensures row.response.Some? && |response.value| <= ResponseCap ==> row.response.value == response.value
    ensures row.toolsUsed.Some? <==> tools.Some? && tools.value != []
    ensures row.toolsUsed.Some? ==> row.toolsUsed == tools
  {
    FeedbackRow(Some(question),
                if response.Some? && response.value != "" then Some(Take(response.value, ResponseCap)) else None,
                NormaliseType(feedbackType), comment, expected,
                if tools.Some? && tools.value != [] then tools else None,
                "new")
  }

  /** The confirmation `record_feedback` returns once the row is stored. */
  function Confirmation(feedbackType: string, comment: string, expected: Option<string>): string {
    "✅ Фидбек записан. Спасибо!\n\nТип: " + NormaliseType(feedbackType) + "\nКомментарий: " + comment + "\n"
      + (if expected.Some? && expected.value != "" then "Ожидаемый ответ: " + expected.value else "")
      + "\n\nМы проанализируем эту ошибку и улучшим систему."
  }

  /** The confirmation names the stored type and comment, and shows the expected answer only when one was given. */
  lemma ConfirmationShows(feedbackType: string, comment: string, expected: Option<string>)
    ensures var head := "✅ Фидбек записан. Спасибо!\n\nТип: " + NormaliseType(feedbackType) + "\nКомментарий: " + comment + "\n";
      StartsWith(Confirmation(feedbackType, comment, expected), head)
    ensures expected.Some? && expected.value != "" ==>
      Contains(Confirmation(feedbackType, comment, expected), "Ожидаемый ответ: " + expected.value)
    ensures expected.None? || expected.value == "" ==>
      |Confirmation(feedbackType, comment, expected)|
        == |"✅ Фидбек записан. Спасибо!\n\nТип: "| + |NormaliseType(feedbackType)| + |"\nКомментарий: "| + |comment| + 1
           + |"\n\nМы проанализируем эту ошибку и улучшим систему."|
  {
    var head := "✅ Фидбек записан. Спасибо!\n\nТип: " + NormaliseType(feedbackType) + "\nКомментарий: " + comment + "\n";
    var tail := "\n\nМы проанализируем эту ошибку и улучшим систему.";
    var line := if expected.Some? && expected.value != "" then "Ожидаемый ответ: " + expected.value else "";
    var c := Confirmation(feedbackType, comment, expected);
    assert c == head + line + tail;
    assert (head + line + tail)[..|head|] == head;
    if line != "" {
      assert (head + line + tail)[|head|..|head| + |line|] == line;
      assert OccursAt(c, line, |head|);
    }
  }

  // ---- statistics ----

  /** What the statistics query returns per row. */
  datatype StatRow = StatRow(feedbackType: Option<string>, status: Option<string>)

  /** `row['feedback_type'] or 'other'`. */
  function TypeKey(r: StatRow): string {
    if r.feedbackType.Some? && r.feedbackType.value != "" then r.feedbackType.value else "other"
  }

  /** `row['status'] or 'new'`. */
  function StatusKey(r: StatRow): string {
    if r.status.Some? && r.status.value != "" then r.status.value else "new"
  }

  /** The type of every row, an absent or empty type counting as "other". */
  function TypeKeys(rows: seq<StatRow>): (keys: seq<string>)
    ensures |keys| == |rows|
    ensures forall i :: 0 <= i < |rows| && (rows[i].feedbackType.None? || rows[i].feedbackType.value == "") ==> keys[i] == "other"
    ensures forall i :: 0 <= i < |rows| && rows[i].feedbackType.Some? && rows[i].feedbackType.value != "" ==> keys[i] == rows[i].feedbackType.value
  {
    seq(|rows|, i requires 0 <= i < |rows| => TypeKey(rows[i]))
  }

  /** The status of every row, an absent or empty status counting as "new". */
  function StatusKeys(rows: seq<StatRow>): (keys: seq<string>)
    ensures |keys| == |rows|
    ensures forall i :: 0 <= i < |rows| && (rows[i].status.None? || rows[i].status.value == "") ==> keys[i] == "new"
    ensures forall i :: 0 <= i < |rows| && rows[i].status.Some? && rows[i].status.value != "" ==> keys[i] == rows[i].status.value
  {
    seq(|rows|, i requires 0 <= i < |rows| => StatusKey(rows[i]))
  }

  /** One `key: count` item of a counting dict; a dict is a list of them in insertion order. */
  datatype Tally = Tally(key: string, count: nat)

  /** `d[k] = d.get(k, 0) + 1` on a dict kept in insertion order. */
  function Bump(t: seq<Tally>, k: string): seq<Tally>
    decreases |t|
  {
    if t == [] then [Tally(k, 1)]
    else if t[0].key == k then [Tally(k, t[0].count + 1)] + t[1..]
    else [t[0]] + Bump(t[1..], k)
  }

  /** The dict the counting loop builds from `keys`. */
  function TallyOf(keys: seq<string>): seq<Tally>
    decreases |keys|
  {
    if keys == [] then [] else Bump(TallyOf(keys[..|keys| - 1]), keys[|keys| - 1])
  }

  /** The count recorded for `k` (0 when `k` is absent). */
  function CountOf(t: seq<Tally>, k: string): nat
    decreases |t|
  {
    if t == [] then 0 else (if t[0].key == k then t[0].count else 0) + CountOf(t[1..], k)
  }

  function Total(t: seq<Tally>): nat
    decreases |t|
  {
    if t == [] then 0 else t[0].count + Total(t[1..])
  }

  predicate DistinctKeys(t: seq<Tally>) {
    forall i, j :: 0 <= i < j < |t| ==> t[i].key != t[j].key
  }

  /** The keys of a dict, in order. */
  function KeysOf(t: seq<Tally>): (keys: seq<string>)
    ensures |keys| == |t|
    ensures forall i :: 0 <= i < |t| ==> keys[i] == t[i].key
  {
    seq(|t|, i requires 0 <= i < |t| => t[i].key)
  }

  /** Bumping adds one to `k`'s count and one to the total. */
  lemma {:induction false} BumpCount(t: seq<Tally>, k: string)
    ensures forall x :: CountOf(Bump(t, k), x) == CountOf(t, x) + (if x == k then 1 else 0)
    ensures Total(Bump(t, k)) == Total(t) + 1
    decreases |t|
  {
    var b := Bump(t, k);
    if t == [] {
      assert b[1..] == [];
    } else if t[0].key == k {
      assert b[1..] == t[1..];
    } else {
      BumpCount(t[1..], k);
      assert b[1..] == Bump(t[1..], k);
    }
  }

  /** Bumping a present key keeps the keys in place. */
  lemma {:induction false} BumpKnown(t: seq<Tally>, k: string)
    requires k in KeysOf(t)
    ensures KeysOf(Bump(t, k)) == KeysOf(t)
    decreases |t|
  {
    if t[0].key != k {
      assert k in KeysOf(t[1..]) by {
        var i :| 0 <= i < |t| && KeysOf(t)[i] == k;
        assert i > 0 && KeysOf(t[1..])[i - 1] == k;
      }
      BumpKnown(t[1..], k);
      assert KeysOf(t) == [t[0].key] + KeysOf(t[1..]);
      assert KeysOf(Bump(t, k)) == [t[0].key] + KeysOf(Bump(t[1..], k));
    }
  }

  /** Bumping a new key appends it with count 1. */
  lemma {:induction false} BumpNew(t: seq<Tally>, k: string)
    requires k !in KeysOf(t)
    ensures Bump(t, k) == t + [Tally(k, 1)]
    decreases |t|
  {
    if t != [] {
      assert t[0].key == KeysOf(t)[0] != k;
      assert k !in KeysOf(t[1..]) by {
        forall i | 0 <= i < |t| - 1 ensures KeysOf(t[1..])[i] != k {
          assert KeysOf(t[1..])[i] == KeysOf(t)[i + 1];
        }
      }
      BumpNew(t[1..], k);
      assert t == [t[0]] + t[1..];
    }
  }

  /** Bumping keeps the keys distinct. */
  lemma BumpDistinct(t: seq<Tally>, k: string)
    requires DistinctKeys(t)
    ensures DistinctKeys(Bump(t, k))
    ensures forall x :: x in KeysOf(Bump(t, k)) <==> x in KeysOf(t) || x == k
  {
    var b := Bump(t, k);
    if k in KeysOf(t) {
      BumpKnown(t, k);
      forall i, j | 0 <= i < j < |b| ensures b[i].key != b[j].key {
        assert b[i].key == KeysOf(b)[i] == t[i].key;
        assert b[j].key == KeysOf(b)[j] == t[j].key;
      }
    } else {
      BumpNew(t, k);
      assert KeysOf(b) == KeysOf(t) + [k];
      forall i | 0 <= i < |t| ensures t[i].key != k {
        assert KeysOf(t)[i] == t[i].key;
      }
    }
  }

  /** The counting loop's dict has distinct keys, exactly the keys that occur. */
  lemma {:induction false} TallyKeys(keys: seq<string>)
    ensures DistinctKeys(TallyOf(keys))
    ensures forall x :: x in KeysOf(TallyOf(keys)) <==> x in keys
    decreases |keys|
  {
    if keys != [] {
      var init, k := keys[..|keys| - 1], keys[|keys| - 1];
      TallyKeys(init);
      BumpDistinct(TallyOf(init), k);
      assert keys == init + [k];
    }
  }

  /**
   * In the counting loop's dict the count of every key is its number of
   * occurrences, and the counts add up to the number of rows.
   */
  lemma {:induction false} TallyCounts(keys: seq<string>)
    ensures forall x :: CountOf(TallyOf(keys), x) == multiset(keys)[x]
    ensures Total(TallyOf(keys)) == |keys|
    decreases |keys|
  {
    if keys != [] {
      var init, k := keys[..|keys| - 1], keys[|keys| - 1];
      TallyCounts(init);
      BumpCount(TallyOf(init), k);
      assert keys == init + [k];
      assert multiset(keys) == multiset(init) + multiset{k};
    }
  }

  /** The index of the first occurrence of `k`. */
  function FirstIndex(keys: seq<string>, k: string): (i: nat)
    requires k in keys
    ensures i < |keys| && keys[i] == k && k !in keys[..i]
  {
    if keys[0] == k then 0
    else
      assert k in keys[1..];
      var i := 1 + FirstIndex(keys[1..], k);
      assert keys[..i] == [keys[0]] + keys[1..][..i - 1];
      i
  }

  lemma FirstIndexExtend(init: seq<string>, k: string, x: string)
    requires x in init
    ensures FirstIndex(init + [k], x) == FirstIndex(init, x)
  {
    var s := init + [k];
    var i := FirstIndex(init, x);
    var j := FirstIndex(s, x);
    forall m | 0 <= m < j ensures s[m] != x {
      assert s[..j][m] == s[m];
    }
    forall m | 0 <= m < i ensures init[m] != x {
      assert init[..i][m] == init[m];
    }
    assert s[i] == x;
  }

  lemma FirstIndexLast(init: seq<string>, k: string)
    requires k !in init
    ensures FirstIndex(init + [k], k) == |init|
  {
    var s := init + [k];
    forall m | 0 <= m < |init| ensures s[m] != k {
      assert s[m] == init[m];
    }
  }

  /** `ks` are keys among `keys`, listed in the order of their first occurrence there. */
  predicate FirstSeenOrder(keys: seq<string>, ks: seq<string>) {
    && (forall x :: x in ks ==> x in keys)
    && (forall i, j :: 0 <= i < j < |ks| ==> FirstIndex(keys, ks[i]) < FirstIndex(keys, ks[j]))
  }

  /** One more key: a known key keeps the order, a new one goes last. */
  lemma FirstSeenStep(init: seq<string>, k: string, ks0: seq<string>)
    requires FirstSeenOrder(init, ks0)
    ensures FirstSeenOrder(init + [k], ks0)
    ensures k !in init ==> FirstSeenOrder(init + [k], ks0 + [k])
  {
    var keys := init + [k];
    forall i | 0 <= i < |ks0| ensures FirstIndex(keys, ks0[i]) == FirstIndex(init, ks0[i]) < |init| {
      FirstIndexExtend(init, k, ks0[i]);
    }
    if k !in init {
      var ks := ks0 + [k];
      FirstIndexLast(init, k);
      forall i, j | 0 <= i < j < |ks|
        ensures FirstIndex(keys, ks[i]) < FirstIndex(keys, ks[j])
      {
        assert ks[i] == ks0[i];
        if j < |ks0| {
          assert ks[j] == ks0[j];
        }
      }
    }
  }

  /** The dict lists keys in the order of their first occurrence among the rows. */
  lemma {:induction false} TallyFirstSeen(keys: seq<string>)
    ensures FirstSeenOrder(keys, KeysOf(TallyOf(keys)))
    decreases |keys|
  {
    if keys != [] {
      var init, k := keys[..|keys| - 1], keys[|keys| - 1];
      var t0 := TallyOf(init);
      TallyFirstSeen(init);
      TallyKeys(init);
      assert keys == init + [k];
      FirstSeenStep(init, k, KeysOf(t0));
      if k in KeysOf(t0) {
        BumpKnown(t0, k);
      } else {
        BumpNew(t0, k);
        assert KeysOf(TallyOf(keys)) == KeysOf(t0) + [k];
      }
    }
  }

  // ---- stable sort by descending count ----

  /** Insertion before the first item whose count is not larger. */
  function Insert(x: Tally, t: seq<Tally>): seq<Tally>
    decreases |t|
  {
    if t == [] || x.count >= t[0].count then [x] + t else [t[0]] + Insert(x, t[1..])
  }

  /** `sorted(d.items(), key=lambda x: -x[1])`: Python's sort is stable. */
  function SortByCount(t: seq<Tally>): seq<Tally>
    decreases |t|
  {
    if t == [] then [] else Insert(t[0], SortByCount(t[1..]))
  }

  predicate Descending(t: seq<Tally>) {
    forall i, j :: 0 <= i < j < |t| ==> t[i].count >= t[j].count
  }

  predicate AdjacentDescending(t: seq<Tally>) {
    forall i :: 0 <= i < |t| - 1 ==> t[i].count >= t[i + 1].count
  }

  lemma {:induction false} AdjacentIsDescending(t: seq<Tally>)
    requires AdjacentDescending(t)
    ensures Descending(t)
    decreases |t|
  {
    if t != [] {
      AdjacentIsDescending(t[1..]);
      forall i, j | 0 <= i < j < |t| ensures t[i].count >= t[j].count {
        if i > 0 {
          assert t[i] == t[1..][i - 1] && t[j] == t[1..][j - 1];
        } else if j > 1 {
          assert t[1] == t[1..][0] && t[j] == t[1..][j - 1];
        }
      }
    }
  }

  /** The items with count `c`, in order. */
  function WithCount(t: seq<Tally>, c: nat): seq<Tally>
    decreases |t|
  {
    if t == [] then [] else (if t[0].count == c then [t[0]] else []) + WithCount(t[1..], c)
  }

  lemma {:induction false} InsertPerm(x: Tally, t: seq<Tally>)
    ensures multiset(Insert(x, t)) == multiset(t) + multiset{x}
    decreases |t|
  {
    if t != [] && x.count < t[0].count {
      InsertPerm(x, t[1..]);
      assert t == [t[0]] + t[1..];
    }
  }

  /** The first item after insertion is `x` or the old first item. */
  lemma InsertHead(x: Tally, t: seq<Tally>)
    ensures Insert(x, t)[0] == x || (t != [] && Insert(x, t)[0] == t[0])
  {
  }

  lemma {:induction false} InsertDescending(x: Tally, t: seq<Tally>)
    requires AdjacentDescending(t)
    ensures AdjacentDescending(Insert(x, t))
    decreases |t|
  {
    if t != [] && x.count < t[0].count {
      var rest := Insert(x, t[1..]);
      InsertDescending(x, t[1..]);
      InsertHead(x, t[1..]);
      var r := [t[0]] + rest;
      forall i | 0 <= i < |r| - 1 ensures r[i].count >= r[i + 1].count {
        if i > 0 {
          assert r[i] == rest[i - 1] && r[i + 1] == rest[i];
        } else if rest[0] != x {
          assert t[1..][0] == t[1];
        }
      }
    }
  }

  /** Insertion puts `x` before the items with its count: per count, order is kept. */
  lemma {:induction false} InsertStable(x: Tally, t: seq<Tally>, c: nat)
    ensures WithCount(Insert(x, t), c) == (if x.count == c then [x] else []) + WithCount(t, c)
    decreases |t|
  {
    var r := Insert(x, t);
    var hx := if x.count == c then [x] else [];
    if t == [] || x.count >= t[0].count {
      assert r == [x] + t && r[0] == x && r[1..] == t;
    } else {
      var rest := Insert(x, t[1..]);
      var h0 := if t[0].count == c then [t[0]] else [];
      InsertStable(x, t[1..], c);
      assert r == [t[0]] + rest && r[0] == t[0] && r[1..] == rest;
      assert WithCount(r, c) == h0 + (hx + WithCount(t[1..], c));
      assert WithCount(t, c) == h0 + WithCount(t[1..], c);
      assert h0 == [] || hx == [];
    }
  }

  /**
   * The sorted listing is a permutation of the dict, in descending order of
   * count, and items with equal counts keep their dict order.
   */
  lemma {:induction false} SortByCountFacts(t: seq<Tally>)
    ensures multiset(SortByCount(t)) == multiset(t)
    ensures AdjacentDescending(SortByCount(t))
    ensures Descending(SortByCount(t))
    ensures forall c :: WithCount(SortByCount(t), c) == WithCount(t, c)
    decreases |t|
  {
    if t != [] {
      var s := SortByCount(t[1..]);
      SortByCountFacts(t[1..]);
      InsertPerm(t[0], s);
      InsertDescending(t[0], s);
      assert t == [t[0]] + t[1..];
      forall c ensures WithCount(SortByCount(t), c) == WithCount(t, c) {
        InsertStable(t[0], s, c);
      }
    }
    AdjacentIsDescending(SortByCount(t));
  }

  // ---- rendering ----

  const NoFeedback := "Фидбеков пока нет"

  function Line(item: Tally): string {
    "  • " + item.key + ": " + NatToString(item.count) + "\n"
  }

  function Lines(t: seq<Tally>): string
    decreases |t|
  {
    if t == [] then "" else Lines(t[..|t| - 1]) + Line(t[|t| - 1])
  }

  function StatsHeader(total: nat): string {
    "Статистика фидбека:\n\nВсего записей: " + NatToString(total) + "\n\nПо типам:\n"
  }

  /** The statistics text for the rows the query returned. */
  function StatsText(rows: seq<StatRow>): (text: string)
    ensures text == NoFeedback <==> rows == []
  {
    if rows == [] then NoFeedback
    else
      var text := StatsHeader(|rows|) + Lines(SortByCount(TallyOf(TypeKeys(rows))))
        + "\nПо статусам:\n" + Lines(SortByCount(TallyOf(StatusKeys(rows))));
      assert text[0] == 'С' && NoFeedback[0] == 'Ф';
      text
  }

  /** The counting loop `for row in rows: d[k] = d.get(k, 0) + 1`. */
  method Count(keys: seq<string>) returns (t: seq<Tally>)
    ensures t == TallyOf(keys)
  {
    t := [];
    for i := 0 to |keys|
      invariant t == TallyOf(keys[..i])
    {
      assert keys[..i + 1][..i] == keys[..i];
      t := Bump(t, keys[i]);
    }
    assert keys[..|keys|] == keys;
  }

  /** The listing loop `for k, count in items: result += ...`. */
  method AppendLines(result: string, items: seq<Tally>) returns (r: string)
    ensures r == result + Lines(items)
  {
    r := result;
    for i := 0 to |items|
      invariant r == result + Lines(items[..i])
    {
      assert items[..i + 1][..i] == items[..i];
      r := r + Line(items[i]);
    }
    assert items[..|items|] == items;
  }

  /** `get_feedback_stats` over the rows the query returned. */
  method FeedbackStats(rows: seq<StatRow>) returns (text: string)
    ensures text == StatsText(rows)
  {
    if rows == [] {
      return NoFeedback;
    }
    var byType := Count(TypeKeys(rows));
    var byStatus := Count(StatusKeys(rows));
    text := StatsHeader(|rows|);
    text := AppendLines(text, SortByCount(byType));
    text := text + "\nПо статусам:\n";
    text := AppendLines(text, SortByCount(byStatus));
  }
}
