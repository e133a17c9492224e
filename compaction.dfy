/** History compaction for the chat store (ai_processing/compaction.py):
    all but the last three messages are summarised by the model and replaced
    by one "developer" summary message; in full mode everything is
    summarised. The model is the parameter `summarize`, from the history
    text to the summary text it writes. */
module Compaction {
  import opened Json

  /** A message as a dict, as the chat store keeps it. */
  type DictMessage = map<string, Json>

  const KeepLastN: nat := 3
  const SummaryPrefix := "Summary of earlier conversation: "

  /** `msg.get(key, default)`. */
  function GetOr(m: DictMessage, key: string, default: Json): Json {
    if key in m then m[key] else default
  }

  /** One line of `_format_dict_messages`: `f"{role}: {content}\n"`, with
      "unknown" for a missing role and "" for missing content. */
  function DictLine(py: Py, m: DictMessage): string {
    Str(py, GetOr(m, "role", JStr("unknown"))) + ": " + Str(py, GetOr(m, "content", JStr(""))) + "\n"
  }

  /** The text `_format_dict_messages` builds: one line per message, in order. */
  function DictLines(py: Py, msgs: seq<DictMessage>): string {
    if msgs == [] then "" else DictLines(py, msgs[..|msgs| - 1]) + DictLine(py, msgs[|msgs| - 1])
  }

  /** `_format_dict_messages`: the loop that appends one line per message. */
  method FormatDictMessages(py: Py, msgs: seq<DictMessage>) returns (text: string)
    ensures text == DictLines(py, msgs)
  {
    text := "";
    var k := 0;
    while k < |msgs|
      invariant k <= |msgs|
      invariant text == DictLines(py, msgs[..k])
    {
      assert msgs[..k + 1][..k] == msgs[..k];
      text := text + DictLine(py, msgs[k]);
      k := k + 1;
    }
    assert msgs[..k] == msgs;
  }

  lemma ConcatAssoc<T>(x: seq<T>, y: seq<T>, z: seq<T>)
    ensures (x + y) + z == x + (y + z)
  {
  }

  /** Appending a message appends its line. */
  lemma DictLinesSnoc(py: Py, xs: seq<DictMessage>, m: DictMessage)
    ensures DictLines(py, xs + [m]) == DictLines(py, xs) + DictLine(py, m)
  {
    assert (xs + [m])[..|xs|] == xs;
  }

  /** The text of a list is the text of its parts, one after the other: the
      lines follow the messages in order and none is dropped or repeated. */
  lemma {:induction false} DictLinesAppend(py: Py, a: seq<DictMessage>, b: seq<DictMessage>)
    ensures DictLines(py, a + b) == DictLines(py, a) + DictLines(py, b)
    decreases |b|
  {
    if b == [] {
      assert a + b == a;
    } else {
      var b', m := b[..|b| - 1], b[|b| - 1];
      assert b == b' + [m];
      assert a + b == (a + b') + [m];
      DictLinesSnoc(py, a + b', m);
      DictLinesSnoc(py, b', m);
      DictLinesAppend(py, a, b');
      ConcatAssoc(DictLines(py, a), DictLines(py, b'), DictLine(py, m));
    }
  }

  /** A message whose role and content are text shows as "role: content". */
  lemma DictLineOfText(py: Py, role: string, content: string)
    ensures DictLine(py, map["role" := JStr(role), "content" := JStr(content)]) == role + ": " + content + "\n"
  {
  }

  /** Where `msg_list[:-3]` / `msg_list[-3:]` cut a list of `n` messages:
      Python slices, so a list shorter than three is kept whole. */
  function SplitPoint(n: nat): (p: nat)
    ensures p <= n && n - p == (if n < KeepLastN then n else KeepLastN)
  {
    if n < KeepLastN then 0 else n - KeepLastN
  }

  /** The messages handed to the model. */
  function ToSummarize(msgs: seq<DictMessage>, full: bool): seq<DictMessage> {
    if full then msgs else msgs[..SplitPoint(|msgs|)]
  }

  /** The messages kept verbatim. */
  function ToKeep(msgs: seq<DictMessage>, full: bool): seq<DictMessage> {
    if full then [] else msgs[SplitPoint(|msgs|)..]
  }

  /** The two parts split the list: the summarised messages come first,
      the kept ones are the rest, and nothing is lost or repeated. */
  lemma SplitPartitions(msgs: seq<DictMessage>, full: bool)
    ensures ToSummarize(msgs, full) + ToKeep(msgs, full) == msgs
    ensures full ==> ToSummarize(msgs, full) == msgs && ToKeep(msgs, full) == []
    ensures !full ==> |ToKeep(msgs, full)| == (if |msgs| < KeepLastN then |msgs| else KeepLastN)
  {
    if !full {
      assert msgs[..SplitPoint(|msgs|)] + msgs[SplitPoint(|msgs|)..] == msgs;
    }
  }

  /** A summary message `{"role": role, "content": "Summary of earlier
      conversation: ..."}`. */
  function SummaryMessage(role: string, summary: string): (m: DictMessage)
    ensures m.Keys == {"role", "content"}
  {
    map["role" := JStr(role), "content" := JStr(SummaryPrefix + summary)]
  }

  /** `compact_history`: one model call on the text of the summarised
      messages, whose reply becomes a "developer" summary message, followed
      by the kept messages unchanged and in order. There is no length
      threshold here. */
  function CompactHistory(py: Py, msgs: seq<DictMessage>, summarize: string -> string, full: bool): (r: seq<DictMessage>)
    ensures |r| == 1 + (if full then 0 else if |msgs| < KeepLastN then |msgs| else KeepLastN)
    ensures r[0] == SummaryMessage("developer", summarize(DictLines(py, ToSummarize(msgs, full))))
    ensures full ==> r == [r[0]]
    ensures !full ==> forall k :: 1 <= k < |r| ==> r[k] == msgs[|msgs| - (|r| - 1) + (k - 1)]
  {
    [SummaryMessage("developer", summarize(DictLines(py, ToSummarize(msgs, full))))] + ToKeep(msgs, full)
  }

  /** The result never has more than four messages, and compacting a list
      of more than four makes it strictly shorter. */
  lemma CompactionBounded(py: Py, msgs: seq<DictMessage>, summarize: string -> string, full: bool)
    ensures |CompactHistory(py, msgs, summarize, full)| <= KeepLastN + 1
    ensures |msgs| > KeepLastN + 1 ==> |CompactHistory(py, msgs, summarize, full)| < |msgs|
  {
  }
}
