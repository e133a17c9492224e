/** The billing agent's compaction (agents/billing/compaction.py): a
    history of more than ten items becomes one "system" summary followed by
    the last four items. The list mixes message objects, dicts and anything
    else the caller put there. */
module BillingCompaction {
  import opened Wrappers
  import opened Json
  import opened PyText
  import opened States
  import opened Compaction

  const CompactionThreshold: nat := 10
  const KeepLastMessages: nat := 4

  /** An entry of `state["messages"]` as this file sees it: a message object
      (it has `.content`), a dict, or something else. */
  datatype Item = Message(msg: ChatMessage) | Entry(fields: DictMessage) | Opaque

  /** A dict whose role, when present, is not text: `.capitalize()` raises. */
  predicate BadRole(it: Item) {
    it.Entry? && "role" in it.fields && !it.fields["role"].JStr?
  }

  /** One line of `_format_messages_to_string`: "Customer" for a human
      message, "Agent" for any other message object, the capitalised role of
      a dict ("unknown" when it has none); other items give no line. */
  function ItemLine(py: Py, it: Item): (r: Result<string, Fault>)
    ensures r.Failure? <==> BadRole(it)
  {
    match it
    case Message(m) => Success((if m.HumanMessage? then "Customer" else "Agent") + ": " + m.content + "\n")
    case Entry(d) =>
      var role := GetOr(d, "role", JStr("unknown"));
      if !role.JStr? then Failure(NoAttribute)
      else Success(Capitalize(role.s) + ": " + Str(py, GetOr(d, "content", JStr(""))) + "\n")
    case Opaque => Success("")
  }

  /** The text `_format_messages_to_string` builds, or the fault of the
      first item it cannot format. */
  function HistoryText(py: Py, items: seq<Item>): (r: Result<string, Fault>)
    ensures r.Failure? ==> r.error == NoAttribute
  {
    if items == [] then Success("")
    else match HistoryText(py, items[..|items| - 1])
      case Failure(e) => Failure(e)
      case Success(t) =>
        match ItemLine(py, items[|items| - 1])
        case Failure(e) => Failure(e)
        case Success(line) => Success(t + line)
  }

  /** Formatting fails exactly when some dict has a role that is not text. */
  lemma {:induction false} HistoryTextFails(py: Py, items: seq<Item>)
    ensures HistoryText(py, items).Failure? <==> exists k :: 0 <= k < |items| && BadRole(items[k])
  {
    if items != [] {
      var init := items[..|items| - 1];
      HistoryTextFails(py, init);
      if exists k :: 0 <= k < |init| && BadRole(init[k]) {
        var k :| 0 <= k < |init| && BadRole(init[k]);
        assert items[k] == init[k];
      }
      if exists k :: 0 <= k < |items| && BadRole(items[k]) {
        var k :| 0 <= k < |items| && BadRole(items[k]);
        if k < |init| {
          assert init[k] == items[k];
        }
      }
    }
  }

  /** `_format_messages_to_string`: the loop over the items. */
  method FormatMessagesToString(py: Py, items: seq<Item>) returns (r: Result<string, Fault>)
    ensures r == HistoryText(py, items)
  {
    var text := "";
    var k := 0;
    while k < |items|
      invariant k <= |items|
      invariant HistoryText(py, items[..k]) == Success(text)
    {
      assert items[..k + 1][..k] == items[..k];
      var it := items[k];
      var line := "";
      if it.Message? {
        var role := if it.msg.HumanMessage? then "Customer" else "Agent";
        line := role + ": " + it.msg.content + "\n";
      } else if it.Entry? {
        var role := GetOr(it.fields, "role", JStr("unknown"));
        if !role.JStr? {
          assert BadRole(items[k]);
          HistoryTextFails(py, items);
          return Failure(NoAttribute);
        }
        line := Capitalize(role.s) + ": " + Str(py, GetOr(it.fields, "content", JStr(""))) + "\n";
      }
      assert ItemLine(py, it) == Success(line);
      text := text + line;
      k := k + 1;
    }
    assert items[..k] == items;
    r := Success(text);
  }

  /** `compact_conversation_history` on the item list, with `summarize`
      standing for the model call on the formatted history. Ten items or
      fewer come back unchanged and the model is not called; otherwise the
      first n-4 items are summarised into one "system" dict, followed by the
      last four items unchanged. */
  function CompactConversation(py: Py, items: seq<Item>, summarize: string -> string): (r: Result<seq<Item>, Fault>)
    ensures |items| <= CompactionThreshold ==> r == Success(items)
    ensures |items| > CompactionThreshold && r.Success? ==>
      |r.value| == KeepLastMessages + 1
      && r.value[1..] == items[|items| - KeepLastMessages..]
      && HistoryText(py, items[..|items| - KeepLastMessages]).Success?
      && r.value[0] == Entry(SummaryMessage("system",
           summarize(HistoryText(py, items[..|items| - KeepLastMessages]).value)))
    ensures r.Failure? ==>
      |items| > CompactionThreshold && exists k :: 0 <= k < |items| - KeepLastMessages && BadRole(items[k])
  {
    if |items| <= CompactionThreshold then Success(items)
    else
      var older := items[..|items| - KeepLastMessages];
      match HistoryText(py, older)
      case Failure(e) =>
        HistoryTextFails(py, older);
        var k :| 0 <= k < |older| && BadRole(older[k]);
        assert items[k] == older[k];
        Failure(e)
      case Success(t) =>
        Success([Entry(SummaryMessage("system", summarize(t)))] + items[|items| - KeepLastMessages..])
  }

  /** Compacting twice changes nothing the first pass did not: its output
      has five items, under the threshold, whatever model runs next. */
  lemma CompactionIdempotent(py: Py, items: seq<Item>, summarize: string -> string, again: string -> string)
    requires CompactConversation(py, items, summarize).Success?
    ensures CompactConversation(py, CompactConversation(py, items, summarize).value, again)
         == CompactConversation(py, items, summarize)
  {
  }
}
