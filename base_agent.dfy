/** The tool-using worker (agents/base_agent.py): a node that asks the model
    about the current task, runs the tools the model calls and asks again,
    parses the model's final reply as JSON and turns its `action` into
    changes of the task list and the human-input flags. The model, the
    retriever and `json.loads` are oracles. */
module BaseAgent {
  import opened Wrappers
  import opened Json
  import opened PyText
  import opened States
  import opened Scheduler
  import opened Compaction
  import opened ChatStore

  // ---------------------------------------------------------------------
  // The model's replies and the oracles
  // ---------------------------------------------------------------------

  /** A `function_call` item of a reply: the tool's name and its arguments
      as JSON text. */
  datatype ToolCall = ToolCall(name: string, arguments: string)

  /** One reply of the model: its function calls, in order, and the text of
      its first output's first content part (`None` when the reply has no
      such part). */
  datatype LlmResponse = LlmResponse(calls: seq<ToolCall>, text: Option<string>)

  /** The opaque parts of a run: the model's successive replies to
      `invoke`, the model's summary inside compaction, the retriever's
      `extract` and `json.loads`. A run that needs more replies than
      `responses` holds stands for the recursion limit being reached. */
  datatype Oracles = Oracles(
    responses: seq<LlmResponse>,
    summarize: string -> string,
    extract: Json -> string,
    parse: string -> Option<Json>)

  // ---------------------------------------------------------------------
  // _parse_llm_response
  // ---------------------------------------------------------------------

  /** `re.sub(r"^```(?:json)?", "", t)`: one opening fence, with its
      language tag when there is one. */
  function DropOpeningFence(t: string): string {
    if StartsWith(t, "```json") then t[7..]
    else if StartsWith(t, "```") then t[3..]
    else t
  }

  /** `re.sub(r"```$", "", t)` on stripped text: one closing fence. */
  function DropClosingFence(t: string): string {
    if EndsWith(t, "```") then t[..|t| - 3] else t
  }

  /** The text the parser is given: stripped, unfenced, stripped again. */
  function CleanResponse(raw: string): (r: string)
    ensures Stripped(r)
  {
    StripIsStripped(DropClosingFence(DropOpeningFence(Strip(raw))));
    Strip(DropClosingFence(DropOpeningFence(Strip(raw))))
  }

  /** A JSON array or object: what the model is asked to send. */
  predicate JsonPayload(body: string) {
    Stripped(body) && body != [] && (body[0] == '[' || body[0] == '{')
  }

  /** Once the opening fence is gone, the closing fence and the whitespace
      inside the block are removed. */
  lemma InnerBlock(v1: string, body: string, v2: string)
    requires AllSpace(v1) && AllSpace(v2) && JsonPayload(body)
    ensures Strip(DropClosingFence(v1 + body + v2 + "```")) == body
  {
    var c := v1 + body + v2 + "```";
    assert c[..|c| - 3] == v1 + body + v2;
    StripAround(v1, body, v2);
  }

  /** A payload fenced as a "```json" block, with whitespace around the
      block and inside it, reaches the parser exactly as it was sent. */
  lemma FencedJsonReply(w1: string, v1: string, body: string, v2: string, w2: string)
    requires AllSpace(w1) && AllSpace(v1) && AllSpace(v2) && AllSpace(w2) && JsonPayload(body)
    ensures CleanResponse(w1 + "```json" + v1 + body + v2 + "```" + w2) == body
  {
    var fenced := "```json" + v1 + body + v2 + "```";
    assert w1 + "```json" + v1 + body + v2 + "```" + w2 == w1 + fenced + w2;
    assert Stripped(fenced);
    StripAround(w1, fenced, w2);
    assert fenced[..7] == "```json";
    assert fenced[7..] == v1 + body + v2 + "```";
    InnerBlock(v1, body, v2);
  }

  /** So does a payload fenced with a bare "```". */
  lemma FencedPlainReply(w1: string, v1: string, body: string, v2: string, w2: string)
    requires AllSpace(w1) && AllSpace(v1) && AllSpace(v2) && AllSpace(w2) && JsonPayload(body)
    ensures CleanResponse(w1 + "```" + v1 + body + v2 + "```" + w2) == body
  {
    var fenced := "```" + v1 + body + v2 + "```";
    assert w1 + "```" + v1 + body + v2 + "```" + w2 == w1 + fenced + w2;
    assert Stripped(fenced);
    StripAround(w1, fenced, w2);
    assert fenced[3] == (if v1 == [] then body[0] else v1[0]);
    assert !StartsWith(fenced, "```json") by {
      if |fenced| >= 7 {
        assert fenced[..7][3] == fenced[3];
      }
    }
    assert fenced[..3] == "```";
    assert fenced[3..] == v1 + body + v2 + "```";
    InnerBlock(v1, body, v2);
  }

  /** A quote the repair rewrites: a `'` not preceded by a backslash. */
  predicate BareQuote(s: string, i: nat)
    requires i < |s|
  {
    s[i] == '\'' && (i == 0 || s[i - 1] != '\\')
  }

  /** `re.sub(r"(?<!\\)'", '"', s)`: every bare single quote becomes a
      double quote; nothing else changes. */
  function RepairQuotes(s: string): (r: string)
    ensures |r| == |s|
    ensures forall i :: 0 <= i < |s| && BareQuote(s, i) ==> r[i] == '"'
    ensures forall i :: 0 <= i < |s| && !BareQuote(s, i) ==> r[i] == s[i]
  {
    seq(|s|, i requires 0 <= i < |s| => if BareQuote(s, i) then '"' else s[i])
  }

  /** After the repair, every single quote left is escaped. */
  lemma RepairLeavesEscapedQuotes(s: string, i: nat)
    requires i < |s| && RepairQuotes(s)[i] == '\''
    ensures i > 0 && RepairQuotes(s)[i - 1] == '\\'
  {
    assert !BareQuote(s, i);
    assert s[i - 1] == '\\' && !BareQuote(s, i - 1);
  }

  /** The repair is idempotent: a second pass finds nothing to rewrite. */
  lemma RepairIdempotent(s: string)
    ensures RepairQuotes(RepairQuotes(s)) == RepairQuotes(s)
  {
    var r := RepairQuotes(s);
    forall i | 0 <= i < |r|
      ensures RepairQuotes(r)[i] == r[i]
    {
      if BareQuote(r, i) {
        RepairLeavesEscapedQuotes(s, i);
      }
    }
  }

  /** The dict `_parse_llm_response` returns for a reply it cannot use. */
  function ErrorAnalysis(reason: string): Json {
    JObj(map["error" := JStr(reason)])
  }

  const EmptyResponse := "Empty response from LLM"
  const FailedToParse := "Failed to parse JSON"

  /** `_parse_llm_response`: a reply without text is an error dict; the
      cleaned text is parsed, and when that fails an empty text is an
      error dict while any other is parsed once more after the quote
      repair, whose failure propagates. */
  function ParseLlmResponse(text: Option<string>, parse: string -> Option<Json>): (r: Result<Json, Fault>)
    ensures text.None? ==> r == Success(ErrorAnalysis(EmptyResponse))
    ensures text.Some? && parse(CleanResponse(text.value)).Some? ==>
      r == Success(parse(CleanResponse(text.value)).value)
    ensures text.Some? && parse(CleanResponse(text.value)).None? && CleanResponse(text.value) == "" ==>
      r == Success(ErrorAnalysis(FailedToParse))
    ensures text.Some? && parse(CleanResponse(text.value)).None? && CleanResponse(text.value) != "" ==>
      r == (if parse(RepairQuotes(CleanResponse(text.value))).Some?
            then Success(parse(RepairQuotes(CleanResponse(text.value))).value)
            else Failure(DecodeError))
    ensures r.Failure? ==> r.error == DecodeError
  {
    match text
    case None => Success(ErrorAnalysis(EmptyResponse))
    case Some(raw) =>
      var clean := CleanResponse(raw);
      match parse(clean)
      case Some(j) => Success(j)
      case None =>
        if clean == "" then Success(ErrorAnalysis(FailedToParse))
        else
          match parse(RepairQuotes(clean))
          case Some(j) => Success(j)
          case None => Failure(DecodeError)
  }

  /** A fenced JSON reply that decodes is returned as decoded, and the
      repair is never consulted. */
  lemma FencedReplyDecodes(w1: string, v1: string, body: string, v2: string, w2: string, parse: string -> Option<Json>)
    requires AllSpace(w1) && AllSpace(v1) && AllSpace(v2) && AllSpace(w2) && JsonPayload(body)
    requires parse(body).Some?
    ensures ParseLlmResponse(Some(w1 + "```json" + v1 + body + v2 + "```" + w2), parse) == Success(parse(body).value)
  {
    FencedJsonReply(w1, v1, body, v2, w2);
  }

  /** The parse fails only when both the text and its repair fail to decode
      and the text is not empty. */
  lemma ParseFailsExactly(text: Option<string>, parse: string -> Option<Json>)
    ensures ParseLlmResponse(text, parse).Failure? <==>
      text.Some? && CleanResponse(text.value) != ""
      && parse(CleanResponse(text.value)).None? && parse(RepairQuotes(CleanResponse(text.value))).None?
  {
  }

  // ---------------------------------------------------------------------
  // _handle_tool_execution
  // ---------------------------------------------------------------------

  const ExecutionFailed := "Error execution failed: "
  const UnknownTool := "Error: Unknown tool "

  /** What `_handle_tool_execution` reports for one call: the arguments
      must decode (else the decode error is reported); then an unknown name
      is reported as such; a known tool is called with the decoded dict as
      keywords and its result, or the exception it raised, is reported. */
  function ToolResult(py: Py, tools: map<string, ToolFn>, parse: string -> Option<Json>, call: ToolCall): string {
    match parse(call.arguments)
    case None => ExecutionFailed + py.describe(DecodeError)
    case Some(params) =>
      if call.name !in tools then UnknownTool + call.name
      else if !params.JObj? then ExecutionFailed + py.describe(NotAMapping)
      else
        match tools[call.name](params.fields)
        case Success(v) => Str(py, v)
        case Failure(e) => ExecutionFailed + py.describe(e)
  }

  /** The message text recorded for one call. */
  function ToolReport(py: Py, tools: map<string, ToolFn>, parse: string -> Option<Json>, call: ToolCall): (r: string)
    ensures StartsWith(r, "Tool '" + call.name + "' result: ")
  {
    var head := "Tool '" + call.name + "' result: ";
    assert (head + ToolResult(py, tools, parse, call))[..|head|] == head;
    head + ToolResult(py, tools, parse, call)
  }

  /** The messages the calls of one reply add, one per call, in order. */
  function ToolMessages(py: Py, tools: map<string, ToolFn>, parse: string -> Option<Json>, calls: seq<ToolCall>, now: string): (r: seq<DictMessage>)
    ensures |r| == |calls|
  {
    seq(|calls|, k requires 0 <= k < |calls| => StoredMessage("developer", ToolReport(py, tools, parse, calls[k]), now))
  }

  /** Every call is reported under its own name, in the order of the calls,
      as a "developer" message. */
  lemma ToolMessagesInOrder(py: Py, tools: map<string, ToolFn>, parse: string -> Option<Json>, calls: seq<ToolCall>, now: string, k: nat)
    requires k < |calls|
    ensures var m := ToolMessages(py, tools, parse, calls, now)[k];
      m["role"] == JStr("developer") && m["content"].JStr?
      && StartsWith(m["content"].s, "Tool '" + calls[k].name + "' result: ")
  {
  }

  /** The ways a call can fail, and only those: undecodable arguments, an
      unknown name, arguments that are not a dict, or a tool that refuses
      the keywords or raises. A known tool given a dict it accepts reports
      its result. */
  lemma ToolResultCases(py: Py, tools: map<string, ToolFn>, parse: string -> Option<Json>, call: ToolCall)
    ensures parse(call.arguments).None? ==> ToolResult(py, tools, parse, call) == ExecutionFailed + py.describe(DecodeError)
    ensures parse(call.arguments).Some? && call.name !in tools ==> ToolResult(py, tools, parse, call) == UnknownTool + call.name
    ensures (parse(call.arguments).Some? && call.name in tools && parse(call.arguments).value.JObj?
             && tools[call.name](parse(call.arguments).value.fields).Success?) ==>
      ToolResult(py, tools, parse, call) == Str(py, tools[call.name](parse(call.arguments).value.fields).value)
    ensures (parse(call.arguments).Some? && call.name in tools && !parse(call.arguments).value.JObj?) ==>
      ToolResult(py, tools, parse, call) == ExecutionFailed + py.describe(NotAMapping)
    ensures (parse(call.arguments).Some? && call.name in tools && parse(call.arguments).value.JObj?
             && tools[call.name](parse(call.arguments).value.fields).Failure?) ==>
      ToolResult(py, tools, parse, call) == ExecutionFailed + py.describe(tools[call.name](parse(call.arguments).value.fields).error)
  {
  }

  // ---------------------------------------------------------------------
  // The dispatch on the analysis
  // ---------------------------------------------------------------------

  /** The closed set of outcomes of one analysis: ask the customer (actions
      "need_info" and "respond"), finish the task ("completed"), only raise
      the human-input flag (any other action), or take the error path. */
  datatype Action = Ask(prompt: string) | Finish(result: string) | Unrecognised | Fail

  /** The action an analysis selects. An analysis that is not a dict, or
      that holds "error", takes the error path; a missing action means
      "respond" and a missing message means `str(analysis)`. */
  function ActionOf(py: Py, analysis: Result<Json, Fault>): Action {
    match analysis
    case Failure(_) => Fail
    case Success(j) =>
      if !j.JObj? || "error" in j.fields then Fail
      else
        var action := GetOr(j.fields, "action", JStr("respond"));
        var text := Str(py, GetOr(j.fields, "message", JStr(Str(py, j))));
        if action == JStr("need_info") || action == JStr("respond") then Ask(text)
        else if action == JStr("completed") then Finish(text)
        else Unrecognised
  }

  /** "need_info" and "respond" are the same action, and an analysis
      without an action responds; neither holds for a reply carrying
      "error". */
  lemma NeedInfoIsRespond(py: Py, fields: map<string, Json>)
    requires "message" in fields && "error" !in fields
    ensures ActionOf(py, Success(JObj(fields["action" := JStr("need_info")])))
         == ActionOf(py, Success(JObj(fields["action" := JStr("respond")])))
         == ActionOf(py, Success(JObj(fields - {"action"})))
         == Ask(Str(py, fields["message"]))
  {
  }

  /** An analysis carrying "error" takes the error path whatever else it
      says. */
  lemma ErrorKeyFails(py: Py, fields: map<string, Json>)
    requires "error" in fields
    ensures ActionOf(py, Success(JObj(fields))) == Fail
  {
  }

  /** The text the error path logs and stores as the task's result. */
  function ErrorReply(name: string): string {
    "I encountered an error while processing your request in " + name + ". Please try again."
  }

  /** The first task with id `id` becomes COMPLETED with `result`; the
      others are untouched. */
  function CompleteFirst(tasks: seq<SubTask>, id: string, result: string): (r: seq<SubTask>)
    ensures |r| == |tasks|
    ensures forall k :: 0 <= k < |r| ==>
      r[k] == tasks[k] || r[k] == tasks[k].(status := Completed, result := Some(result))
  {
    match FindById(tasks, id)
    case None => tasks
    case Some(k) => tasks[k := tasks[k].(status := Completed, result := Some(result))]
  }

  /** `_mark_task_completed` on the task `current` refers to: `None` when
      it raises, which it does on the first iteration when there is no
      current task but the list is not empty. */
  function MarkCompleted(tasks: seq<SubTask>, current: Option<nat>, result: string): (r: Option<seq<SubTask>>)
    requires current.Some? ==> current.value < |tasks|
    ensures r.None? <==> current.None? && tasks != []
    ensures r.Some? ==> |r.value| == |tasks|
    ensures r.Some? ==> forall k :: 0 <= k < |tasks| ==>
      r.value[k] == tasks[k] || r.value[k] == tasks[k].(status := Completed, result := Some(result))
  {
    if tasks == [] then Some([])
    else if current.None? then None
    else Some(CompleteFirst(tasks, tasks[current.value].taskId, result))
  }

  /** With unique ids, it is the current task that is completed, with the
      given result, and no other task changes. */
  lemma MarkCompletedCurrent(tasks: seq<SubTask>, i: nat, result: string)
    requires i < |tasks| && UniqueIds(tasks)
    ensures MarkCompleted(tasks, Some(i), result)
         == Some(tasks[i := tasks[i].(status := Completed, result := Some(result))])
  {
    var found := FindById(tasks, tasks[i].taskId);
    assert found.Some?;
    assert found.value == i;
  }

  /** The part of the state one worker step changes. */
  datatype Effect = Effect(
    subtasks: seq<SubTask>,
    currentTask: Option<nat>,
    needsHumanInput: bool,
    humanInputPrompt: Option<string>,
    raised: bool)

  /** The error path: the task is completed with the error text and
      `current_task` cleared, unless marking it raises. */
  function Recover(name: string, tasks: seq<SubTask>, current: Option<nat>, needs: bool, prompt: Option<string>): (e: Effect)
    requires current.Some? ==> current.value < |tasks|
  {
    match MarkCompleted(tasks, current, ErrorReply(name))
    case Some(t) => Effect(t, None, needs, prompt, false)
    case None => Effect(tasks, current, needs, prompt, true)
  }

  /** What `process_request` does to the state once the analysis has
      selected `act`. Asking blocks the current task; a missing current task
      makes the write raise, which the error path catches. */
  function StepEffect(name: string, tasks: seq<SubTask>, current: Option<nat>, needs: bool, prompt: Option<string>, act: Action): (e: Effect)
    requires current.Some? ==> current.value < |tasks|
    ensures |e.subtasks| == |tasks|
    ensures e.currentTask.Some? ==> e.currentTask == current
  {
    match act
    case Ask(text) =>
      if current.Some? then
        Effect(tasks[current.value := tasks[current.value].(status := Blocked)], current, true, Some(text), false)
      else Recover(name, tasks, current, true, Some(text))
    case Finish(text) =>
      (match MarkCompleted(tasks, current, text)
       case Some(t) => Effect(t, None, needs, prompt, false)
       case None => Recover(name, tasks, current, needs, prompt))
    case Unrecognised => Effect(tasks, current, true, prompt, false)
    case Fail => Recover(name, tasks, current, needs, prompt)
  }

  /** The step raises out of the node exactly when there is no current task,
      the task list is not empty and the action is not an unrecognised one. */
  lemma StepRaisesExactly(name: string, tasks: seq<SubTask>, current: Option<nat>, needs: bool, prompt: Option<string>, act: Action)
    requires current.Some? ==> current.value < |tasks|
    ensures StepEffect(name, tasks, current, needs, prompt, act).raised
      <==> current.None? && tasks != [] && !act.Unrecognised?
  {
    match act
    case Ask(text) =>
    case Finish(text) =>
    case Unrecognised =>
    case Fail =>
  }

  /** No step sets a task FAILED, and none makes a task PENDING. */
  lemma StepNeverFails(name: string, tasks: seq<SubTask>, current: Option<nat>, needs: bool, prompt: Option<string>, act: Action, k: nat)
    requires current.Some? ==> current.value < |tasks|
    requires k < |tasks|
    ensures var e := StepEffect(name, tasks, current, needs, prompt, act);
      (e.subtasks[k].status == Failed ==> tasks[k].status == Failed)
      && (e.subtasks[k].status == Pending ==> tasks[k].status == Pending)
  {
    var e := StepEffect(name, tasks, current, needs, prompt, act);
    assert e.subtasks[k].status in {tasks[k].status, Blocked, Completed} by {
      match act
      case Ask(text) =>
      case Finish(text) =>
      case Unrecognised =>
      case Fail =>
    }
  }

  /** With unique ids and a current task, the step either blocks it and
      asks (setting the prompt), completes it (with the reply or the error
      text) and clears `current_task`, or only raises the flag; no other
      task changes, and the step never raises. */
  lemma StepOnCurrent(name: string, tasks: seq<SubTask>, i: nat, needs: bool, prompt: Option<string>, act: Action)
    requires i < |tasks| && UniqueIds(tasks)
    ensures var e := StepEffect(name, tasks, Some(i), needs, prompt, act);
      !e.raised
      && (forall k :: 0 <= k < |tasks| && k != i ==> e.subtasks[k] == tasks[k])
      && (act.Ask? ==> e.subtasks[i].status == Blocked && e.needsHumanInput && e.humanInputPrompt == Some(act.prompt)
                       && e.currentTask == Some(i))
      && (act.Finish? ==> e.subtasks[i].status == Completed && e.subtasks[i].result == Some(act.result)
                          && e.currentTask == None)
      && (act.Fail? ==> e.subtasks[i].status == Completed && e.subtasks[i].result == Some(ErrorReply(name))
                        && e.currentTask == None)
      && (act.Unrecognised? ==> e.subtasks == tasks && e.needsHumanInput && e.currentTask == Some(i))
  {
    if act.Finish? {
      MarkCompletedCurrent(tasks, i, act.result);
    } else if act.Fail? {
      MarkCompletedCurrent(tasks, i, ErrorReply(name));
    }
  }

  /** Whether the error path runs for this analysis: it is unusable, or
      its action writes to a missing current task. */
  predicate Recovers(py: Py, analysis: Result<Json, Fault>, tasks: seq<SubTask>, current: Option<nat>)
    requires current.Some? ==> current.value < |tasks|
  {
    var act := ActionOf(py, analysis);
    act.Fail? || (act.Ask? && current.None?) || (act.Finish? && MarkCompleted(tasks, current, act.result).None?)
  }

  /** On the error path, the step is the recovery from the state the
      failed `try` left: the flags an ask had set stay set. */
  lemma StepOnError(name: string, py: Py, a: Result<Json, Fault>, tasks: seq<SubTask>, current: Option<nat>, needs: bool, prompt: Option<string>)
    requires current.Some? ==> current.value < |tasks|
    requires Recovers(py, a, tasks, current)
    ensures var act := ActionOf(py, a);
      StepEffect(name, tasks, current, needs, prompt, act)
      == Recover(name, tasks, current, act.Ask? || needs, if act.Ask? then Some(act.prompt) else prompt)
  {
  }

  /** The messages `process_request` adds after the analysis: the analysis
      as JSON when it is a usable dict, then the error text when the error
      path runs. */
  function Logged(py: Py, name: string, analysis: Result<Json, Fault>, tasks: seq<SubTask>, current: Option<nat>, now: string): seq<DictMessage>
    requires current.Some? ==> current.value < |tasks|
  {
    (if ActionOf(py, analysis).Fail? then [] else [StoredMessage("assistant", py.dumps(analysis.value), now)])
    + (if Recovers(py, analysis, tasks, current) then [StoredMessage("developer", ErrorReply(name), now)] else [])
  }

  /** The first reply without function calls: the one that is parsed. */
  function FirstTextReply(responses: seq<LlmResponse>): (r: Option<nat>)
    ensures r.Some? ==> r.value < |responses| && responses[r.value].calls == []
    ensures r.Some? ==> forall k :: 0 <= k < r.value ==> responses[k].calls != []
    ensures r.None? ==> forall k :: 0 <= k < |responses| ==> responses[k].calls != []
  {
    if responses == [] then None
    else if responses[0].calls == [] then Some(0)
    else match FirstTextReply(responses[1..])
      case None => None
      case Some(k) => Some(k + 1)
  }

  /** The analysis the rounds from `round` on yield when the thread
      exists: each reply with calls leads to the next round. */
  function AnalysisFrom(o: Oracles, round: nat): Result<Json, Fault>
    requires round <= |o.responses|
    decreases |o.responses| - round
  {
    if round == |o.responses| then Failure(RecursionLimit)
    else if o.responses[round].calls == [] then ParseLlmResponse(o.responses[round].text, o.parse)
    else AnalysisFrom(o, round + 1)
  }

  /** A run's analysis is the parse of the first reply without calls, or
      the recursion limit when every reply calls tools. */
  lemma {:induction false} AnalysisIsFirstTextReply(o: Oracles, round: nat)
    requires round <= |o.responses|
    requires forall k :: 0 <= k < round ==> o.responses[k].calls != []
    ensures AnalysisFrom(o, round) == match FirstTextReply(o.responses)
      case None => Failure(RecursionLimit)
      case Some(k) => ParseLlmResponse(o.responses[k].text, o.parse)
    decreases |o.responses| - round
  {
    if round < |o.responses| && o.responses[round].calls != [] {
      AnalysisIsFirstTextReply(o, round + 1);
    }
  }

  /** The user message the retriever is given: the first message's content,
      or the empty text. */
  function Opening(history: Option<seq<DictMessage>>): Json
    requires history.Some? ==> forall k :: 0 <= k < |history.value| ==> "content" in history.value[k]
  {
    if history.Some? && history.value != [] then history.value[0]["content"] else JStr("")
  }

  /** The history of a thread, empty when it does not exist. */
  function Thread(threads: map<(string, string), seq<DictMessage>>, key: (string, string)): seq<DictMessage> {
    if key in threads then threads[key] else []
  }

  /** `after` differs from `before` at most in the thread under `key`,
      which it keeps once `before` has it. */
  predicate OnlyThread(before: map<(string, string), seq<DictMessage>>, after: map<(string, string), seq<DictMessage>>,
                       key: (string, string)) {
    after == before || (key in after && after == before[key := after[key]])
  }

  lemma OnlyThreadStep(a: map<(string, string), seq<DictMessage>>, b: map<(string, string), seq<DictMessage>>,
                       c: map<(string, string), seq<DictMessage>>, key: (string, string))
    requires OnlyThread(a, b, key) && OnlyThread(b, c, key)
    ensures OnlyThread(a, c, key)
  {
    if c != a && c != b && b != a {
      assert c == a[key := c[key]];
    }
  }

  /** The history ends with `tail`. */
  predicate EndsWithMessages(history: seq<DictMessage>, tail: seq<DictMessage>) {
    |tail| <= |history| && history[|history| - |tail|..] == tail
  }

  /** An append to the thread under `key` keeps the other threads. */
  lemma OnlyThreadAdd(a: map<(string, string), seq<DictMessage>>, b: map<(string, string), seq<DictMessage>>,
                      c: map<(string, string), seq<DictMessage>>, key: (string, string))
    requires OnlyThread(a, b, key) && key in c && c == b[key := c[key]]
    ensures OnlyThread(a, c, key)
  {
    OnlyThreadStep(a, b, c, key);
  }

  // ---------------------------------------------------------------------
  // The node
  // ---------------------------------------------------------------------

  class BaseAgentNode {
    const name: string
    const hasClient: bool
    const tools: map<string, ToolFn>
    const chat: ChatManager

    constructor (name: string, hasClient: bool, tools: map<string, ToolFn>, chat: ChatManager)
      ensures this.name == name && this.hasClient == hasClient && this.tools == tools && this.chat == chat
    {
      this.name := name;
      this.hasClient := hasClient;
      this.tools := tools;
      this.chat := chat;
    }

    /** `_handle_tool_execution`: never raises, and adds exactly one
        message, the report of this call, to the thread. */
    method HandleToolExecution(py: Py, parse: string -> Option<Json>, call: ToolCall, now: string)
      modifies chat
      ensures chat.threads == old(chat.threads)[chat.Key() := Thread(old(chat.threads), chat.Key())
                                 + [StoredMessage("developer", ToolReport(py, tools, parse, call), now)]]
    {
      var result: string;
      var params := parse(call.arguments);
      if params.None? {
        result := ExecutionFailed + py.describe(DecodeError);
      } else if call.name !in tools {
        result := UnknownTool + call.name;
      } else if !params.value.JObj? {
        result := ExecutionFailed + py.describe(NotAMapping);
      } else {
        var outcome := tools[call.name](params.value.fields);
        if outcome.Success? {
          result := Str(py, outcome.value);
        } else {
          result := ExecutionFailed + py.describe(outcome.error);
        }
      }
      assert result == ToolResult(py, tools, parse, call);
      chat.AddMessage("developer", "Tool '" + call.name + "' result: " + result, now);
    }

    /** The calls of one reply, executed in order: one report each,
        appended to the thread in the order of the calls. */
    method ExecuteToolCalls(py: Py, parse: string -> Option<Json>, calls: seq<ToolCall>, now: string)
      modifies chat
      ensures calls == [] ==> chat.threads == old(chat.threads)
      ensures calls != [] ==> chat.threads == old(chat.threads)[chat.Key() := Thread(old(chat.threads), chat.Key())
                                                 + ToolMessages(py, tools, parse, calls, now)]
    {
      ghost var base := Thread(chat.threads, chat.Key());
      var i := 0;
      while i < |calls|
        invariant i <= |calls|
        invariant i == 0 ==> chat.threads == old(chat.threads)
        invariant i > 0 ==> chat.threads == old(chat.threads)[chat.Key() := base + ToolMessages(py, tools, parse, calls[..i], now)]
      {
        ghost var before := chat.threads;
        assert Thread(before, chat.Key()) == base + ToolMessages(py, tools, parse, calls[..i], now);
        HandleToolExecution(py, parse, calls[i], now);
        ghost var done := ToolMessages(py, tools, parse, calls[..i], now);
        ghost var m := StoredMessage("developer", ToolReport(py, tools, parse, calls[i]), now);
        assert ToolMessages(py, tools, parse, calls[..i + 1], now) == done + [m];
        assert chat.threads == before[chat.Key() := (base + done) + [m]];
        ConcatAssoc(base, done, [m]);
        i := i + 1;
      }
      assert calls[..i] == calls;
    }

    /** The context step of a round: while the context is empty, the
        retriever's text for the first message replaces it. */
    method ExtractContext(s: AgentState, history: Option<seq<DictMessage>>, extract: Json -> string)
      requires history.Some? ==> forall k :: 0 <= k < |history.value| ==> "content" in history.value[k]
      modifies s`agentContext
      ensures s.agentContext == if old(s.agentContext).Truthy() then old(s.agentContext) else Retrieved(extract(Opening(history)))
    {
      if !s.agentContext.Truthy() {
        var opening := if history.Some? && history.value != [] then history.value[0]["content"] else JStr("");
        s.agentContext := Retrieved(extract(opening));
      }
    }

    /** One call of `_analyze_request` without its recursive call: read the
        thread, extract the context while it is empty, then either parse a
        reply without calls (`done`) or run the reply's calls. Reading a
        missing thread ends the analysis with the TypeError of `*None`. */
    method AskOnce(s: AgentState, py: Py, o: Oracles, round: nat, now: string) returns (done: bool, analysis: Result<Json, Fault>)
      requires round < |o.responses|
      modifies chat, s`agentContext
      ensures OnlyThread(old(chat.threads), chat.threads, chat.Key())
      ensures chat.Key() in old(chat.threads) ==> chat.Key() in chat.threads
      ensures chat.Key() !in old(chat.threads) ==> done && analysis == Failure(NotIterable) && chat.threads == old(chat.threads)
      ensures chat.Key() in old(chat.threads) ==> (done <==> o.responses[round].calls == [])
      ensures chat.Key() in old(chat.threads) && done ==> analysis == ParseLlmResponse(o.responses[round].text, o.parse)
      ensures s.agentContext == if old(s.agentContext).Truthy() then old(s.agentContext)
        else Retrieved(o.extract(Opening(ReadThread(py, o.summarize, old(chat.threads), chat.Key()))))
    {
      var history := chat.GetThreadMessages(py, o.summarize);
      ExtractContext(s, history, o.extract);
      if history.None? {
        return true, Failure(NotIterable);
      }
      var response := o.responses[round];
      if response.calls == [] {
        return true, ParseLlmResponse(response.text, o.parse);
      }
      ghost var before := chat.threads;
      ExecuteToolCalls(py, o.parse, response.calls, now);
      OnlyThreadStep(old(chat.threads), before, chat.threads, chat.Key());
      return false, Failure(RecursionLimit);
    }

    /** `_analyze_request` from round `round` on: one round, and the
        recursive call after a reply with calls. Only this node's thread
        changes. */
    method AnalyzeRequest(s: AgentState, py: Py, o: Oracles, round: nat, now: string) returns (analysis: Result<Json, Fault>)
      requires round <= |o.responses|
      modifies chat, s`agentContext
      decreases |o.responses| - round
      ensures chat.Key() in old(chat.threads) ==> analysis == AnalysisFrom(o, round) && chat.Key() in chat.threads
      ensures chat.Key() !in old(chat.threads) && round < |o.responses| ==>
        analysis == Failure(NotIterable) && chat.threads == old(chat.threads)
      ensures OnlyThread(old(chat.threads), chat.threads, chat.Key())
      ensures old(s.agentContext).Truthy() ==> s.agentContext == old(s.agentContext)
      ensures (!old(s.agentContext).Truthy() && round < |o.responses|
               && o.extract(Opening(ReadThread(py, o.summarize, old(chat.threads), chat.Key()))) != "") ==>
        s.agentContext == Retrieved(o.extract(Opening(ReadThread(py, o.summarize, old(chat.threads), chat.Key()))))
    {
      if round == |o.responses| {
        return Failure(RecursionLimit);
      }
      var done;
      done, analysis := AskOnce(s, py, o, round, now);
      if done {
        return;
      }
      ghost var before := chat.threads;
      analysis := AnalyzeRequest(s, py, o, round + 1, now);
      OnlyThreadStep(old(chat.threads), before, chat.threads, chat.Key());
    }

    /** `_mark_task_completed`: the first task with the current task's id
        becomes COMPLETED with `result` and `current_task` is cleared;
        `done` is false when it raises instead, which leaves the state as
        it was. */
    method MarkTaskCompleted(s: AgentState, current: Option<nat>, result: string) returns (done: bool)
      requires current.Some? ==> current.value < |s.subtasks|
      modifies s`subtasks, s`currentTask
      ensures done <==> MarkCompleted(old(s.subtasks), current, result).Some?
      ensures done ==> s.subtasks == MarkCompleted(old(s.subtasks), current, result).value && s.currentTask == None
      ensures !done ==> s.subtasks == old(s.subtasks) && s.currentTask == old(s.currentTask)
    {
      if s.subtasks != [] && current.None? {
        return false;
      }
      if current.Some? {
        var id := s.subtasks[current.value].taskId;
        var k := 0;
        while k < |s.subtasks|
          invariant k <= |s.subtasks| == |old(s.subtasks)|
          invariant s.subtasks == old(s.subtasks)
          invariant forall j :: 0 <= j < k ==> s.subtasks[j].taskId != id
        {
          if s.subtasks[k].taskId == id {
            assert FindById(old(s.subtasks), id) == Some(k);
            s.subtasks := s.subtasks[k := s.subtasks[k].(status := Completed, result := Some(result))];
            break;
          }
          k := k + 1;
        }
      }
      s.currentTask := None;
      return true;
    }

    /** The body of the `try` after a usable analysis (a dict without
        "error"): the analysis is logged, then the action applied. `failed`
        is true when writing to a missing current task raises, which leaves
        the task list as it was. */
    method ApplyAnalysis(s: AgentState, py: Py, j: Json, current: Option<nat>, now: string) returns (failed: bool)
      requires j.JObj? && "error" !in j.fields
      requires current == s.currentTask && s.Valid()
      modifies s`subtasks, s`currentTask, s`needsHumanInput, s`humanInputPrompt, chat
      ensures failed <==> Recovers(py, Success(j), old(s.subtasks), current)
      ensures var act := ActionOf(py, Success(j));
        !failed ==>
        var e := StepEffect(name, old(s.subtasks), current, old(s.needsHumanInput), old(s.humanInputPrompt), act);
        s.subtasks == e.subtasks && s.currentTask == e.currentTask
        && s.needsHumanInput == e.needsHumanInput && s.humanInputPrompt == e.humanInputPrompt
      ensures var act := ActionOf(py, Success(j));
        failed ==>
        s.subtasks == old(s.subtasks) && s.currentTask == current
        && s.needsHumanInput == (act.Ask? || old(s.needsHumanInput))
        && s.humanInputPrompt == (if act.Ask? then Some(act.prompt) else old(s.humanInputPrompt))
      ensures chat.threads == old(chat.threads)[chat.Key() := Thread(old(chat.threads), chat.Key())
                                 + [StoredMessage("assistant", py.dumps(j), now)]]
    {
      var action := GetOr(j.fields, "action", JStr("respond"));
      var message := Str(py, GetOr(j.fields, "message", JStr(Str(py, j))));
      chat.AddMessage("assistant", py.dumps(j), now);
      failed := false;
      if action == JStr("need_info") || action == JStr("respond") {
        s.needsHumanInput := true;
        s.humanInputPrompt := Some(message);
        if current.None? {
          failed := true;
        } else {
          s.subtasks := s.subtasks[current.value := s.subtasks[current.value].(status := Blocked)];
        }
      } else if action == JStr("completed") {
        var done := MarkTaskCompleted(s, current, message);
        failed := !done;
      } else {
        s.needsHumanInput := true;
      }
    }

    /** The `except` block: the error text is logged and the current task
        completed with it; `raised` is true when that marking raises in
        turn and the exception leaves the node. */
    method RecoverFromError(s: AgentState, current: Option<nat>, now: string) returns (raised: bool)
      requires current.Some? ==> current.value < |s.subtasks|
      modifies s`subtasks, s`currentTask, chat
      ensures var e := Recover(name, old(s.subtasks), current, s.needsHumanInput, s.humanInputPrompt);
        s.subtasks == e.subtasks && raised == e.raised
        && (raised ==> s.currentTask == old(s.currentTask)) && (!raised ==> s.currentTask == None)
      ensures chat.threads == old(chat.threads)[chat.Key() := Thread(old(chat.threads), chat.Key())
                                 + [StoredMessage("developer", ErrorReply(name), now)]]
    {
      var errorMsg := ErrorReply(name);
      chat.AddMessage("developer", errorMsg, now);
      var done := MarkTaskCompleted(s, current, errorMsg);
      raised := !done;
    }

    /** The `try` block after a usable analysis, and the `except` block
        when writing to a missing current task raised. */
    method HandleUsable(s: AgentState, py: Py, j: Json, now: string) returns (raised: bool)
      requires s.Valid() && j.JObj? && "error" !in j.fields
      modifies s`subtasks, s`currentTask, s`needsHumanInput, s`humanInputPrompt, chat
      ensures s.Valid()
      ensures var e := StepEffect(name, old(s.subtasks), old(s.currentTask), old(s.needsHumanInput), old(s.humanInputPrompt),
                                  ActionOf(py, Success(j)));
        s.subtasks == e.subtasks && s.currentTask == e.currentTask && raised == e.raised
        && s.needsHumanInput == e.needsHumanInput && s.humanInputPrompt == e.humanInputPrompt
      ensures chat.threads == old(chat.threads)[chat.Key() := Thread(old(chat.threads), chat.Key())
                                 + Logged(py, name, Success(j), old(s.subtasks), old(s.currentTask), now)]
    {
      var current := s.currentTask;
      ghost var h := Thread(chat.threads, chat.Key());
      ghost var asst := StoredMessage("assistant", py.dumps(j), now);
      ghost var dev := StoredMessage("developer", ErrorReply(name), now);
      var failed := ApplyAnalysis(s, py, j, current, now);
      raised := false;
      if failed {
        StepOnError(name, py, Success(j), old(s.subtasks), current, old(s.needsHumanInput), old(s.humanInputPrompt));
        raised := RecoverFromError(s, current, now);
        assert Logged(py, name, Success(j), old(s.subtasks), current, now) == [asst, dev];
        assert (h + [asst]) + [dev] == h + [asst, dev];
      } else {
        assert Logged(py, name, Success(j), old(s.subtasks), current, now) == [asst];
      }
    }

    /** The `try` block after the analysis and its `except` block: `raised`
        is true when the exception of the error path escapes the node. */
    method HandleAnalysis(s: AgentState, py: Py, a: Result<Json, Fault>, now: string) returns (raised: bool)
      requires s.Valid()
      modifies s`subtasks, s`currentTask, s`needsHumanInput, s`humanInputPrompt, chat
      ensures s.Valid()
      ensures var e := StepEffect(name, old(s.subtasks), old(s.currentTask), old(s.needsHumanInput), old(s.humanInputPrompt),
                                  ActionOf(py, a));
        s.subtasks == e.subtasks && s.currentTask == e.currentTask && raised == e.raised
        && s.needsHumanInput == e.needsHumanInput && s.humanInputPrompt == e.humanInputPrompt
      ensures chat.threads == old(chat.threads)[chat.Key() := Thread(old(chat.threads), chat.Key())
                                 + Logged(py, name, a, old(s.subtasks), old(s.currentTask), now)]
    {
      if a.Success? && a.value.JObj? && "error" !in a.value.fields {
        raised := HandleUsable(s, py, a.value, now);
      } else {
        assert ActionOf(py, a) == Fail;
        assert Logged(py, name, a, s.subtasks, s.currentTask, now) == [StoredMessage("developer", ErrorReply(name), now)];
        raised := RecoverFromError(s, s.currentTask, now);
      }
    }

    /** `process_request`. Without a client nothing happens. Otherwise the
        analysis selects the action, the state changes as `StepEffect`
        says, and the thread gains the messages `Logged` says, at its end.
        `raised` is true when the exception of the error path itself
        escapes the node. */
    method ProcessRequest(s: AgentState, py: Py, o: Oracles, now: string) returns (analysis: Option<Result<Json, Fault>>, raised: bool)
      requires s.Valid()
      modifies s`subtasks, s`currentTask, s`needsHumanInput, s`humanInputPrompt, s`agentContext, chat
      ensures s.Valid()
      ensures !hasClient ==> analysis.None? && !raised && chat.threads == old(chat.threads)
      ensures !hasClient ==> s.subtasks == old(s.subtasks) && s.currentTask == old(s.currentTask)
      ensures !hasClient ==> s.needsHumanInput == old(s.needsHumanInput) && s.humanInputPrompt == old(s.humanInputPrompt)
      ensures !hasClient ==> s.agentContext == old(s.agentContext)
      ensures hasClient ==> analysis.Some?
      ensures hasClient && chat.Key() in old(chat.threads) ==> analysis == Some(AnalysisFrom(o, 0))
      ensures hasClient && chat.Key() !in old(chat.threads) && 0 < |o.responses| ==> analysis == Some(Failure(NotIterable))
      ensures hasClient ==>
        var e := StepEffect(name, old(s.subtasks), old(s.currentTask), old(s.needsHumanInput), old(s.humanInputPrompt),
                            ActionOf(py, analysis.value));
        s.subtasks == e.subtasks && s.currentTask == e.currentTask && raised == e.raised
        && s.needsHumanInput == e.needsHumanInput && s.humanInputPrompt == e.humanInputPrompt
      ensures hasClient && old(s.agentContext).Truthy() ==> s.agentContext == old(s.agentContext)
      ensures (hasClient && !old(s.agentContext).Truthy() && 0 < |o.responses|
               && o.extract(Opening(ReadThread(py, o.summarize, old(chat.threads), chat.Key()))) != "") ==>
        s.agentContext == Retrieved(o.extract(Opening(ReadThread(py, o.summarize, old(chat.threads), chat.Key()))))
      ensures hasClient ==> chat.Key() in chat.threads
      ensures hasClient ==>
        EndsWithMessages(chat.threads[chat.Key()], Logged(py, name, analysis.value, old(s.subtasks), old(s.currentTask), now))
      ensures OnlyThread(old(chat.threads), chat.threads, chat.Key())
    {
      if !hasClient {
        return None, false;
      }
      var a := AnalyzeRequest(s, py, o, 0, now);
      analysis := Some(a);
      ghost var afterAnalysis := chat.threads;
      ghost var context := s.agentContext;
      raised := HandleAnalysis(s, py, a, now);
      assert s.agentContext == context;
      OnlyThreadAdd(old(chat.threads), afterAnalysis, chat.threads, chat.Key());
      ghost var log := Logged(py, name, a, old(s.subtasks), old(s.currentTask), now);
      ghost var h := Thread(afterAnalysis, chat.Key());
      assert (h + log)[|h + log| - |log|..] == log;
    }
  }
}
