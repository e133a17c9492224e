/** `convert_messages_to_dicts` (ai_processing/conversation_helper.py): a
    message object as the dict a chat-completion API expects. */
module ConversationHelper {
  import opened Wrappers
  import opened Json
  import opened States
  import opened Compaction

  /** The conversion as written. A system message reaches
      `formatted_mssg.append(...)` on a dict, which raises AttributeError;
      a message of any other kind gives the empty dict. */
  function ConvertMessageAsWritten(m: ChatMessage): (r: Result<DictMessage, Fault>)
    ensures r.Failure? <==> m.SystemMessage?
    ensures m.HumanMessage? ==> r == Success(map["role" := JStr("user"), "content" := JStr(m.content)])
    ensures m.AIMessage? ==> r == Success(map["role" := JStr("assistant"), "content" := JStr(m.content)])
    ensures m.ToolMessage? ==> r.Success? && GetOr(r.value, "tool_call_id", JNull) == JStr(m.toolCallId)
    ensures m.OtherMessage? ==> r == Success(map[])
  {
    match m
    case HumanMessage(c) => Success(map["role" := JStr("user"), "content" := JStr(c)])
    case AIMessage(c) => Success(map["role" := JStr("assistant"), "content" := JStr(c)])
    case ToolMessage(c, id) => Success(map["role" := JStr("tool"), "content" := JStr(c), "tool_call_id" := JStr(id)])
    case SystemMessage(_) => Failure(NoAttribute)
    case OtherMessage(_) => Success(map[])
  }

  /** A system message cannot be converted as written. */
  lemma SystemMessageFails(content: string)
    ensures ConvertMessageAsWritten(SystemMessage(content)) == Failure(NoAttribute)
  {
  }

  /** The role a message takes in the API, if it has one. */
  function ApiRole(m: ChatMessage): Option<string> {
    match m
    case HumanMessage(_) => Some("user")
    case AIMessage(_) => Some("assistant")
    case ToolMessage(_, _) => Some("tool")
    case SystemMessage(_) => Some("system")
    case OtherMessage(_) => None
  }

  /** The conversion as evidently intended: a system message becomes a
      "system" entry like the other roles. */
  function ConvertMessage(m: ChatMessage): (d: DictMessage)
    ensures ApiRole(m).Some? ==>
      GetOr(d, "role", JNull) == JStr(ApiRole(m).value) && GetOr(d, "content", JNull) == JStr(m.content)
    ensures ApiRole(m).None? <==> d == map[]
    ensures "tool_call_id" in d <==> m.ToolMessage?
    ensures m.ToolMessage? ==> d["tool_call_id"] == JStr(m.toolCallId)
  {
    match m
    case SystemMessage(c) => map["role" := JStr("system"), "content" := JStr(c)]
    case _ => ConvertMessageAsWritten(m).value
  }

  /** The correction changes only the system case. */
  lemma ConvertMessageAgrees(m: ChatMessage)
    ensures !m.SystemMessage? ==> ConvertMessageAsWritten(m) == Success(ConvertMessage(m))
    ensures m.SystemMessage? ==> ConvertMessage(m) == map["role" := JStr("system"), "content" := JStr(m.content)]
  {
  }
}
