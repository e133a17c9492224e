/** The stub workers of xyz.py. They answer like the stubs under agents/,
    with two differences: none of them sets `next_agent` (the draft graph
    always returns to the supervisor), and the troubleshooter never asks for
    the product model: it records "Unknown" and goes on. */
module DraftWorkers {
  import opened Wrappers
  import opened Json
  import opened PyText
  import opened States
  import opened StubWorkers

  /** The tail every draft stub shares: post the answer and clear
      `current_task`; `next_agent` is left alone. */
  method PostAnswer(s: AgentState, answer: string)
    modifies s`messages, s`currentTask
    ensures s.messages == old(s.messages) + [AIMessage(answer)] && s.currentTask == None
  {
    s.messages := s.messages + [AIMessage(answer)];
    s.currentTask := None;
  }

  /** A draft stub that always answers `answer`: `billing_agent` and
      `returns_agent` of xyz.py. */
  method DraftAnswer(s: AgentState, answer: string) returns (raised: bool)
    requires s.Valid()
    modifies s`subtasks, s`messages, s`currentTask
    ensures s.Valid()
    ensures raised <==> old(s.currentTask).None? && old(s.subtasks) != []
    ensures raised ==>
      s.subtasks == old(s.subtasks) && s.messages == old(s.messages) && s.currentTask == old(s.currentTask)
    ensures !raised ==>
      s.subtasks == CompletedCurrent(old(s.subtasks), old(s.currentTask), answer)
      && s.messages == old(s.messages) + [AIMessage(answer)] && s.currentTask == None
  {
    raised := CompleteCurrent(s, answer);
    if !raised {
      PostAnswer(s, answer);
    }
  }

  /** `billing_agent` of xyz.py. */
  method DraftBillingAgent(s: AgentState) returns (raised: bool)
    requires s.Valid()
    modifies s`subtasks, s`messages, s`currentTask
    ensures s.Valid()
    ensures raised <==> old(s.currentTask).None? && old(s.subtasks) != []
    ensures raised ==>
      s.subtasks == old(s.subtasks) && s.messages == old(s.messages) && s.currentTask == old(s.currentTask)
    ensures !raised ==>
      s.subtasks == CompletedCurrent(old(s.subtasks), old(s.currentTask), BillingAnswer)
      && s.messages == old(s.messages) + [AIMessage(BillingAnswer)] && s.currentTask == None
  {
    raised := DraftAnswer(s, BillingAnswer);
  }

  /** `returns_agent` of xyz.py. */
  method DraftReturnsAgent(s: AgentState) returns (raised: bool)
    requires s.Valid()
    modifies s`subtasks, s`messages, s`currentTask
    ensures s.Valid()
    ensures raised <==> old(s.currentTask).None? && old(s.subtasks) != []
    ensures raised ==>
      s.subtasks == old(s.subtasks) && s.messages == old(s.messages) && s.currentTask == old(s.currentTask)
    ensures !raised ==>
      s.subtasks == CompletedCurrent(old(s.subtasks), old(s.currentTask), ReturnsAnswer)
      && s.messages == old(s.messages) + [AIMessage(ReturnsAnswer)] && s.currentTask == None
  {
    raised := DraftAnswer(s, ReturnsAnswer);
  }

  /** `warranty_agent` of xyz.py: the answer of the agents/ stub; a context
      that is retrieved text (no `.get`) raises before anything changes. */
  method DraftWarrantyAgent(s: AgentState) returns (raised: bool)
    requires s.Valid()
    modifies s`subtasks, s`messages, s`currentTask
    ensures s.Valid()
    ensures raised <==> old(s.agentContext).Retrieved? || (old(s.currentTask).None? && old(s.subtasks) != [])
    ensures raised ==>
      s.subtasks == old(s.subtasks) && s.messages == old(s.messages) && s.currentTask == old(s.currentTask)
    ensures !raised ==>
      var answer := WarrantyResult(s.agentContext.values);
      s.subtasks == CompletedCurrent(old(s.subtasks), old(s.currentTask), answer)
      && s.messages == old(s.messages) + [AIMessage(answer)] && s.currentTask == None
  {
    if s.agentContext.Retrieved? {
      return true;
    }
    var answer := WarrantyResult(s.agentContext.values);
    raised := DraftAnswer(s, answer);
  }

  /** `state["agent_context"]["product_model"] = "Unknown"` when the key is
      missing. */
  function WithModel(ctx: map<string, Json>): (r: map<string, Json>)
    ensures "product_model" in r && r.Keys == ctx.Keys + {"product_model"}
    ensures "product_model" in ctx ==> r == ctx
    ensures "product_model" !in ctx ==> r["product_model"] == JStr("Unknown")
    ensures forall k :: k in ctx ==> k in r && r[k] == ctx[k]
  {
    if "product_model" in ctx then ctx else ctx["product_model" := JStr("Unknown")]
  }

  /** `troubleshoot_agent` of xyz.py. It fills in a missing product model,
      completes the current task, records its notes, posts its answer and
      clears `current_task`. On retrieved text the model test is a
      substring test and every write to the context raises: at once when the
      text lacks "product_model", after the tasks are completed otherwise.
      With no current task the completion loop raises after the model has
      been recorded. */
  method DraftTroubleshootAgent(s: AgentState) returns (raised: bool)
    requires s.Valid()
    modifies s`subtasks, s`messages, s`currentTask, s`agentContext
    ensures s.Valid()
    ensures raised <==> old(s.agentContext).Retrieved? || (old(s.currentTask).None? && old(s.subtasks) != [])
    ensures raised ==> s.messages == old(s.messages) && s.currentTask == old(s.currentTask)
    ensures raised && old(s.agentContext).Entries? ==>
      s.subtasks == old(s.subtasks) && s.agentContext == Entries(WithModel(old(s.agentContext).values))
    ensures raised && old(s.agentContext).Retrieved? ==>
      s.agentContext == old(s.agentContext)
      && s.subtasks == (if !HasProductModel(old(s.agentContext)) || (old(s.currentTask).None? && old(s.subtasks) != [])
                        then old(s.subtasks)
                        else CompletedCurrent(old(s.subtasks), old(s.currentTask), TroubleshootAnswer))
    ensures !raised ==>
      s.subtasks == CompletedCurrent(old(s.subtasks), old(s.currentTask), TroubleshootAnswer)
      && s.agentContext == Entries(TroubleshootNotes(WithModel(old(s.agentContext).values)))
      && s.messages == old(s.messages) + [AIMessage(TroubleshootAnswer)] && s.currentTask == None
  {
    if !HasProductModel(s.agentContext) {
      if s.agentContext.Retrieved? {
        return true;
      }
      s.agentContext := Entries(WithModel(s.agentContext.values));
    } else if s.agentContext.Entries? {
      s.agentContext := Entries(WithModel(s.agentContext.values));
    }
    raised := CompleteCurrent(s, TroubleshootAnswer);
    if raised || s.agentContext.Retrieved? {
      return true;
    }
    s.agentContext := Entries(TroubleshootNotes(s.agentContext.values));
    PostAnswer(s, TroubleshootAnswer);
  }

  /** After the draft troubleshooter, the context names a product model and
      the warranty answer offers a replacement: whatever came before, the
      notes say the issue is unresolved. */
  lemma {:induction false} DraftTroubleshootNotes(ctx: map<string, Json>)
    ensures HasProductModel(Entries(TroubleshootNotes(WithModel(ctx))))
    ensures EndsWith(WarrantyResult(TroubleshootNotes(WithModel(ctx))), ReplacementNote)
  {
    var notes := TroubleshootNotes(WithModel(ctx));
    assert "product_model" in notes.Keys;
  }
}
