/** The shared behaviour of the chatgpt_app chat pages: the sidebar, the model
    choice, the seed/clear rule, the cost total and the metered model call. */
module BaseChatGPT {
  import opened Failures
  import opened Chat
  import opened TokenCounting
  import opened ChatSession
  import CostHandler

  /** The model ids the sidebar offers, in order. */
  const ModelChoices: seq<string> := ["gpt-3.5-turbo", "gpt-3.5-turbo-16k-0613", "gpt-4"]

  class BaseChatGPTPage {
    const sm: StreamlistSessionManager
    /** Whether init_page has built the sidebar yet. */
    var hasSidebar: bool
    /** The state of the "Clear Conversation" button; None before init_page. */
    var clearButton: Option<bool>

    constructor(sm: StreamlistSessionManager)
      ensures this.sm == sm && !hasSidebar && clearButton == None
    {
      this.sm := sm;
      hasSidebar := false;
      clearButton := None;
    }

    /** Builds the sidebar and reads the clear button. */
    method InitPage(clearPressed: bool)
      modifies this`hasSidebar, this`clearButton
      ensures hasSidebar && clearButton == Some(clearPressed)
    {
      hasSidebar := true;
      clearButton := Some(clearPressed);
    }

    /** Stores the chosen model id in the session and builds the model client
        from the stored id, so the client uses exactly the chosen model. */
    method SelectModel(choice: string) returns (llm: Llm)
      requires choice in ModelChoices
      modifies sm.state`modelName
      ensures sm.state.modelName == choice && llm == Llm(choice)
      ensures llm.modelName in ModelChoices
    {
      sm.RegisterModelName(choice);
      var name := sm.GetModelName();
      llm := Llm(name);
    }

    /** Empties both lists and seeds the conversation with the system prompt. */
    method InitMessages(session: StreamlistSessionManager)
      modifies session.state`messages, session.state`costs
      ensures session.state.messages == [Seed] && session.state.costs == []
      ensures Aligned(session.state.messages, session.state.costs)
    {
      session.ClearMessages();
      session.ClearCosts();
      session.AddMessage(Seed);
      assert AICount([Seed]) == 0 + AICount([]);
    }

    /** Sidebar, model choice, then a reseed only when the clear button is pressed. */
    method BaseComponents(clearPressed: bool, choice: string) returns (llm: Llm)
      requires choice in ModelChoices
      modifies this`hasSidebar, this`clearButton, sm.state`modelName, sm.state`messages, sm.state`costs
      ensures hasSidebar && clearButton == Some(clearPressed)
      ensures sm.state.modelName == choice && llm == Llm(choice)
      ensures clearPressed ==> sm.state.messages == [Seed] && sm.state.costs == []
      ensures !clearPressed ==> sm.state.messages == old(sm.state.messages) && sm.state.costs == old(sm.state.costs)
    {
      InitPage(clearPressed);
      llm := SelectModel(choice);
      if clearButton == Some(true) {
        InitMessages(sm);
      }
    }

    /** The sidebar total: the sum of the stored cost log, shown only once the
        sidebar exists; the log itself is not changed. */
    method TotalCostComponent() returns (shown: Option<real>)
      ensures hasSidebar <==> shown.Some?
      ensures shown.Some? ==> shown.value == Sum(sm.state.costs)
    {
      var costs := sm.GetCosts();
      if hasSidebar {
        shown := Some(Sum(costs));
      } else {
        shown := None;
      }
    }

    /** One metered call: a fresh accumulator for the client's model and a fresh
        handler over it, the streamed call, then the accumulator's total cost.
        The cost therefore counts only this call's tokens. */
    method GetStreamingAnswer(tk: Tokenizer, llm: Llm, messages: seq<Message>, reply: Reply)
      returns (r: Result<(string, real)>)
      ensures r == StreamedAnswer(tk, llm.modelName, messages, reply)
    {
      var created := NewTokenCostProcess(tk, llm.modelName);
      if created.Err? {
        return Err(created.error);
      }
      var process := created.value;
      assert tk.encodingFor(llm.modelName) == Some(process.encoding);
      var handler := new CostHandler.StreamlitCostCalcHandler(tk, process);
      ghost var prompt := ChatTokens(tk, ToDicts(messages), llm.modelName);
      var answer := CostHandler.Stream(handler, messages, reply);
      if answer.Err? {
        return Err(answer.error);
      }
      assert prompt.Ok? && reply.completes;
      assert process.promptTokens == prompt.value;
      assert process.completionTokens == FragmentTokens(tk, process.encoding, reply.fragments);
      var cost := process.TotalCost();
      if cost.Err? {
        return Err(cost.error);
      }
      r := Ok((answer.value, cost.value));
    }
  }

  /** Of the offered models, the two named ones are priced and counted through
      their family's canonical rule, while the 16k model is missing from the
      price table, so every metered call with it fails: an interrupted stream
      with Interrupted, a completed one with KeyError at the price lookup. */
  lemma OfferedModels(tk: Tokenizer, conversation: seq<Message>, reply: Reply)
    ensures ModelChoices[0] in Prices && ModelChoices[2] in Prices
    ensures RuleFor(ModelChoices[0]) == Delegate(TurboCanonical)
    ensures RuleFor(ModelChoices[2]) == Delegate(Gpt4Canonical)
    ensures ModelChoices[1] !in Prices
    ensures StreamedAnswer(tk, ModelChoices[1], conversation, reply).Err?
    ensures reply.completes && tk.encodingFor(ModelChoices[1]).Some? ==>
              StreamedAnswer(tk, ModelChoices[1], conversation, reply) == Err(KeyError(ModelChoices[1]))
  {
    StreamedAnswerCost(tk, ModelChoices[1], conversation, reply);
  }
}
