/** The session store of the chatgpt_app pages: a manager over Streamlit's
    per-browser-session dictionary, with the message list, the cost log and a
    few scalar entries. */
module ChatSession {
  import opened Chat

  /** Streamlit's session dictionary, one field per key the managers use. It
      outlives every manager built over it. */
  class SessionState {
    var messages: seq<Message>
    var costs: seq<real>
    var modelName: string
    var urlInput: string
    var maxToken: int
    var mapPromptInput: string
    var combinePromptInput: string
    var refinePromptInput: string
  }

  class StreamlistSessionManager {
    const state: SessionState

    /** Building a manager resets the message list and the cost log of the
        shared session, so building one again wipes a live conversation. */
    constructor(state: SessionState)
      modifies state`messages, state`costs
      ensures this.state == state
      ensures state.messages == [] && state.costs == []
    {
      this.state := state;
      state.messages := [];
      state.costs := [];
    }

    method GetMessages() returns (messages: seq<Message>)
      ensures messages == state.messages
    {
      messages := state.messages;
    }

    /** Appends at the end; earlier messages and the cost log are untouched. */
    method AddMessage(message: Message)
      modifies state`messages
      ensures state.messages == old(state.messages) + [message]
    {
      state.messages := state.messages + [message];
    }

    method ClearMessages()
      modifies state`messages
      ensures state.messages == []
    {
      state.messages := [];
    }

    method GetCosts() returns (costs: seq<real>)
      ensures costs == state.costs
    {
      costs := state.costs;
    }

    /** Appends at the end; the messages are untouched. */
    method AddCost(cost: real)
      modifies state`costs
      ensures state.costs == old(state.costs) + [cost]
    {
      state.costs := state.costs + [cost];
    }

    method ClearCosts()
      modifies state`costs
      ensures state.costs == []
    {
      state.costs := [];
    }

    method GetModelName() returns (name: string)
      ensures name == state.modelName
    {
      name := state.modelName;
    }

    method RegisterModelName(name: string)
      modifies state`modelName
      ensures state.modelName == name
    {
      state.modelName := name;
    }

    method ClearUrlInput()
      modifies state`urlInput
      ensures state.urlInput == ""
    {
      state.urlInput := "";
    }

    method SetMapPromptInput(prompt: string)
      modifies state`mapPromptInput
      ensures state.mapPromptInput == prompt
    {
      state.mapPromptInput := prompt;
    }

    method GetMapPromptInput() returns (prompt: string)
      ensures prompt == state.mapPromptInput
    {
      prompt := state.mapPromptInput;
    }

    method SetCombinePromptInput(prompt: string)
      modifies state`combinePromptInput
      ensures state.combinePromptInput == prompt
    {
      state.combinePromptInput := prompt;
    }

    method GetCombinePromptInput() returns (prompt: string)
      ensures prompt == state.combinePromptInput
    {
      prompt := state.combinePromptInput;
    }

    method SetRefinePromptInput(prompt: string)
      modifies state`refinePromptInput
      ensures state.refinePromptInput == prompt
    {
      state.refinePromptInput := prompt;
    }

    method GetRefinePromptInput() returns (prompt: string)
      ensures prompt == state.refinePromptInput
    {
      prompt := state.refinePromptInput;
    }

    method GetMaxToken() returns (maxToken: int)
      ensures maxToken == state.maxToken
    {
      maxToken := state.maxToken;
    }

    method RegisterMaxToken(maxToken: int)
      modifies state`maxToken
      ensures state.maxToken == maxToken
    {
      state.maxToken := maxToken;
    }
  }

  /** Each setter round-trips through its getter and leaves every other entry
      of the session as it was. */
  method PromptInputsRoundTrip(sm: StreamlistSessionManager, mapPrompt: string, combinePrompt: string, refinePrompt: string, maxToken: int)
    returns (m: string, c: string, r: string, t: int)
    modifies sm.state`mapPromptInput, sm.state`combinePromptInput, sm.state`refinePromptInput, sm.state`maxToken
    ensures m == mapPrompt && c == combinePrompt && r == refinePrompt && t == maxToken
    ensures sm.state.messages == old(sm.state.messages) && sm.state.costs == old(sm.state.costs)
    ensures sm.state.modelName == old(sm.state.modelName) && sm.state.urlInput == old(sm.state.urlInput)
  {
    sm.SetMapPromptInput(mapPrompt);
    sm.SetCombinePromptInput(combinePrompt);
    sm.SetRefinePromptInput(refinePrompt);
    sm.RegisterMaxToken(maxToken);
    m := sm.GetMapPromptInput();
    c := sm.GetCombinePromptInput();
    r := sm.GetRefinePromptInput();
    t := sm.GetMaxToken();
  }
}
