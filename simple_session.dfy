/** The session store of the first single-page app: only the message list
    and the cost log, over the Streamlit session dictionary. */
module SimpleSession {
  import opened Chat

  /** Streamlit's session dictionary as this app uses it: the two lists only.
      It outlives every manager built over it. */
  class SessionState {
    var messages: seq<Message>
    var costs: seq<real>
  }

  class StreamlistSessionManager {
    const state: SessionState

    /** Building a manager resets both lists of the shared session. */
    constructor(state: SessionState)
      modifies state`messages, state`costs
      ensures this.state == state
      ensures state.messages == [] && state.costs == []
    {
      this.state := state;
      state.messages := [];
      state.costs := [];
    }

    method GetMessages() returns (messages: seq<Message>)
      ensures messages == state.messages
    {
      messages := state.messages;
    }

    /** Appends exactly one message at the end; the prefix is kept. */
    method AddMessage(message: Message)
      modifies state`messages
      ensures state.messages == old(state.messages) + [message]
    {
      state.messages := state.messages + [message];
    }

    method ClearMessages()
      modifies state`messages
      ensures state.messages == []
    {
      state.messages := [];
    }

    method GetCosts() returns (costs: seq<real>)
      ensures costs == state.costs
    {
      costs := state.costs;
    }

    /** Appends exactly one cost at the end; the prefix is kept. */
    method AddCost(cost: real)
      modifies state`costs
      ensures state.costs == old(state.costs) + [cost]
    {
      state.costs := state.costs + [cost];
    }

    method ClearCosts()
      modifies state`costs
      ensures state.costs == []
    {
      state.costs := [];
    }
  }
}
