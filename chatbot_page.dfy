/** The chat page of the chatgpt_app package that keeps its conversation in
    the session manager: it reseeds only on "clear" or an empty list, so a
    conversation survives re-renders. */
module ChatBotPage {
  import opened Failures
  import opened Chat
  import opened History
  import opened TokenCounting
  import opened ChatSession
  import App
  import LegacyCostHandler

  /** Reseeds when the clear button is pressed or the message list is empty;
      a non-empty conversation is kept, so the system prompt is never duplicated. */
  method InitMessages(sm: StreamlistSessionManager, clearPressed: bool)
    modifies sm.state`messages, sm.state`costs
    ensures clearPressed || old(sm.state.messages) == [] ==>
              sm.state.messages == [Seed] && sm.state.costs == []
    ensures !clearPressed && old(sm.state.messages) != [] ==>
              sm.state.messages == old(sm.state.messages) && sm.state.costs == old(sm.state.costs)
    ensures sm.state.messages != []
  {
    var messages := sm.GetMessages();
    if clearPressed || |messages| == 0 {
      sm.ClearMessages();
      sm.ClearCosts();
      sm.AddMessage(Seed);
    }
  }

  class ChatBotPage {
    const sm: StreamlistSessionManager

    constructor(sm: StreamlistSessionManager)
      ensures this.sm == sm
    {
      this.sm := sm;
    }

    /** One render: reseed if needed, show the history against a copy of the
        cost log, and on a non-empty submission run one metered turn whose
        cost comes from a fresh accumulator. */
    method Render(tk: Tokenizer, choice: string, clearPressed: bool,
                  submit: bool, userInput: string, reply: Reply)
      returns (history: Result<seq<Shown>>, turn: Turn)
      modifies sm.state`messages, sm.state`costs
      ensures var reseed := clearPressed || old(sm.state.messages) == [];
              var m1 := if reseed then [Seed] else old(sm.state.messages);
              var c1 := if reseed then [] else old(sm.state.costs);
              && history == Displayed(m1, c1)
              && (history.Err? || !(submit && userInput != "") ==>
                    turn == NoTurn && sm.state.messages == m1 && sm.state.costs == c1)
              && (history.Ok? && submit && userInput != "" ==>
                    var answer := StreamedAnswer(tk, App.SelectModel(choice), m1 + [Human(userInput)], reply);
                    && (sm.state.messages, sm.state.costs) == AfterTurn(m1, c1, userInput, answer)
                    && turn == TurnOf(answer, c1))
              && AICount(sm.state.messages) + |c1| == AICount(m1) + |sm.state.costs|
    {
      var modelName := App.SelectModel(choice);
      InitMessages(sm, clearPressed);

      var costs := sm.GetCosts();
      var messages := sm.GetMessages();
      history := MessageHistory(messages, costs);
      turn := NoTurn;
      if history.Err? {
        return;
      }

      if submit && userInput != "" {
        sm.AddMessage(Human(userInput));
        // `messages` aliases the session list, so the model sees the new message.
        messages := sm.GetMessages();
        var answer := LegacyCostHandler.CostedAnswer(tk, modelName, messages, reply);
        match answer
        case Err(e) =>
          turn := Failed(e);
        case Ok((a, c)) =>
          sm.AddMessage(AI(a));
          sm.AddCost(c);
          costs := sm.GetCosts();
          turn := Answered(a, c, Sum(costs));
      }
    }
  }
}
