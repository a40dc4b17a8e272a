/** The first single-page chat app: the conversation lives directly in
    Streamlit's session dictionary under the keys "messages" and "costs",
    each of which may be absent. */
module App {
  import opened Failures
  import opened Chat
  import opened History
  import opened TokenCounting
  import LegacyCostHandler

  /** The model id behind a sidebar choice: "GPT-3.5" picks the turbo model
      and any other choice the gpt-4 model. Either is priced, and counted
      through its family's canonical rule. */
  function SelectModel(choice: string): (name: string)
    ensures name in Prices
    ensures choice == "GPT-3.5" ==> RuleFor(name) == Delegate(TurboCanonical)
    ensures choice != "GPT-3.5" ==> RuleFor(name) == Delegate(Gpt4Canonical)
  {
    if choice == "GPT-3.5" then
      assert TurboFamily <= "gpt-3.5-turbo";
      "gpt-3.5-turbo"
    else
      MissingCharNotContained("gpt-4", TurboFamily, 4);
      assert Gpt4Family <= "gpt-4";
      "gpt-4"
  }

  /** With a model the sidebar offers, a metered turn can only fail because
      the tokenizer does not know the model or the stream is interrupted:
      counting and pricing always succeed. */
  lemma SelectedModelAnswers(tk: Tokenizer, choice: string, conversation: seq<Message>, reply: Reply)
    requires tk.encodingFor(SelectModel(choice)).Some?
    ensures StreamedAnswer(tk, SelectModel(choice), conversation, reply).Ok? <==> reply.completes
  {
    Dispatch(tk, ToDicts(conversation), SelectModel(choice));
  }

  /** The two session entries this app uses; None is an absent key. */
  class AppState {
    var messages: Option<seq<Message>>
    var costs: Option<seq<real>>

    /** The two keys are written together, so "messages" never exists without "costs". */
    ghost predicate Valid()
      reads this
    {
      messages.Some? ==> costs.Some?
    }
  }

  /** Reseeds when the clear button is pressed or "messages" is absent. */
  method InitMessages(state: AppState, clearPressed: bool)
    requires state.Valid()
    modifies state
    ensures state.Valid() && state.messages.Some?
    ensures clearPressed || old(state.messages).None? ==>
              state.messages == Some([Seed]) && state.costs == Some([])
    ensures !clearPressed && old(state.messages).Some? ==>
              state.messages == old(state.messages) && state.costs == old(state.costs)
  {
    if clearPressed || state.messages.None? {
      state.messages := Some([Seed]);
      state.costs := Some([]);
    }
  }

  /** One render: reseed if needed, show the history against a copy of the
      cost log, and on a non-empty submission run one metered turn. */
  method Render(state: AppState, tk: Tokenizer, choice: string, clearPressed: bool,
              submit: bool, userInput: string, reply: Reply)
    returns (history: Result<seq<Shown>>, turn: Turn)
    requires state.Valid()
    modifies state
    ensures state.Valid() && state.messages.Some? && state.costs.Some?
    ensures var reseed := clearPressed || old(state.messages).None?;
            var m1 := if reseed then [Seed] else old(state.messages).value;
            var c1 := if reseed then [] else old(state.costs).value;
            && history == Displayed(m1, c1)
            && (history.Err? || !(submit && userInput != "") ==>
                  turn == NoTurn && state.messages == Some(m1) && state.costs == Some(c1))
            && (history.Ok? && submit && userInput != "" ==>
                  var answer := StreamedAnswer(tk, SelectModel(choice), m1 + [Human(userInput)], reply);
                  && (state.messages.value, state.costs.value) == AfterTurn(m1, c1, userInput, answer)
                  && turn == TurnOf(answer, c1))
            && AICount(state.messages.value) + |c1| == AICount(m1) + |state.costs.value|
  {
    var modelName := SelectModel(choice);
    InitMessages(state, clearPressed);

    var costs := if state.costs.Some? then state.costs.value else [];
    var messages := if state.messages.Some? then state.messages.value else [];
    history := MessageHistory(messages, costs);
    turn := NoTurn;
    if history.Err? {
      return;
    }

    if submit && userInput != "" {
      state.messages := Some(state.messages.value + [Human(userInput)]);
      // `messages` aliases the session list, so the model sees the new message.
      messages := state.messages.value;
      var answer := LegacyCostHandler.CostedAnswer(tk, modelName, messages, reply);
      match answer
      case Err(e) =>
        turn := Failed(e);
      case Ok((a, c)) =>
        state.messages := Some(state.messages.value + [AI(a)]);
        state.costs := Some(state.costs.value + [c]);
        costs := state.costs.value;
        turn := Answered(a, c, Sum(costs));
    }
  }
}
