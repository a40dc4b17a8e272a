/** The chat page of the chatgpt_app pages (ChatBotPage over BaseChatGPTPage):
    every render reseeds the conversation, shows the history, and runs one
    metered turn when a non-empty message is submitted. */
module ChatGPTChatBot {
  import opened Failures
  import opened Chat
  import opened History
  import opened TokenCounting
  import opened BaseChatGPT

  /** One render of the page. The clear button is read but, since the
      conversation is reseeded unconditionally, it changes nothing; the
      history therefore always shows only the system prompt, and a turn
      always talks to the model about the seed and the new message alone. */
  method Render(page: BaseChatGPTPage, tk: Tokenizer, clearPressed: bool, choice: string,
                submit: bool, userInput: string, reply: Reply)
    returns (history: Result<seq<Shown>>, turn: Turn)
    requires choice in ModelChoices
    modifies page`hasSidebar, page`clearButton
    modifies page.sm.state`modelName, page.sm.state`messages, page.sm.state`costs
    ensures page.sm.state.modelName == choice
    ensures history == Ok([ShownSystem(SeedPrompt)])
    ensures !(submit && userInput != "") ==>
              turn == NoTurn && page.sm.state.messages == [Seed] && page.sm.state.costs == []
    ensures submit && userInput != "" ==>
              var answer := StreamedAnswer(tk, choice, [Seed, Human(userInput)], reply);
              && (page.sm.state.messages, page.sm.state.costs) == AfterTurn([Seed], [], userInput, answer)
              && turn == TurnOf(answer, [])
    ensures Aligned(page.sm.state.messages, page.sm.state.costs)
  {
    page.InitPage(clearPressed);
    var llm := page.SelectModel(choice);
    page.InitMessages(page.sm);

    var costs := page.sm.GetCosts();
    var messages := page.sm.GetMessages();
    history := MessageHistory(messages, costs);
    assert [Seed][1..] == [] && [ShownSystem(SeedPrompt)] + [] == [ShownSystem(SeedPrompt)];
    assert Displayed([Seed], []) == Then([ShownSystem(SeedPrompt)], Displayed([], []));

    turn := NoTurn;
    if submit && userInput != "" {
      page.sm.AddMessage(Human(userInput));
      // `messages` aliases the session list, so the model sees the new message.
      messages := page.sm.GetMessages();
      assert messages == [Seed, Human(userInput)];
      var answer := page.GetStreamingAnswer(tk, llm, messages, reply);
      match answer
      case Err(e) =>
        turn := Failed(e);
      case Ok((a, c)) =>
        page.sm.AddMessage(AI(a));
        page.sm.AddCost(c);
        costs := page.sm.GetCosts();
        turn := Answered(a, c, Sum(costs));
    }
  }
}
