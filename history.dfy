/** The chat-history display of the chat pages: every stored message is shown
    in order, and each assistant message is shown with the cost popped from the
    front of a private copy of the cost log. */
module History {
  import opened Failures
  import opened Chat

  /** One displayed history entry. */
  datatype Shown = ShownSystem(text: string) | ShownUser(text: string) | ShownAssistant(text: string, cost: real)

  /** Prefixes entries already shown to the rest of a display that may have failed. */
  function Then(shown: seq<Shown>, rest: Result<seq<Shown>>): Result<seq<Shown>>
  {
    match rest
    case Ok(s) => Ok(shown + s)
    case Err(e) => Err(e)
  }

  lemma ThenThen(a: seq<Shown>, b: seq<Shown>, rest: Result<seq<Shown>>)
    ensures Then(a, Then(b, rest)) == Then(a + b, rest)
  {
    if rest.Ok? {
      assert a + (b + rest.value) == (a + b) + rest.value;
    }
  }

  /** The display of `messages` against the cost list `costs`: an assistant
      message takes the first remaining cost, and an empty cost list at that
      point raises IndexError. */
  function Displayed(messages: seq<Message>, costs: seq<real>): Result<seq<Shown>>
  {
    if messages == [] then Ok([])
    else
      match messages[0]
      case AI(c) =>
        if costs == [] then Err(IndexError)
        else Then([ShownAssistant(c, costs[0])], Displayed(messages[1..], costs[1..]))
      case Human(c) => Then([ShownUser(c)], Displayed(messages[1..], costs))
      case System(c) => Then([ShownSystem(c)], Displayed(messages[1..], costs))
  }

  /** The display succeeds exactly when there are at least as many costs as
      assistant messages; otherwise it fails with IndexError. */
  lemma {:induction false} DisplayedSucceeds(messages: seq<Message>, costs: seq<real>)
    ensures Displayed(messages, costs).Ok? <==> AICount(messages) <= |costs|
    ensures Displayed(messages, costs).Err? ==> Displayed(messages, costs).error == IndexError
  {
    if messages != [] {
      if messages[0].AI? {
        if costs != [] {
          DisplayedSucceeds(messages[1..], costs[1..]);
        }
      } else {
        DisplayedSucceeds(messages[1..], costs);
      }
    }
  }

  /** A successful display shows every message in place; the assistant message
      at position i carries the cost whose index is the number of assistant
      messages before it. */
  lemma {:induction false} DisplayedPairs(messages: seq<Message>, costs: seq<real>, i: int)
    requires Displayed(messages, costs).Ok?
    requires 0 <= i < |messages|
    ensures |Displayed(messages, costs).value| == |messages|
    ensures messages[i].AI? ==>
              AICount(messages[..i]) < |costs| &&
              Displayed(messages, costs).value[i] == ShownAssistant(messages[i].content, costs[AICount(messages[..i])])
    ensures messages[i].Human? ==> Displayed(messages, costs).value[i] == ShownUser(messages[i].content)
    ensures messages[i].System? ==> Displayed(messages, costs).value[i] == ShownSystem(messages[i].content)
  {
    var rest := if messages[0].AI? then costs[1..] else costs;
    var tail := Displayed(messages[1..], rest);
    assert tail.Ok?;
    if i == 0 {
      assert messages[..0] == [];
      if |messages| > 1 {
        DisplayedPairs(messages[1..], rest, 0);
      }
    } else {
      DisplayedPairs(messages[1..], rest, i - 1);
      assert messages[..i] == [messages[0]] + messages[1..][..i - 1];
      AICountAppend([messages[0]], messages[1..][..i - 1]);
    }
  }

  /** The display loop of the chat pages, popping costs from a copy. */
  method MessageHistory(messages: seq<Message>, costs: seq<real>) returns (r: Result<seq<Shown>>)
    ensures r == Displayed(messages, costs)
  {
    var remaining := costs;
    var shown: seq<Shown> := [];
    assert messages[0..] == messages;
    match Displayed(messages, costs) {
      case Ok(s) => assert [] + s == s;
      case Err(_) =>
    }
    for i := 0 to |messages|
      invariant Displayed(messages, costs) == Then(shown, Displayed(messages[i..], remaining))
    {
      assert messages[i..][1..] == messages[i + 1..];
      match messages[i]
      case AI(c) =>
        if remaining == [] {
          return Err(IndexError);
        }
        ThenThen(shown, [ShownAssistant(c, remaining[0])], Displayed(messages[i + 1..], remaining[1..]));
        shown := shown + [ShownAssistant(c, remaining[0])];
        remaining := remaining[1..];
      case Human(c) =>
        ThenThen(shown, [ShownUser(c)], Displayed(messages[i + 1..], remaining));
        shown := shown + [ShownUser(c)];
      case System(c) =>
        ThenThen(shown, [ShownSystem(c)], Displayed(messages[i + 1..], remaining));
        shown := shown + [ShownSystem(c)];
    }
    assert messages[|messages|..] == [];
    assert shown + [] == shown;
    r := Ok(shown);
  }
}
