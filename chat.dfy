/** The vocabulary the chat pages share: messages, the per-turn cost log,
    the events a streaming model call delivers, and what a page reports. */
module Chat {
  import opened Failures

  /** A chat message; the content is never changed after creation. */
  datatype Message = System(content: string) | Human(content: string) | AI(content: string)

  const SeedPrompt: string := "You are a helpful assistant."

  /** The system message every fresh conversation starts with. */
  const Seed: Message := System(SeedPrompt)

  /** The chat model a page talks to (only its model id matters here). */
  datatype Llm = Llm(modelName: string)

  /** What the external model client does for one call: the text fragments it
      streams, in arrival order, and whether it then finishes (true) or raises. */
  datatype Reply = Reply(fragments: seq<string>, completes: bool)

  /** A lifecycle event a callback handler passes on to the display handler. */
  datatype Event = ChatModelStart(batch: seq<seq<Message>>) | NewToken(token: string) | LlmEnd

  /** What a chat turn came to: nothing submitted, an answer with its cost and
      the new sidebar total, or the error that abandoned the turn. */
  datatype Turn = NoTurn | Answered(answer: string, cost: real, total: real) | Failed(error: Error)

  /** The answer text a streamed reply adds up to. */
  function Concat(fragments: seq<string>): string
  {
    if fragments == [] then "" else fragments[0] + Concat(fragments[1..])
  }

  /** One NewToken event per fragment, in order. */
  function TokenEvents(fragments: seq<string>): seq<Event>
  {
    if fragments == [] then []
    else TokenEvents(fragments[..|fragments| - 1]) + [NewToken(fragments[|fragments| - 1])]
  }

  /** Number of assistant messages in a conversation. */
  function AICount(messages: seq<Message>): nat
  {
    if messages == [] then 0
    else (if messages[0].AI? then 1 else 0) + AICount(messages[1..])
  }

  /** The cost log pairs one cost with each assistant message. */
  predicate Aligned(messages: seq<Message>, costs: seq<real>)
  {
    AICount(messages) == |costs|
  }

  /** The sum of a cost log, as shown in the sidebar. */
  function Sum(costs: seq<real>): real
  {
    if costs == [] then 0.0 else costs[0] + Sum(costs[1..])
  }

  /** The stored conversation after one submitted chat turn: the user's message
      is appended first; the assistant's message and its cost are appended
      together only when the metered call produced an answer. */
  function AfterTurn(messages: seq<Message>, costs: seq<real>, input: string,
                     answer: Result<(string, real)>): (r: (seq<Message>, seq<real>))
    ensures messages + [Human(input)] <= r.0 && costs <= r.1
    ensures answer.Ok? ==> |r.0| == |messages| + 2 && r.0[|r.0| - 1] == AI(answer.value.0) && r.1 == costs + [answer.value.1]
    ensures answer.Err? ==> r.0 == messages + [Human(input)] && r.1 == costs
    ensures AICount(r.0) + |costs| == AICount(messages) + |r.1|
  {
    AICountAppend(messages, [Human(input)]);
    match answer
    case Ok((a, c)) =>
      AICountAppend(messages + [Human(input)], [AI(a)]);
      (messages + [Human(input)] + [AI(a)], costs + [c])
    case Err(_) => (messages + [Human(input)], costs)
  }

  /** What the page reports for a submitted turn: the answer, its cost and the
      sum of the cost log after the append, or the error that ended the turn. */
  function TurnOf(answer: Result<(string, real)>, costs: seq<real>): (t: Turn)
    ensures answer.Err? <==> t.Failed?
    ensures answer.Ok? ==> t == Answered(answer.value.0, answer.value.1, Sum(costs) + answer.value.1)
  {
    match answer
    case Ok((a, c)) =>
      SumAppend(costs, [c]);
      assert Sum([c]) == c + Sum([]);
      Answered(a, c, Sum(costs + [c]))
    case Err(e) => Failed(e)
  }

  lemma {:induction false} AICountAppend(a: seq<Message>, b: seq<Message>)
    ensures AICount(a + b) == AICount(a) + AICount(b)
  {
    if a != [] {
      assert (a + b)[1..] == a[1..] + b;
      AICountAppend(a[1..], b);
    } else {
      assert a + b == b;
    }
  }

  lemma {:induction false} SumAppend(a: seq<real>, b: seq<real>)
    ensures Sum(a + b) == Sum(a) + Sum(b)
  {
    if a != [] {
      assert (a + b)[1..] == a[1..] + b;
      SumAppend(a[1..], b);
    } else {
      assert a + b == b;
    }
  }
}
