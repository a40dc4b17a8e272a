/** Chat-token counting, the price table and the per-request cost accumulator
    (TokenCostProcess). The tokenizer library is a parameter: which encoding a
    model id uses, and how many tokens an encoding turns a text into. */
module TokenCounting {
  import opened Failures
  import opened Chat

  /** The tokenizer library: `encodingFor` is the encoding table (None for an
      unknown model id) and `encLen(enc, s)` the length of the encoding of s. */
  datatype Tokenizer = Tokenizer(encodingFor: string -> Option<string>, encLen: (string, string) -> nat)

  /** The encoding used when the model id has none of its own. */
  const DefaultEncoding: string := "cl100k_base"

  /** A message as the counter sees it: its key/value fields in dictionary order. */
  type MessageDict = seq<(string, string)>

  /** USD per 1000 tokens, by model id. */
  const Prices: map<string, real> := map[
    "gpt-4" := 0.03,
    "gpt-4-0314" := 0.03,
    "gpt-4-completion" := 0.06,
    "gpt-4-0314-completion" := 0.06,
    "gpt-4-32k" := 0.06,
    "gpt-4-32k-0314" := 0.06,
    "gpt-4-32k-completion" := 0.12,
    "gpt-4-32k-0314-completion" := 0.12,
    "gpt-3.5-turbo" := 0.002,
    "gpt-3.5-turbo-0301" := 0.002,
    "text-ada-001" := 0.0004,
    "ada" := 0.0004,
    "text-babbage-001" := 0.0005,
    "babbage" := 0.0005,
    "text-curie-001" := 0.002,
    "curie" := 0.002,
    "text-davinci-003" := 0.02,
    "text-davinci-002" := 0.02,
    "code-davinci-002" := 0.02
  ]

  /** The charge for `tokens` tokens at `price` USD per 1000 tokens. */
  function Cost(price: real, tokens: int): (c: real)
    ensures price >= 0.0 && tokens >= 0 ==> c >= 0.0
    ensures tokens == 0 ==> c == 0.0
  {
    price * tokens as real / 1000.0
  }

  /** Model ids counted with 3 tokens per message and 1 extra per name field. */
  const ExactModels: set<string> := {
    "gpt-3.5-turbo-0613",
    "gpt-3.5-turbo-16k-0613",
    "gpt-4-0314",
    "gpt-4-32k-0314",
    "gpt-4-0613",
    "gpt-4-32k-0613"
  }

  /** The one model id counted with 4 tokens per message and 1 fewer per name field. */
  const LegacyTurbo: string := "gpt-3.5-turbo-0301"

  const TurboFamily: string := "gpt-3.5-turbo"
  const Gpt4Family: string := "gpt-4"
  const TurboCanonical: string := "gpt-3.5-turbo-0613"
  const Gpt4Canonical: string := "gpt-4-0613"

  /** Python's `sub in s` on strings. */
  predicate Contains(s: string, sub: string)
  {
    sub <= s || (s != [] && Contains(s[1..], sub))
  }

  /** A string contains nothing that uses a character it lacks. */
  lemma {:induction false} MissingCharNotContained(s: string, sub: string, k: int)
    requires 0 <= k < |sub|
    requires forall j :: 0 <= j < |s| ==> s[j] != sub[k]
    ensures !Contains(s, sub)
  {
    assert !(sub <= s) by {
      if k < |s| {
        assert s[k] != sub[k];
      }
    }
    if s != [] {
      MissingCharNotContained(s[1..], sub, k);
    }
  }

  /** How num_tokens_from_messages treats a model id. */
  datatype Rule = Overheads(perMessage: int, perName: int) | Delegate(canonical: string) | Unsupported

  function RuleFor(model: string): Rule
  {
    if model in ExactModels then Overheads(3, 1)
    else if model == LegacyTurbo then Overheads(4, -1)
    else if Contains(model, TurboFamily) then Delegate(TurboCanonical)
    else if Contains(model, Gpt4Family) then Delegate(Gpt4Canonical)
    else Unsupported
  }

  /** The encoding counting uses: the model's own, else the default one. */
  function CountingEncoding(tk: Tokenizer, model: string): string
  {
    match tk.encodingFor(model)
    case Some(e) => e
    case None => DefaultEncoding
  }

  /** Tokens of one message's fields: each value's encoded length, plus the
      name adjustment for every field keyed "name". */
  function DictTokens(tk: Tokenizer, enc: string, perName: int, d: MessageDict): int
  {
    if d == [] then 0
    else
      var (key, value) := d[|d| - 1];
      DictTokens(tk, enc, perName, d[..|d| - 1]) + tk.encLen(enc, value) + (if key == "name" then perName else 0)
  }

  /** Tokens of a message list, without the reply primer. */
  function MessagesTokens(tk: Tokenizer, enc: string, perMessage: int, perName: int, ms: seq<MessageDict>): int
  {
    if ms == [] then 0
    else MessagesTokens(tk, enc, perMessage, perName, ms[..|ms| - 1]) + perMessage + DictTokens(tk, enc, perName, ms[|ms| - 1])
  }

  /** Measure for the one level of delegation in the counting rules. */
  function Depth(model: string): nat
  {
    if RuleFor(model).Delegate? then 1 else 0
  }

  /** num_tokens_from_messages as a function: the per-model overheads applied
      to every message, plus 3 tokens priming the reply. */
  function ChatTokens(tk: Tokenizer, ms: seq<MessageDict>, model: string): Result<int>
    decreases Depth(model)
  {
    match RuleFor(model)
    case Overheads(perMessage, perName) => Ok(MessagesTokens(tk, CountingEncoding(tk, model), perMessage, perName, ms) + 3)
    case Delegate(canonical) => ChatTokens(tk, ms, canonical)
    case Unsupported => Err(NotImplemented(model))
  }

  method NumTokensFromMessages(tk: Tokenizer, messages: seq<MessageDict>, model: string) returns (r: Result<int>)
    ensures r == ChatTokens(tk, messages, model)
    decreases Depth(model)
  {
    var encoding := CountingEncoding(tk, model);
    var tokensPerMessage, tokensPerName;
    if model in ExactModels {
      tokensPerMessage, tokensPerName := 3, 1;
    } else if model == LegacyTurbo {
      tokensPerMessage, tokensPerName := 4, -1;
    } else if Contains(model, TurboFamily) {
      r := NumTokensFromMessages(tk, messages, TurboCanonical);
      return;
    } else if Contains(model, Gpt4Family) {
      r := NumTokensFromMessages(tk, messages, Gpt4Canonical);
      return;
    } else {
      return Err(NotImplemented(model));
    }
    var numTokens := 0;
    for i := 0 to |messages|
      invariant numTokens == MessagesTokens(tk, encoding, tokensPerMessage, tokensPerName, messages[..i])
    {
      assert messages[..i + 1][..i] == messages[..i];
      var message := messages[i];
      var before := numTokens;
      numTokens := numTokens + tokensPerMessage;
      for j := 0 to |message|
        invariant numTokens == before + tokensPerMessage + DictTokens(tk, encoding, tokensPerName, message[..j])
      {
        assert message[..j + 1][..j] == message[..j];
        var (key, value) := message[j];
        numTokens := numTokens + tk.encLen(encoding, value);
        if key == "name" {
          numTokens := numTokens + tokensPerName;
        }
      }
      assert message[..|message|] == message;
    }
    assert messages[..|messages|] == messages;
    numTokens := numTokens + 3;
    r := Ok(numTokens);
  }

  // ---------------------------------------------------------------------------
  // Properties of the counting rules

  /** Sum of the encoded lengths of a message's values. */
  function ValuesTokens(tk: Tokenizer, enc: string, d: MessageDict): nat
  {
    if d == [] then 0 else ValuesTokens(tk, enc, d[..|d| - 1]) + tk.encLen(enc, d[|d| - 1].1)
  }

  predicate HasName(d: MessageDict)
  {
    exists i :: 0 <= i < |d| && d[i].0 == "name"
  }

  predicate DistinctKeys(d: MessageDict)
  {
    forall i, j :: 0 <= i < j < |d| ==> d[i].0 != d[j].0
  }

  /** With dictionary keys (all distinct), a message costs its values' tokens
      plus the name adjustment once if it has a name field. */
  lemma {:induction false} NameAdjustment(tk: Tokenizer, enc: string, perName: int, d: MessageDict)
    requires DistinctKeys(d)
    ensures DictTokens(tk, enc, perName, d) == ValuesTokens(tk, enc, d) + (if HasName(d) then perName else 0)
  {
    if d != [] {
      var init := d[..|d| - 1];
      assert DistinctKeys(init);
      NameAdjustment(tk, enc, perName, init);
      if d[|d| - 1].0 == "name" {
        assert !HasName(init) by {
          forall i | 0 <= i < |init|
            ensures init[i].0 != "name"
          {
            assert d[i].0 != d[|d| - 1].0;
          }
        }
        assert HasName(d);
      } else {
        assert HasName(d) == HasName(init) by {
          if HasName(d) {
            var i :| 0 <= i < |d| && d[i].0 == "name";
            assert i < |d| - 1;
            assert init[i].0 == "name";
          }
          if HasName(init) {
            var i :| 0 <= i < |init| && init[i].0 == "name";
            assert d[i].0 == "name";
          }
        }
      }
    }
  }

  /** Counting a concatenated list adds up, with the primer counted once. */
  lemma {:induction false} MessagesTokensAppend(tk: Tokenizer, enc: string, perMessage: int, perName: int, a: seq<MessageDict>, b: seq<MessageDict>)
    ensures MessagesTokens(tk, enc, perMessage, perName, a + b)
         == MessagesTokens(tk, enc, perMessage, perName, a) + MessagesTokens(tk, enc, perMessage, perName, b)
  {
    if b == [] {
      assert a + b == a;
    } else {
      assert (a + b)[..|a + b| - 1] == a + b[..|b| - 1];
      MessagesTokensAppend(tk, enc, perMessage, perName, a, b[..|b| - 1]);
    }
  }

  /** The count of a concatenation is the sum of the counts less one primer. */
  lemma ChatTokensAppend(tk: Tokenizer, a: seq<MessageDict>, b: seq<MessageDict>, model: string)
    requires ChatTokens(tk, a, model).Ok?
    ensures ChatTokens(tk, a + b, model).Ok? && ChatTokens(tk, b, model).Ok?
    ensures ChatTokens(tk, a + b, model).value == ChatTokens(tk, a, model).value + ChatTokens(tk, b, model).value - 3
    decreases Depth(model)
  {
    match RuleFor(model)
    case Overheads(pm, pn) =>
      MessagesTokensAppend(tk, CountingEncoding(tk, model), pm, pn, a, b);
    case Delegate(c) =>
      ChatTokensAppend(tk, a, b, c);
    case Unsupported =>
  }

  /** Each message with distinct keys costs at least 3 tokens under either overhead rule. */
  lemma {:induction false} MessagesTokensLowerBound(tk: Tokenizer, enc: string, perMessage: int, perName: int, ms: seq<MessageDict>)
    requires perMessage + (if perName < 0 then perName else 0) >= 3
    requires forall k :: 0 <= k < |ms| ==> DistinctKeys(ms[k])
    ensures MessagesTokens(tk, enc, perMessage, perName, ms) >= 3 * |ms|
  {
    if ms != [] {
      MessagesTokensLowerBound(tk, enc, perMessage, perName, ms[..|ms| - 1]);
      NameAdjustment(tk, enc, perName, ms[|ms| - 1]);
    }
  }

  /** A supported count is at least 3 per message plus the 3-token primer. */
  lemma ChatTokensLowerBound(tk: Tokenizer, ms: seq<MessageDict>, model: string)
    requires forall k :: 0 <= k < |ms| ==> DistinctKeys(ms[k])
    requires ChatTokens(tk, ms, model).Ok?
    ensures ChatTokens(tk, ms, model).value >= 3 + 3 * |ms|
    decreases Depth(model)
  {
    match RuleFor(model)
    case Overheads(pm, pn) =>
      MessagesTokensLowerBound(tk, CountingEncoding(tk, model), pm, pn, ms);
    case Delegate(c) =>
      ChatTokensLowerBound(tk, ms, c);
    case Unsupported =>
  }

  /** An empty message list costs only the reply primer. */
  lemma EmptyListCount(tk: Tokenizer, model: string)
    requires RuleFor(model) != Unsupported
    ensures ChatTokens(tk, [], model) == Ok(3)
    decreases Depth(model)
  {
    if RuleFor(model).Delegate? {
      EmptyListCount(tk, RuleFor(model).canonical);
    }
  }

  /** Counting fails exactly for ids no rule covers, with NotImplementedError;
      a delegated id reaches a canonical id with its own overheads in one step. */
  lemma Dispatch(tk: Tokenizer, ms: seq<MessageDict>, model: string)
    ensures ChatTokens(tk, ms, model).Err? <==> RuleFor(model).Unsupported?
    ensures ChatTokens(tk, ms, model).Err? ==> ChatTokens(tk, ms, model).error == NotImplemented(model)
    ensures RuleFor(model).Delegate? ==> RuleFor(RuleFor(model).canonical).Overheads?
  {
  }

  /** Any other id containing "gpt-3.5-turbo" is counted exactly as gpt-3.5-turbo-0613. */
  lemma TurboFamilyDelegates(tk: Tokenizer, ms: seq<MessageDict>, model: string)
    requires model !in ExactModels && model != LegacyTurbo
    requires Contains(model, TurboFamily)
    ensures ChatTokens(tk, ms, model) == ChatTokens(tk, ms, TurboCanonical)
  {
  }

  /** Any other id containing "gpt-4" but not "gpt-3.5-turbo" (tested first) is
      counted exactly as gpt-4-0613. */
  lemma Gpt4FamilyDelegates(tk: Tokenizer, ms: seq<MessageDict>, model: string)
    requires model !in ExactModels && model != LegacyTurbo
    requires !Contains(model, TurboFamily) && Contains(model, Gpt4Family)
    ensures ChatTokens(tk, ms, model) == ChatTokens(tk, ms, Gpt4Canonical)
  {
  }

  /** The ids of the exact set count 3 per message, 1 extra per name field. */
  lemma ExactModelCount(tk: Tokenizer, ms: seq<MessageDict>, model: string)
    requires model in ExactModels
    requires forall k :: 0 <= k < |ms| ==> DistinctKeys(ms[k])
    ensures ChatTokens(tk, ms, model) == Ok(3 + PerMessageTotal(tk, CountingEncoding(tk, model), 3, 1, ms))
  {
    PerMessageClosedForm(tk, CountingEncoding(tk, model), 3, 1, ms);
  }

  /** gpt-3.5-turbo-0301 counts 4 per message and 1 fewer per name field. */
  lemma LegacyTurboCount(tk: Tokenizer, ms: seq<MessageDict>)
    requires forall k :: 0 <= k < |ms| ==> DistinctKeys(ms[k])
    ensures ChatTokens(tk, ms, LegacyTurbo) == Ok(3 + PerMessageTotal(tk, CountingEncoding(tk, LegacyTurbo), 4, -1, ms))
  {
    PerMessageClosedForm(tk, CountingEncoding(tk, LegacyTurbo), 4, -1, ms);
  }

  /** Reference sum: per message, the overhead, its values' tokens and the name adjustment. */
  function PerMessageTotal(tk: Tokenizer, enc: string, perMessage: int, perName: int, ms: seq<MessageDict>): int
  {
    if ms == [] then 0
    else perMessage + ValuesTokens(tk, enc, ms[0]) + (if HasName(ms[0]) then perName else 0)
         + PerMessageTotal(tk, enc, perMessage, perName, ms[1..])
  }

  lemma {:induction false} PerMessageClosedForm(tk: Tokenizer, enc: string, perMessage: int, perName: int, ms: seq<MessageDict>)
    requires forall k :: 0 <= k < |ms| ==> DistinctKeys(ms[k])
    ensures MessagesTokens(tk, enc, perMessage, perName, ms) == PerMessageTotal(tk, enc, perMessage, perName, ms)
  {
    if ms != [] {
      PerMessageClosedForm(tk, enc, perMessage, perName, ms[1..]);
      NameAdjustment(tk, enc, perName, ms[0]);
      assert ms == [ms[0]] + ms[1..];
      MessagesTokensAppend(tk, enc, perMessage, perName, [ms[0]], ms[1..]);
      assert [ms[0]][..0] == [];
    }
  }

  /** A priced model that no counting rule covers: counting a conversation for
      text-davinci-003 raises NotImplementedError although it has a price. */
  lemma PricedButNotCountable(tk: Tokenizer, ms: seq<MessageDict>)
    ensures "text-davinci-003" in Prices
    ensures ChatTokens(tk, ms, "text-davinci-003") == Err(NotImplemented("text-davinci-003"))
  {
    var model := "text-davinci-003";
    assert model !in ExactModels && model != LegacyTurbo;
    MissingCharNotContained(model, TurboFamily, 0);
    MissingCharNotContained(model, Gpt4Family, 0);
    assert RuleFor(model) == Unsupported;
  }

  /** An unlisted gpt-3.5-turbo id is counted with the -0613 rules, not rejected. */
  lemma TurboPreviewDelegates(tk: Tokenizer, ms: seq<MessageDict>)
    ensures ChatTokens(tk, ms, "gpt-3.5-turbo-preview") == ChatTokens(tk, ms, TurboCanonical)
    ensures RuleFor(TurboCanonical) == Overheads(3, 1)
  {
    assert TurboFamily <= "gpt-3.5-turbo-preview";
  }

  /** One user message "Hi" under gpt-3.5-turbo-0301: the role value is
      counted like any other value. */
  lemma LegacyTurboSingleMessage(tk: Tokenizer)
    ensures var enc := CountingEncoding(tk, LegacyTurbo);
            ChatTokens(tk, [[("role", "user"), ("content", "Hi")]], LegacyTurbo)
              == Ok(4 + tk.encLen(enc, "user") + tk.encLen(enc, "Hi") + 3)
  {
    var enc := CountingEncoding(tk, LegacyTurbo);
    var d: MessageDict := [("role", "user"), ("content", "Hi")];
    assert d[..1][..0] == [];
    assert DictTokens(tk, enc, -1, d[..1]) == tk.encLen(enc, "user");
    assert DictTokens(tk, enc, -1, d) == tk.encLen(enc, "user") + tk.encLen(enc, "Hi");
    assert [d][..0] == [];
    assert MessagesTokens(tk, enc, 4, -1, [d]) == 4 + DictTokens(tk, enc, -1, d);
  }

  // ---------------------------------------------------------------------------
  // Messages as the counter receives them

  /** The dictionary a chat message is converted to before counting. */
  function ToDict(m: Message): MessageDict
  {
    match m
    case System(c) => [("role", "system"), ("content", c)]
    case Human(c) => [("role", "user"), ("content", c)]
    case AI(c) => [("role", "assistant"), ("content", c)]
  }

  function ToDicts(ms: seq<Message>): (r: seq<MessageDict>)
    ensures |r| == |ms|
    ensures forall k :: 0 <= k < |ms| ==> r[k] == ToDict(ms[k]) && DistinctKeys(r[k])
  {
    seq(|ms|, k requires 0 <= k < |ms| => ToDict(ms[k]))
  }

  /** Sum of the encoded lengths of streamed fragments. */
  function FragmentTokens(tk: Tokenizer, enc: string, fragments: seq<string>): nat
  {
    if fragments == [] then 0
    else FragmentTokens(tk, enc, fragments[..|fragments| - 1]) + tk.encLen(enc, fragments[|fragments| - 1])
  }

  // ---------------------------------------------------------------------------
  // The accumulator

  /** Token counters for one model request, and the cost they come to. */
  class TokenCostProcess {
    const model: string
    const encoding: string
    var totalTokens: int
    var promptTokens: int
    var completionTokens: int
    var successfulRequests: int

    ghost predicate Valid()
      reads this
    {
      totalTokens == promptTokens + completionTokens
    }

    constructor(model: string, encoding: string)
      ensures this.model == model && this.encoding == encoding
      ensures Valid()
      ensures promptTokens == 0 && completionTokens == 0 && totalTokens == 0 && successfulRequests == 0
    {
      this.model := model;
      this.encoding := encoding;
      totalTokens, promptTokens, completionTokens, successfulRequests := 0, 0, 0, 0;
    }

    method SumPromptTokens(tokens: int)
      requires Valid()
      modifies this`promptTokens, this`totalTokens
      ensures Valid()
      ensures promptTokens == old(promptTokens) + tokens
    {
      promptTokens := promptTokens + tokens;
      totalTokens := totalTokens + tokens;
    }

    method SumCompletionTokens(tokens: int)
      requires Valid()
      modifies this`completionTokens, this`totalTokens
      ensures Valid()
      ensures completionTokens == old(completionTokens) + tokens
    {
      completionTokens := completionTokens + tokens;
      totalTokens := totalTokens + tokens;
    }

    method SumSuccessfulRequests(requests: int)
      modifies this`successfulRequests
      ensures successfulRequests == old(successfulRequests) + requests
    {
      successfulRequests := successfulRequests + requests;
    }

    /** Price of the model times the tokens counted so far, per 1000 tokens;
        a model missing from the price table raises KeyError. */
    function TotalCost(): (r: Result<real>)
      reads this
      requires Valid()
      ensures r.Ok? <==> model in Prices
      ensures r.Err? ==> r.error == KeyError(model)
      ensures r.Ok? ==> r.value == Cost(Prices[model], promptTokens + completionTokens)
    {
      if model in Prices then Ok(Cost(Prices[model], totalTokens)) else Err(KeyError(model))
    }

    /** The encoded length of one string under the accumulator's own encoding;
        unlike the counting function there is no fallback encoding, so it
        agrees with counting exactly when that encoding is the model's own. */
    function TokensFromString(tk: Tokenizer, s: string): (n: nat)
      reads this
      ensures n == tk.encLen(encoding, s)
      ensures tk.encodingFor(model) == Some(encoding) ==> n == tk.encLen(CountingEncoding(tk, model), s)
    {
      tk.encLen(encoding, s)
    }

    method TokensFromBaseMessages(tk: Tokenizer, messages: seq<Message>) returns (r: Result<int>)
      ensures r == ChatTokens(tk, ToDicts(messages), model)
    {
      r := NumTokensFromMessages(tk, ToDicts(messages), model);
    }
  }

  /** TokenCostProcess(model) of the langchain wrapper: looking up the model's
      encoding raises KeyError for an id the tokenizer does not know. */
  method NewTokenCostProcess(tk: Tokenizer, model: string) returns (r: Result<TokenCostProcess>)
    ensures r.Err? <==> tk.encodingFor(model).None?
    ensures r.Err? ==> r.error == KeyError(model)
    ensures r.Ok? ==> fresh(r.value) && r.value.model == model && r.value.encoding == tk.encodingFor(model).value
    ensures r.Ok? ==> r.value.Valid() && r.value.promptTokens == 0 && r.value.completionTokens == 0
                      && r.value.successfulRequests == 0
  {
    match tk.encodingFor(model)
    case None =>
      r := Err(KeyError(model));
    case Some(enc) =>
      var process := new TokenCostProcess(model, enc);
      r := Ok(process);
  }

  // ---------------------------------------------------------------------------
  // What one metered streaming call reports

  /** The answer and cost a fresh accumulator reports for one streamed call:
      the encoding lookup, the prompt count, the stream and the price lookup
      can each fail; otherwise the cost is the price of the prompt's count
      plus every fragment's tokens. */
  function StreamedAnswer(tk: Tokenizer, model: string, conversation: seq<Message>, reply: Reply): Result<(string, real)>
  {
    match tk.encodingFor(model)
    case None => Err(KeyError(model))
    case Some(enc) =>
      match ChatTokens(tk, ToDicts(conversation), model)
      case Err(e) => Err(e)
      case Ok(prompt) =>
        if !reply.completes then Err(Interrupted)
        else if model !in Prices then Err(KeyError(model))
        else Ok((Concat(reply.fragments), Cost(Prices[model], prompt + FragmentTokens(tk, enc, reply.fragments))))
  }

  /** A metered answer always has a non-negative cost, and an unpriced model
      never yields one. */
  lemma StreamedAnswerCost(tk: Tokenizer, model: string, conversation: seq<Message>, reply: Reply)
    ensures model !in Prices ==> StreamedAnswer(tk, model, conversation, reply).Err?
    ensures !reply.completes ==> StreamedAnswer(tk, model, conversation, reply).Err?
    ensures StreamedAnswer(tk, model, conversation, reply).Ok? ==> StreamedAnswer(tk, model, conversation, reply).value.1 >= 0.0
  {
    if StreamedAnswer(tk, model, conversation, reply).Ok? {
      ChatTokensLowerBound(tk, ToDicts(conversation), model);
      assert Prices[model] >= 0.0;
    }
  }
}
