/** The older cost-metering callback: it keeps the model's encoding itself and
    counts the prompt with num_tokens_from_messages directly. Its price table,
    counting function and accumulator are the same as TokenCounting's. */
module LegacyCostHandler {
  import opened Failures
  import opened Chat
  import opened TokenCounting

  class StreamlitCostCalcHandler {
    const tk: Tokenizer
    const process: TokenCostProcess
    const encoding: string
    /** The events passed on to the display handler, in order. */
    var forwarded: seq<Event>

    /** The encoding lookup that raises KeyError for an unknown model id is
        done by the caller (see CostedAnswer); this is the handler it builds. */
    constructor(tk: Tokenizer, process: TokenCostProcess)
      requires tk.encodingFor(process.model).Some?
      ensures this.tk == tk && this.process == process && forwarded == []
      ensures encoding == tk.encodingFor(process.model).value
    {
      this.tk := tk;
      this.process := process;
      encoding := tk.encodingFor(process.model).value;
      forwarded := [];
    }

    /** Counts the first message list of the batch as prompt tokens. */
    method OnChatModelStart(batch: seq<seq<Message>>) returns (r: Outcome)
      requires process.Valid()
      modifies process`promptTokens, process`totalTokens, this`forwarded
      ensures process.Valid()
      ensures process.promptTokens >= old(process.promptTokens)
      ensures |batch| == 0 ==> r == Fail(IndexError) && unchanged(process) && forwarded == old(forwarded)
      ensures |batch| > 0 ==>
                match ChatTokens(tk, ToDicts(batch[0]), process.model)
                case Ok(n) =>
                  && r == Pass
                  && process.promptTokens == old(process.promptTokens) + n
                  && forwarded == old(forwarded) + [ChatModelStart(batch)]
                case Err(e) =>
                  r == Fail(e) && unchanged(process) && forwarded == old(forwarded)
    {
      if |batch| == 0 {
        return Fail(IndexError);
      }
      var tokenNum := NumTokensFromMessages(tk, ToDicts(batch[0]), process.model);
      match tokenNum
      case Err(e) =>
        r := Fail(e);
      case Ok(n) =>
        ChatTokensLowerBound(tk, ToDicts(batch[0]), process.model);
        process.SumPromptTokens(n);
        forwarded := forwarded + [ChatModelStart(batch)];
        r := Pass;
    }

    /** Counts one streamed fragment as completion tokens, with the handler's own encoding. */
    method OnLlmNewToken(token: string)
      requires process.Valid()
      modifies process`completionTokens, process`totalTokens, this`forwarded
      ensures process.Valid()
      ensures process.completionTokens == old(process.completionTokens) + tk.encLen(encoding, token)
      ensures forwarded == old(forwarded) + [NewToken(token)]
    {
      process.SumCompletionTokens(tk.encLen(encoding, token));
      forwarded := forwarded + [NewToken(token)];
    }

    /** Counts one successful request. */
    method OnLlmEnd()
      modifies process`successfulRequests, this`forwarded
      ensures process.successfulRequests == old(process.successfulRequests) + 1
      ensures forwarded == old(forwarded) + [LlmEnd]
    {
      process.SumSuccessfulRequests(1);
      forwarded := forwarded + [LlmEnd];
    }
  }

  /** The external model client streaming `reply` for `conversation` to the
      handler, as in CostHandler.Stream. */
  method Stream(h: StreamlitCostCalcHandler, conversation: seq<Message>, reply: Reply) returns (r: Result<string>)
    requires h.process.Valid()
    modifies h.process`promptTokens, h.process`completionTokens, h.process`totalTokens
    modifies h.process`successfulRequests, h`forwarded
    ensures h.process.Valid()
    ensures match ChatTokens(h.tk, ToDicts(conversation), h.process.model)
            case Err(e) =>
              r == Err(e) && unchanged(h.process) && h.forwarded == old(h.forwarded)
            case Ok(n) =>
              && h.process.promptTokens == old(h.process.promptTokens) + n
              && h.process.completionTokens
                 == old(h.process.completionTokens) + FragmentTokens(h.tk, h.encoding, reply.fragments)
              && h.process.successfulRequests == old(h.process.successfulRequests) + (if reply.completes then 1 else 0)
              && r == (if reply.completes then Ok(Concat(reply.fragments)) else Err(Interrupted))
              && h.forwarded == old(h.forwarded) + [ChatModelStart([conversation])] + TokenEvents(reply.fragments)
                                + (if reply.completes then [LlmEnd] else [])
  {
    var started := h.OnChatModelStart([conversation]);
    if started.Fail? {
      return Err(started.error);
    }
    ghost var afterStart := h.forwarded;
    var fragments := reply.fragments;
    for i := 0 to |fragments|
      invariant h.process.Valid()
      invariant h.process.promptTokens == old(h.process.promptTokens) + ChatTokens(h.tk, ToDicts(conversation), h.process.model).value
      invariant h.process.successfulRequests == old(h.process.successfulRequests)
      invariant h.process.completionTokens
                == old(h.process.completionTokens) + FragmentTokens(h.tk, h.encoding, fragments[..i])
      invariant h.forwarded == afterStart + TokenEvents(fragments[..i])
    {
      assert fragments[..i + 1][..i] == fragments[..i];
      h.OnLlmNewToken(fragments[i]);
    }
    assert fragments[..|fragments|] == fragments;
    if !reply.completes {
      return Err(Interrupted);
    }
    h.OnLlmEnd();
    r := Ok(Concat(fragments));
  }

  /** One metered turn of the chat pages that use this handler: a fresh
      TokenCostProcess and handler, the streamed call, then the total cost.
      It reports exactly what a fresh accumulator reports for this call. */
  method CostedAnswer(tk: Tokenizer, modelName: string, messages: seq<Message>, reply: Reply) returns (r: Result<(string, real)>)
    ensures r == StreamedAnswer(tk, modelName, messages, reply)
  {
    var encoding := tk.encodingFor(modelName);
    if encoding.None? {
      return Err(KeyError(modelName));
    }
    var process := new TokenCostProcess(modelName, encoding.value);
    var handler := new StreamlitCostCalcHandler(tk, process);
    ghost var prompt := ChatTokens(tk, ToDicts(messages), modelName);
    var answer := Stream(handler, messages, reply);
    if answer.Err? {
      return Err(answer.error);
    }
    assert prompt.Ok? && reply.completes;
    assert process.promptTokens == prompt.value;
    assert process.completionTokens == FragmentTokens(tk, encoding.value, reply.fragments);
    var cost := process.TotalCost();
    if cost.Err? {
      return Err(cost.error);
    }
    r := Ok((answer.value, cost.value));
  }
}
