/** The cost-metering streaming callback of the langchain wrapper: each
    lifecycle hook adds to one counter of the shared TokenCostProcess and then
    passes the event on to the display handler it extends. */
module CostHandler {
  import opened Failures
  import opened Chat
  import opened TokenCounting

  class StreamlitCostCalcHandler {
    const tk: Tokenizer
    const process: TokenCostProcess
    /** The events passed on to the display handler, in order. */
    var forwarded: seq<Event>

    constructor(tk: Tokenizer, process: TokenCostProcess)
      ensures this.tk == tk && this.process == process && forwarded == []
    {
      this.tk := tk;
      this.process := process;
      forwarded := [];
    }

    /** Counts the first message list of the batch as prompt tokens; later
        lists are ignored. */
    method OnChatModelStart(batch: seq<seq<Message>>) returns (r: Outcome)
      requires process.Valid()
      modifies process`promptTokens, process`totalTokens, this`forwarded
      ensures process.Valid()
      ensures process.promptTokens >= old(process.promptTokens)
      ensures |batch| == 0 ==> r == Fail(IndexError) && unchanged(process) && forwarded == old(forwarded)
      ensures |batch| > 0 ==>
                match ChatTokens(tk, ToDicts(batch[0]), process.model)
                case Ok(n) =>
                  && r == Pass
                  && process.promptTokens == old(process.promptTokens) + n
                  && forwarded == old(forwarded) + [ChatModelStart(batch)]
                case Err(e) =>
                  r == Fail(e) && unchanged(process) && forwarded == old(forwarded)
    {
      if |batch| == 0 {
        return Fail(IndexError);
      }
      var tokenNum := process.TokensFromBaseMessages(tk, batch[0]);
      match tokenNum
      case Err(e) =>
        r := Fail(e);
      case Ok(n) =>
        ChatTokensLowerBound(tk, ToDicts(batch[0]), process.model);
        process.SumPromptTokens(n);
        forwarded := forwarded + [ChatModelStart(batch)];
        r := Pass;
    }

    /** Counts one streamed fragment as completion tokens. */
    method OnLlmNewToken(token: string)
      requires process.Valid()
      modifies process`completionTokens, process`totalTokens, this`forwarded
      ensures process.Valid()
      ensures process.completionTokens == old(process.completionTokens) + tk.encLen(process.encoding, token)
      ensures forwarded == old(forwarded) + [NewToken(token)]
    {
      var tokenNum := process.TokensFromString(tk, token);
      process.SumCompletionTokens(tokenNum);
      forwarded := forwarded + [NewToken(token)];
    }

    /** Counts one successful request. */
    method OnLlmEnd()
      modifies process`successfulRequests, this`forwarded
      ensures process.successfulRequests == old(process.successfulRequests) + 1
      ensures forwarded == old(forwarded) + [LlmEnd]
    {
      process.SumSuccessfulRequests(1);
      forwarded := forwarded + [LlmEnd];
    }
  }

  /** The external model client streaming `reply` for `conversation` to the
      handler: start, one call per fragment in order, and the end hook only if
      the call completes. A hook that raises abandons the call. */
  method Stream(h: StreamlitCostCalcHandler, conversation: seq<Message>, reply: Reply) returns (r: Result<string>)
    requires h.process.Valid()
    modifies h.process`promptTokens, h.process`completionTokens, h.process`totalTokens
    modifies h.process`successfulRequests, h`forwarded
    ensures h.process.Valid()
    ensures match ChatTokens(h.tk, ToDicts(conversation), h.process.model)
            case Err(e) =>
              r == Err(e) && unchanged(h.process) && h.forwarded == old(h.forwarded)
            case Ok(n) =>
              && h.process.promptTokens == old(h.process.promptTokens) + n
              && h.process.completionTokens
                 == old(h.process.completionTokens) + FragmentTokens(h.tk, h.process.encoding, reply.fragments)
              && h.process.successfulRequests == old(h.process.successfulRequests) + (if reply.completes then 1 else 0)
              && r == (if reply.completes then Ok(Concat(reply.fragments)) else Err(Interrupted))
              && h.forwarded == old(h.forwarded) + [ChatModelStart([conversation])] + TokenEvents(reply.fragments)
                                + (if reply.completes then [LlmEnd] else [])
  {
    var started := h.OnChatModelStart([conversation]);
    if started.Fail? {
      return Err(started.error);
    }
    ghost var afterStart := h.forwarded;
    var fragments := reply.fragments;
    for i := 0 to |fragments|
      invariant h.process.Valid()
      invariant h.process.promptTokens == old(h.process.promptTokens) + ChatTokens(h.tk, ToDicts(conversation), h.process.model).value
      invariant h.process.successfulRequests == old(h.process.successfulRequests)
      invariant h.process.completionTokens
                == old(h.process.completionTokens) + FragmentTokens(h.tk, h.process.encoding, fragments[..i])
      invariant h.forwarded == afterStart + TokenEvents(fragments[..i])
    {
      assert fragments[..i + 1][..i] == fragments[..i];
      h.OnLlmNewToken(fragments[i]);
    }
    assert fragments[..|fragments|] == fragments;
    if !reply.completes {
      return Err(Interrupted);
    }
    h.OnLlmEnd();
    r := Ok(Concat(fragments));
  }
}
