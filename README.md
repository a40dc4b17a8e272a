# Chat cost bookkeeping of the LangChain Streamlit chat app

This project models, in Dafny, the bookkeeping core of a Streamlit chat
front-end to OpenAI chat models:

- **Token counting and cost** (`token_counting.dfy`): the per-model
  counting rule of `num_tokens_from_messages` (exact models, the legacy
  `gpt-3.5-turbo-0301` rule, delegation of other `gpt-3.5-turbo*` and
  `gpt-4*` ids to the canonical `-0613` rules, rejection of everything
  else), the nested counting loop, the price table, and the
  `TokenCostProcess` accumulator with its four counters. Both copies of this
  logic in the repository are modelled by this one module.
- **Streaming callback bookkeeping** (`cost_handler.dfy`,
  `legacy_cost_handler.dfy`): the three lifecycle hooks of the two
  `StreamlitCostCalcHandler` classes. Each adds to one counter and then
  passes the event on to the display handler. A driver method `Stream`
  plays the model client's part: it calls the start hook, one token hook per
  fragment, and the end hook if the call completes.
- **Session stores** (`chat_session.dfy`, `simple_session.dfy`): the two
  `StreamlistSessionManager` classes over the shared Streamlit session
  dictionary.
- **Chat pages** (`base_chatgpt.dfy`, `chatgpt_chatbot.dfy`,
  `chatbot_page.dfy`, `app_main.dfy`, with the shared history display in
  `history.dfy`): the seed/clear rules, the history display that pops one
  cost per assistant message from a copy of the cost log, and the turn that
  appends the user message, then the assistant message together with its
  cost.

Shared vocabulary (messages, replies, hook events, turns) is in `chat.dfy`;
the error values raised by the source are in `failures.dfy`.

External behaviour is given as input instead of being computed:

- **tiktoken** is a `Tokenizer` value. It holds an encoding lookup by model
  id, which may fail, and an encoded-length function.
- **The model call** is a `Reply` value. It holds the text fragments the
  client streams and whether the call completes or raises.
- **Widgets** (radio, clear button, form submit, text area) are plain
  parameters of the page methods.

The main results:

- Both metered-call paths (`BaseChatGPT.BaseChatGPTPage.GetStreamingAnswer`
  and `LegacyCostHandler.CostedAnswer`) return exactly the answer and cost
  given by one specification function, `TokenCounting.StreamedAnswer`. The
  cost is the price of the prompt count plus the streamed fragments' count,
  using a fresh accumulator.
- The history display succeeds exactly when there are at least as many
  costs as assistant messages. The i-th assistant message is shown with the
  i-th cost.
- Each page turn keeps "assistant messages − costs" unchanged. So a cost
  log aligned with the assistant messages stays aligned.
- The page in `pages/chatgpt/chatbot.py` reseeds on every render. Its
  history is therefore always just the system prompt, and the model always
  sees only the seed and the new message. The 16k model it offers is not in
  the price table, so every metered call with it fails; a completed stream
  fails with `KeyError` at the price lookup.

## Model

| member | source | states |
|---|---|---|
| TokenCounting.Cost | app/chatgpt_app/langchain_wrapper/token_cost_process.py:101 | the charge for a token count at a per-1000 price is non-negative for a non-negative price and count, and zero for no tokens |
| TokenCounting.MissingCharNotContained | app/chatgpt_app/langchain_wrapper/token_cost_process.py:54-57 | the substring test fails whenever the id lacks some character of the family name |
| TokenCounting.NumTokensFromMessages | app/chatgpt_app/langchain_wrapper/token_cost_process.py:33-75 | the nested counting loop returns exactly the rule-based count `ChatTokens`, including the NotImplementedError for ids no rule covers |
| TokenCounting.NameAdjustment | app/chatgpt_app/langchain_wrapper/token_cost_process.py:70-73 | a message with distinct keys counts the encoded length of every value plus the per-name overhead exactly when it has a "name" key |
| TokenCounting.MessagesTokensAppend | app/chatgpt_app/langchain_wrapper/token_cost_process.py:68-73 | the per-message part of the count is additive over concatenated message lists |
| TokenCounting.ChatTokensAppend | app/chatgpt_app/langchain_wrapper/token_cost_process.py:67-75 | counting two lists together gives the sum of their counts minus one reply primer of 3 |
| TokenCounting.MessagesTokensLowerBound | app/chatgpt_app/langchain_wrapper/token_cost_process.py:68-73 | with at least 3 tokens of overhead per message, every message adds at least 3 |
| TokenCounting.ChatTokensLowerBound | app/chatgpt_app/langchain_wrapper/token_cost_process.py:67-75 | a successful count of converted messages is at least 3 + 3 per message |
| TokenCounting.EmptyListCount | app/chatgpt_app/langchain_wrapper/token_cost_process.py:67-75 | an empty message list counts 3 for every supported model |
| TokenCounting.Dispatch | app/chatgpt_app/langchain_wrapper/token_cost_process.py:41-65 | counting fails exactly for ids no rule covers, with NotImplementedError naming the id, and a delegated id lands on a rule with fixed overheads (recursion depth at most 1) |
| TokenCounting.TurboFamilyDelegates | app/chatgpt_app/langchain_wrapper/token_cost_process.py:54-56 | any other id containing "gpt-3.5-turbo" counts exactly as "gpt-3.5-turbo-0613" |
| TokenCounting.Gpt4FamilyDelegates | app/chatgpt_app/langchain_wrapper/token_cost_process.py:57-59 | any other id containing "gpt-4" but not "gpt-3.5-turbo" counts exactly as "gpt-4-0613" (the gpt-3.5 test comes first) |
| TokenCounting.ExactModelCount | app/chatgpt_app/langchain_wrapper/token_cost_process.py:41-50 | the six exact ids count 3 + Σ(3 + value lengths + 1 if named) over the messages |
| TokenCounting.LegacyTurboCount | app/chatgpt_app/langchain_wrapper/token_cost_process.py:51-53 | "gpt-3.5-turbo-0301" counts 3 + Σ(4 + value lengths − 1 if named) over the messages |
| TokenCounting.PerMessageClosedForm | app/chatgpt_app/langchain_wrapper/token_cost_process.py:67-75 | the loop's running total equals a per-message sum of overhead, value lengths (role included) and the name adjustment |
| TokenCounting.PricedButNotCountable | app/chatgpt_app/langchain_wrapper/token_cost_process.py:60-65 | "text-davinci-003" is in the price table but counting it raises NotImplementedError |
| TokenCounting.TurboPreviewDelegates | app/chatgpt_app/langchain_wrapper/token_cost_process.py:54-56 | an unlisted turbo id such as "gpt-3.5-turbo-preview" counts as "gpt-3.5-turbo-0613", which uses the 3/+1 overheads |
| TokenCounting.LegacyTurboSingleMessage | app/chatgpt_app/langchain_wrapper/token_cost_process.py:51-53 | one user message "Hi" under "gpt-3.5-turbo-0301" counts 4 + len("user") + len("Hi") + 3 |
| TokenCounting.ToDicts | app/chatgpt_app/langchain_wrapper/token_cost_process.py:114 | message conversion keeps length and order, and every converted message has distinct keys |
| TokenCounting.TokenCostProcess.constructor | app/chatgpt_app/langchain_wrapper/token_cost_process.py:78-86 | a new accumulator has all four counters at 0 and satisfies total = prompt + completion |
| TokenCounting.TokenCostProcess.SumPromptTokens | app/chatgpt_app/langchain_wrapper/token_cost_process.py:88-90 | adds to prompt_tokens and total_tokens only, keeping total = prompt + completion |
| TokenCounting.TokenCostProcess.SumCompletionTokens | app/chatgpt_app/langchain_wrapper/token_cost_process.py:92-94 | adds to completion_tokens and total_tokens only, keeping total = prompt + completion |
| TokenCounting.TokenCostProcess.SumSuccessfulRequests | app/chatgpt_app/langchain_wrapper/token_cost_process.py:96-97 | adds its argument to successful_requests and touches nothing else |
| TokenCounting.TokenCostProcess.TotalCost | app/chatgpt_app/langchain_wrapper/token_cost_process.py:99-101 | succeeds exactly for priced models, with price × (prompt + completion) / 1000; otherwise KeyError naming the model |
| TokenCounting.TokenCostProcess.TokensFromString | app/chatgpt_app/langchain_wrapper/token_cost_process.py:118-119 | the encoded length of a string under the accumulator's own encoding, with no cl100k_base fallback; it agrees with the counting function's encoding when that encoding is the model's own (the newer handler counts each fragment with it) |
| TokenCounting.TokenCostProcess.TokensFromBaseMessages | app/chatgpt_app/langchain_wrapper/token_cost_process.py:113-116 | the count of the converted messages under the accumulator's model |
| TokenCounting.NewTokenCostProcess | app/chatgpt_app/langchain_wrapper/token_cost_process.py:84-86 | fails with KeyError exactly when the tokenizer has no encoding for the model; otherwise a fresh accumulator at zero with that encoding |
| TokenCounting.StreamedAnswerCost | app/chatgpt_app/pages/chatgpt/base_chatgpt.py:60-65 | a metered call with an unpriced model or an interrupted stream never yields an answer, and a yielded cost is non-negative |
| CostHandler.StreamlitCostCalcHandler.constructor | app/chatgpt_app/langchain_wrapper/callbacks/streamlit/streamlit_callback_handler.py:14-31 | the handler holds the given accumulator and has forwarded nothing |
| CostHandler.StreamlitCostCalcHandler.OnChatModelStart | app/chatgpt_app/langchain_wrapper/callbacks/streamlit/streamlit_callback_handler.py:33-43 | adds the count of only the batch's first message list to prompt_tokens, then forwards; a failed count changes nothing and forwards nothing |
| CostHandler.StreamlitCostCalcHandler.OnLlmNewToken | app/chatgpt_app/langchain_wrapper/callbacks/streamlit/streamlit_callback_handler.py:45-49 | adds the fragment's encoded length (tokens_from_string) to completion_tokens, then forwards |
| CostHandler.StreamlitCostCalcHandler.OnLlmEnd | app/chatgpt_app/langchain_wrapper/callbacks/streamlit/streamlit_callback_handler.py:51-54 | adds exactly 1 to successful_requests, then forwards |
| CostHandler.Stream | app/chatgpt_app/langchain_wrapper/callbacks/streamlit/streamlit_callback_handler.py:33-54 | after start, n fragments and end: prompt += count, completion += Σ fragment lengths, successful += 1; an interrupted stream keeps the counted tokens and adds no request; events are forwarded in arrival order |
| LegacyCostHandler.StreamlitCostCalcHandler.constructor | app/openai_api_cost_handler.py:126-146 | the handler holds the accumulator and the encoding of its model |
| LegacyCostHandler.StreamlitCostCalcHandler.OnChatModelStart | app/openai_api_cost_handler.py:148-161 | adds num_tokens_from_messages of only the first message list to prompt_tokens, then forwards |
| LegacyCostHandler.StreamlitCostCalcHandler.OnLlmNewToken | app/openai_api_cost_handler.py:163-168 | adds the fragment's encoded length under the handler's encoding to completion_tokens, then forwards |
| LegacyCostHandler.StreamlitCostCalcHandler.OnLlmEnd | app/openai_api_cost_handler.py:170-172 | adds exactly 1 to successful_requests, then forwards |
| LegacyCostHandler.Stream | app/openai_api_cost_handler.py:148-172 | the same per-call totals as CostHandler.Stream, with the handler's own encoding for fragments |
| LegacyCostHandler.CostedAnswer | app/chatgpt_app/pages/chatbot.py:84-87 | a fresh accumulator and handler per turn report exactly `StreamedAnswer` for the model and conversation |
| Chat.AfterTurn | app/chatgpt_app/pages/chatbot.py:79-90 | a turn appends the user message, then the assistant message and its cost together only on success; it keeps earlier entries and keeps "assistant messages − costs" unchanged |
| Chat.TurnOf | app/chatgpt_app/pages/chatbot.py:84-93 | a turn fails exactly when the call fails; otherwise it reports the answer, its cost and the old total plus that cost |
| History.DisplayedSucceeds | app/chatgpt_app/pages/chatgpt/chatbot.py:10-21 | the history display succeeds exactly when there are at least as many costs as assistant messages, and otherwise fails with IndexError |
| History.DisplayedPairs | app/chatgpt_app/pages/chatgpt/chatbot.py:10-21 | every message is shown in place; the assistant message at i shows cost number AICount(messages before i), and user and system messages use no cost |
| History.MessageHistory | app/chatgpt_app/pages/chatgpt/chatbot.py:10-21 | the loop that pops costs from a private copy computes exactly the display `Displayed` |
| ChatSession.StreamlistSessionManager.constructor | app/chatgpt_app/session.py:12-15 | building a manager empties the shared session's messages and costs, wiping any live conversation |
| ChatSession.StreamlistSessionManager.GetMessages | app/chatgpt_app/session.py:26-27 | returns the stored message list unchanged |
| ChatSession.StreamlistSessionManager.AddMessage | app/chatgpt_app/session.py:29-30 | appends one message at the end; earlier messages and costs are unchanged |
| ChatSession.StreamlistSessionManager.ClearMessages | app/chatgpt_app/session.py:32-33 | empties only the message list |
| ChatSession.StreamlistSessionManager.GetCosts | app/chatgpt_app/session.py:38-39 | returns the stored cost log unchanged |
| ChatSession.StreamlistSessionManager.AddCost | app/chatgpt_app/session.py:41-42 | appends one cost at the end; messages are unchanged |
| ChatSession.StreamlistSessionManager.ClearCosts | app/chatgpt_app/session.py:44-45 | empties only the cost log |
| ChatSession.StreamlistSessionManager.GetModelName | app/chatgpt_app/session.py:50-51 | returns the stored model id |
| ChatSession.StreamlistSessionManager.RegisterModelName | app/chatgpt_app/session.py:53-54 | stores the model id and changes nothing else |
| ChatSession.StreamlistSessionManager.ClearUrlInput | app/chatgpt_app/session.py:59-60 | sets only the URL entry to "" |
| ChatSession.StreamlistSessionManager.SetMapPromptInput | app/chatgpt_app/session.py:65-66 | stores the map prompt and changes nothing else |
| ChatSession.StreamlistSessionManager.GetMapPromptInput | app/chatgpt_app/session.py:68-69 | returns the stored map prompt |
| ChatSession.StreamlistSessionManager.SetCombinePromptInput | app/chatgpt_app/session.py:74-75 | stores the combine prompt and changes nothing else |
| ChatSession.StreamlistSessionManager.GetCombinePromptInput | app/chatgpt_app/session.py:77-78 | returns the stored combine prompt |
| ChatSession.StreamlistSessionManager.SetRefinePromptInput | app/chatgpt_app/session.py:83-84 | stores the refine prompt and changes nothing else |
| ChatSession.StreamlistSessionManager.GetRefinePromptInput | app/chatgpt_app/session.py:86-87 | returns the stored refine prompt |
| ChatSession.StreamlistSessionManager.GetMaxToken | app/chatgpt_app/session.py:92-93 | returns the stored token limit |
| ChatSession.StreamlistSessionManager.RegisterMaxToken | app/chatgpt_app/session.py:95-96 | stores the token limit and changes nothing else |
| ChatSession.PromptInputsRoundTrip | app/chatgpt_app/session.py:65-96 | each prompt-input and max-token setter round-trips through its getter and leaves messages, costs, model id and URL as they were |
| SimpleSession.StreamlistSessionManager.constructor | app/session.py:12-15 | building a manager empties both lists of the shared session |
| SimpleSession.StreamlistSessionManager.GetMessages | app/session.py:20-21 | returns the stored message list unchanged |
| SimpleSession.StreamlistSessionManager.AddMessage | app/session.py:23-24 | appends exactly one message at the end; the prefix is kept |
| SimpleSession.StreamlistSessionManager.ClearMessages | app/session.py:26-27 | empties only the message list |
| SimpleSession.StreamlistSessionManager.GetCosts | app/session.py:32-33 | returns the stored cost log unchanged |
| SimpleSession.StreamlistSessionManager.AddCost | app/session.py:35-36 | appends exactly one cost at the end; the prefix is kept |
| SimpleSession.StreamlistSessionManager.ClearCosts | app/session.py:38-39 | empties only the cost log |
| BaseChatGPT.BaseChatGPTPage.constructor | app/chatgpt_app/pages/chatgpt/base_chatgpt.py:15-19 | a new page has no sidebar and no clear-button state |
| BaseChatGPT.BaseChatGPTPage.InitPage | app/chatgpt_app/pages/chatgpt/base_chatgpt.py:21-25 | builds the sidebar and records the clear button's state |
| BaseChatGPT.BaseChatGPTPage.SelectModel | app/chatgpt_app/pages/chatgpt/base_chatgpt.py:27-40 | stores the chosen id, one of the three offered, and the client is built with that same stored id |
| BaseChatGPT.BaseChatGPTPage.InitMessages | app/chatgpt_app/pages/chatgpt/base_chatgpt.py:42-45 | leaves messages = [System("You are a helpful assistant.")] and costs = [], which are aligned |
| BaseChatGPT.BaseChatGPTPage.BaseComponents | app/chatgpt_app/pages/chatgpt/base_chatgpt.py:47-52 | messages and costs change only when the clear button is pressed, and then are reseeded |
| BaseChatGPT.BaseChatGPTPage.TotalCostComponent | app/chatgpt_app/pages/chatgpt/base_chatgpt.py:54-58 | shows the sum of the stored costs exactly when the sidebar exists, without changing the log |
| BaseChatGPT.BaseChatGPTPage.GetStreamingAnswer | app/chatgpt_app/pages/chatgpt/base_chatgpt.py:60-65 | a fresh accumulator and handler per call report exactly `StreamedAnswer` for the client's model, so the cost counts only this call |
| BaseChatGPT.OfferedModels | app/chatgpt_app/pages/chatgpt/base_chatgpt.py:28 | of the offered ids, "gpt-3.5-turbo" and "gpt-4" are priced and delegate to their canonical rules, while "gpt-3.5-turbo-16k-0613" is unpriced: every metered call with it fails, and one whose stream completes fails with KeyError at the price lookup |
| ChatGPTChatBot.Render | app/chatgpt_app/pages/chatgpt/chatbot.py:23-57 | every render reseeds, so the history shows only the system prompt; a non-empty submission appends the user message and, on success, the answer with its cost; otherwise nothing changes after the reseed; costs stay aligned |
| ChatBotPage.InitMessages | app/chatgpt_app/pages/chatbot.py:18-23 | reseeds exactly when clear is pressed or the list is empty; a non-empty conversation is kept as is, so the seed is never duplicated |
| ChatBotPage.ChatBotPage.constructor | app/chatgpt_app/pages/base.py:6-9 | the page holds the given session manager |
| ChatBotPage.ChatBotPage.Render | app/chatgpt_app/pages/chatbot.py:46-93 | history = display of the (possibly reseeded) conversation against a copy of the costs; a turn sends the conversation ending with the new user message, stores the result as `AfterTurn` and reports `TurnOf`; "assistant messages − costs" is unchanged |
| App.SelectModel | app/app.py:23-39 | "GPT-3.5" selects a priced turbo id and any other choice a priced gpt-4 id, each counted by its family's canonical rule |
| App.SelectedModelAnswers | app/app.py:23-31 | with an offered model known to the tokenizer, a metered turn succeeds exactly when the stream completes |
| App.InitMessages | app/app.py:16-20 | reseeds when clear is pressed or the "messages" key is absent, and otherwise leaves both entries untouched |
| App.Render | app/app.py:42-90 | history = display of the conversation after seeding; a turn sends the conversation ending with the new user message, stores `AfterTurn` and reports `TurnOf`; a failed display or no submission changes nothing further; "assistant messages − costs" is unchanged |

`App.SelectModel` also models the identical `select_model` of
`app/chatgpt_app/pages/chatbot.py:26-42`, which `ChatBotPage.ChatBotPage.Render` uses.
`History.MessageHistory` is also the history loop of
`app/chatgpt_app/pages/chatbot.py:55-69` and `app/app.py:51-65`.
The duplicate counting function, price table and accumulator of
`app/openai_api_cost_handler.py:14-121` are modelled by the same
`TokenCounting` members as `token_cost_process.py`.

## Left out

- tiktoken's byte-pair encoding. Encoded lengths and the encoding lookup are parameters (`Tokenizer`).
- The fallback to "cl100k_base" in the counting function is modelled (`CountingEncoding`), but which ids tiktoken knows is left to the `Tokenizer` parameter.
- LangChain internals. This covers the chat client's request, how `_convert_message_to_dict` handles other message kinds, and the display superclass. The superclass's rendering and the thought-label update after the end hook are left out. A forwarded event is only recorded in `forwarded`.
- LangChain catches exceptions raised inside callbacks. Here a failing hook abandons the call instead. With the models the pages offer, the start hook cannot fail.
- Floating-point arithmetic. Costs and prices are exact `real`s. The `:.5f` formatting and the `cost_summary` text are not modelled.
- Streamlit rendering: widgets, forms, sidebar, chat bubbles and markdown. Widget values are parameters. A displayed item is a `Shown` value, and the sidebar total is a returned value.
- The temperature slider. It only configures the external client.
- An exception raised during a page render ends that render. Here it is a `Failed` turn, or a `history` error with no turn.
- Python list aliasing. The pages' `messages` variable aliases the session list. The model re-reads the list after the user message is appended, so the model call sees the same contents.
- TokenCounting.TokenCostProcess.constructor: it takes the encoding as an argument, which the legacy class in `app/openai_api_cost_handler.py:96-97` does not have. That class's handler looks the encoding up itself. Here the lookup happens first, in `LegacyCostHandler.CostedAnswer`, with the same KeyError result.
- ChatSession.StreamlistSessionManager.constructor: only lines 14-15 are modelled (messages and costs reset), and the model's constructor returns normally. In the source, lines 16 and 19-21 key the model-name and prompt entries by the enum member itself, while the getters read `.name`; lines 17-18 use `.name`. `SessionKey` in `app/chatgpt_app/const.py:4-11` has no `MODEL_NAME`, `MAX_TOKEN` or prompt members, so with that file line 16 raises AttributeError right after the reset and the constructor never returns. The model does not reproduce this failure and promises nothing about the scalar entries after construction.
- ChatSession.StreamlistSessionManager.GetModelName: with the shipped `const.py`, this accessor and RegisterModelName, the three prompt-input getter/setter pairs, and GetMaxToken/RegisterMaxToken all raise AttributeError, because the `SessionKey` members they name do not exist. The model gives them the behaviour the code evidently intends (store and return the entry) and does not reproduce the AttributeError. An entry read before it is ever written would raise KeyError even with those members defined; the model always has a value there.
- The summarize pages (`web_summarize.py`, `youtube_summrize.py`): HTTP fetching, HTML parsing, transcript loading and summarize chains. They store a cost with no assistant message, so "assistant messages = costs" is a property of the chat pages only. The display lemmas need only "assistant messages ≤ costs".
- Navigation, logging, constants, prompt loading and the BasePage `render` stub. These hold no bookkeeping logic.
