# Chatbot Platform — a verified model of its chat core

This project models, in Dafny, the core of a chatbot platform. It has a
React front end and a FastAPI back end:

- **Streaming chat hook** (`useChat.js`): loads a session's history and sends
  a message. Sending appends the user message and an empty assistant
  placeholder, folds every `data: ` line of the server-sent stream into that
  placeholder, and replaces it with an error message when the stream fails
  before any text arrived.
- **Earlier chat page** (`pages/ProjectChat.jsx`): selects, creates and
  deletes sessions, and sends messages without streaming.
- **Session list hook** (`useSession.js`): fetches, prepends, optimistically
  deletes with rollback, and renames with a trimmed title.
- **Summarisation memory**: a buffer of recent exchanges that is summarised
  once it reaches a threshold. The memory also builds the context string sent
  to the model, and loads stored summaries and messages.
- **Chat provider and provider factory**: build the prompt message list,
  record successful exchanges, and replace blank model names by the default
  model.
- **In-memory session registry** (`SessionManager`).
- **Request validation** (`models/chat.py`): roles, message and title
  bounds, and the whitespace-only check.
- **Authentication service and endpoints**: build the auth dictionary, wrap
  errors, map them to HTTP codes and format the response.
- **Route guard** (`ProtectedRoute.jsx`): checks token expiry and redirects to
  the login page.

One Dafny module stands for each source file. Everything outside the program
is a parameter of the operation that uses it:
- HTTP replies, stream chunks and the point where a stream fails;
- database rows and whether a database write succeeded;
- the chat model's and the summariser's replies;
- the identity provider's replies, the token decoder and the clock.

Stateful code (React state, the memory object, the registry, `localStorage`)
is a `class` whose methods state the whole new state. Each method is proved
against a specification function. The lemmas state what the source promises
about those functions.

Two modules are shared:
- `Wrappers`: `Option` and `Result`.
- `Text`: JavaScript and Python string built-ins — `trim`/`strip`,
  `split`, `join`, `startsWith` and `replace(pat, "")` — with their round
  trips.

Whitespace is six ASCII characters: space, tab, line feed, carriage return,
vertical tab and form feed. Both `trim` and `strip` remove these.

Some behaviours are modelled exactly as the code has them:
- **Stream payloads.** Payloads are concatenated verbatim. Each chunk is split
  into lines on its own, so a `data: ` line cut across two chunks is lost.
  `[DONE]` skips only its own line.
- **Failed sign-up.** The text reads "Registration failed: Registration
  failed: Could not create user". The same double prefix appears on login.
- **Failed logout.** The endpoint answers 500 with "Authentication error: 500:
  Failed to log out".
- **Missing full name.** A user without `full_name` in the metadata is
  answered with the name "None".
- **Password reset.** The endpoint answers "Password reset email sent" even
  when sending failed.
- **Project id.** The provider's `project_id` is a one-element tuple, because
  of a trailing comma.

## Model

| member | source | states |
|---|---|---|
| Text.Trim | backend/models/chat.py:61 | the result is a slice of the input with only whitespace cut off before and after it; it is empty exactly when every character is whitespace, and otherwise starts and ends with a non-space character |
| Text.BlankIsEmptyTrim | backend/models/chat.py:61 | a string is blank exactly when trimming it leaves nothing |
| Text.TrimIdempotent | frontend/src/hooks/useSession.js:71-75 | trimming an already trimmed title changes nothing |
| Text.Split | frontend/src/hooks/useChat.js:78 | `split` gives at least one part and no part contains the separator |
| Text.JoinSplit | frontend/src/hooks/useChat.js:78 | joining the parts of a split with the separator gives back the original string |
| Text.SplitJoin | frontend/src/hooks/useChat.js:78 | splitting a join of separator-free parts gives back the parts |
| Text.SplitAround | frontend/src/hooks/useChat.js:78 | splitting around one separator is the concatenation of splitting each side |
| Text.RemoveAllAbsent | backend/services/memory/summarization_memory.py:69 | `replace(pat, "")` leaves a string without the pattern unchanged |
| ChatModels.ParseRole | backend/models/chat.py:14-17 | a parsed role prints back as the input string |
| ChatModels.RoleRoundTrip | backend/models/chat.py:14-17 | every role parses back from its value |
| ChatModels.RoleHasThreeValues | backend/models/chat.py:14-17 | a string is a role exactly when it is "user", "assistant" or "system" |
| ChatModels.CheckLength | backend/models/chat.py:22 | a field passes exactly when its length is within the bounds, with too-short and too-long told apart |
| ChatModels.ValidateChatMessage | backend/models/chat.py:20-22 | accepted exactly when the role is one of the three and the content has 1 to 10000 characters; the content is kept as given |
| ChatModels.ValidateChatRequest | backend/models/chat.py:53-63 | accepted exactly when the message has 1 to 10000 characters and is not whitespace-only; the message is returned unstripped |
| ChatModels.ValidateTitle | backend/models/chat.py:37-43 | an omitted title takes the default; a given title is accepted exactly when it is absent or at most 100 characters |
| ChatModels.ValidateSessionCreate | backend/models/chat.py:37-40 | defaults to title "New Chat" and the default model; a valid given title is kept; rejected exactly when a given title exceeds 100 characters |
| ChatModels.ValidateSessionUpdate | backend/models/chat.py:42-43 | an omitted title is `None`; a valid given title is kept; rejected exactly when a given title exceeds 100 characters |
| SessionHook.ErrorText | frontend/src/hooks/useSession.js:24-26 | the response's detail when it is non-empty, otherwise the fallback text |
| SessionHook.RequestTitle | frontend/src/hooks/useSession.js:38 | a falsy title becomes "New Conversation"; any other title is sent as is |
| SessionHook.WithoutId | frontend/src/hooks/useSession.js:54 | the filter keeps no session with the id and never grows the list |
| SessionHook.WithoutIdCounts | frontend/src/hooks/useSession.js:54 | the filter removes every session with the id and keeps every other one with its multiplicity |
| SessionHook.WithoutIdAppend | frontend/src/hooks/useSession.js:54 | the filter keeps order: filtering a concatenation is concatenating the filtered parts |
| SessionHook.WithoutIdAbsent | frontend/src/hooks/useSession.js:54 | filtering an id that is not in the list changes nothing |
| SessionHook.Retitled | frontend/src/hooks/useSession.js:77-79 | exactly the sessions with the id get the new title; all others are unchanged and the length is kept |
| SessionHook.SessionStore.FetchSessions | frontend/src/hooks/useSession.js:16-30 | success replaces the list and clears the error; failure keeps the list and sets the detail or the fallback text; loading ends false |
| SessionHook.SessionStore.CreateSession | frontend/src/hooks/useSession.js:32-50 | sends the project, the title or "New Conversation", and the model; success prepends the new session to the unchanged list |
| SessionHook.SessionStore.BeginDelete | frontend/src/hooks/useSession.js:52-58 | removes the sessions with the id at once, returns the previous list, and clears the current session when it has that id |
| SessionHook.SessionStore.SettleDelete | frontend/src/hooks/useSession.js:60-67 | a failed request restores the previous list, sets the error and rethrows; the current session is not restored |
| SessionHook.SessionStore.DeleteSession | frontend/src/hooks/useSession.js:52-68 | the whole delete: the filtered list on success, the old list and an error on failure, and in both cases a current session with that id cleared |
| SessionHook.SessionStore.RenameSession | frontend/src/hooks/useSession.js:70-88 | a blank title sends nothing and changes nothing; otherwise the trimmed title goes to the sessions with the id and to a matching current session, and a failure sets the error and rethrows |
| StreamChat.LineDelta | frontend/src/hooks/useChat.js:81-83 | a line carries a delta exactly when it starts with "data: " and its payload is not "[DONE]"; the delta is the payload |
| StreamChat.AppendToLast | frontend/src/hooks/useChat.js:85-95 | a delta grows the last message only when it is an assistant message; every other message is untouched |
| StreamChat.Substitute | frontend/src/hooks/useChat.js:101-108 | the list changes exactly when its last message is an empty assistant message, which becomes the system error message |
| StreamChat.ApplyDeltasToAssistant | frontend/src/hooks/useChat.js:80-97 | folding deltas into a list that ends with an assistant message appends their concatenation to that message, in arrival order |
| StreamChat.ApplyDeltasElsewhere | frontend/src/hooks/useChat.js:88 | deltas never change a list that does not end with an assistant message |
| StreamChat.ApplyDeltasAppend | frontend/src/hooks/useChat.js:73-98 | folding two runs of deltas one after the other is folding their concatenation |
| StreamChat.LineDeltasAppend | frontend/src/hooks/useChat.js:80-97 | the deltas of two runs of lines are the deltas of each run, concatenated |
| StreamChat.DoneIsSkipped | frontend/src/hooks/useChat.js:83 | a "data: [DONE]" line contributes nothing and does not stop the lines after it |
| StreamChat.OtherLinesIgnored | frontend/src/hooks/useChat.js:81 | a line without the "data: " prefix contributes nothing |
| StreamChat.LinesAfterNewline | frontend/src/hooks/useChat.js:77-78 | the lines of a chunk split at a newline are the lines before it followed by the lines after it |
| StreamChat.WholeLineChunks | frontend/src/hooks/useChat.js:73-78 | when every chunk but the last ends with a newline, reading chunk by chunk gives the same deltas as reading the whole stream at once |
| StreamChat.SplitFrameIsLost | frontend/src/hooks/useChat.js:77-78 | a "data: " frame cut by a read boundary inside its prefix gives no delta, though the same frame read whole gives its payload |
| StreamChat.HelloScenario | frontend/src/hooks/useChat.js:42-98 | frames "data: Hi", "data: there", "data: [DONE]" after the message "Hello" end the list with the user message and the reply "Hithere" |
| StreamChat.SendTranscript | frontend/src/hooks/useChat.js:42-112 | an accepted send keeps the earlier messages and appends the user message and one reply: all deltas concatenated, or the error message when a failed stream left it empty |
| StreamChat.FailureKeepsPartialText | frontend/src/hooks/useChat.js:99-108 | a stream that fails after non-empty text ends exactly like one that completed: the partial text is the reply |
| StreamChat.FailureWithoutText | frontend/src/hooks/useChat.js:99-108 | a stream that fails before any text ends with the system error message in place of the placeholder |
| StreamChat.ChatHook.SetInput | frontend/src/hooks/useChat.js:7 | only the input changes |
| StreamChat.ChatHook.BeginHistoryLoad | frontend/src/hooks/useChat.js:29-31 | messages are emptied and loading starts |
| StreamChat.ChatHook.FinishHistoryLoad | frontend/src/hooks/useChat.js:32-39 | a fetched history replaces the messages; a failure leaves them as they are; loading ends |
| StreamChat.ChatHook.LoadHistory | frontend/src/hooks/useChat.js:29-40 | the messages become the fetched history, or stay empty when the fetch fails |
| StreamChat.ChatHook.OnSessionChange | frontend/src/hooks/useChat.js:16-23 | a session loads its history, no session empties the messages, and either way sending is reset |
| StreamChat.ChatHook.ApplyChunk | frontend/src/hooks/useChat.js:77-97 | one chunk folds the deltas of its own lines into the messages |
| StreamChat.ChatHook.PlaceMessages | frontend/src/hooks/useChat.js:45-50 | the user message and an empty assistant placeholder are appended, the input is cleared and sending starts |
| StreamChat.ChatHook.ReadStream | frontend/src/hooks/useChat.js:70-98 | reading folds the deltas of every chunk in order and reports whether the stream failed |
| StreamChat.ChatHook.Settle | frontend/src/hooks/useChat.js:99-111 | a failure substitutes the error message for an empty placeholder; either way sending ends |
| StreamChat.ChatHook.SendMessage | frontend/src/hooks/useChat.js:42-112 | blank content or a send under way changes nothing; otherwise sends the session and content, clears the input, ends with `sending` false, and leaves the messages equal to the send outcome |
| ProjectChatPage.ReplyMessage | frontend/src/pages/ProjectChat.jsx:117-127 | a reply becomes an assistant message with its text; a failure becomes the system message "Error sending message." |
| ProjectChatPage.ChatPage.SetInput | frontend/src/pages/ProjectChat.jsx:18 | only the input changes |
| ProjectChatPage.ChatPage.FetchSessions | frontend/src/pages/ProjectChat.jsx:37-51 | success replaces the list; failure keeps it and sets the detail or fallback text; loading ends false |
| ProjectChatPage.ChatPage.BeginSelectSession | frontend/src/pages/ProjectChat.jsx:71-74 | the session becomes current, messages are emptied, and loading starts |
| ProjectChatPage.ChatPage.FinishSelectSession | frontend/src/pages/ProjectChat.jsx:79-89 | a fetched history replaces the messages; a failure leaves them; loading ends |
| ProjectChatPage.ChatPage.SelectSession | frontend/src/pages/ProjectChat.jsx:71-90 | the session becomes current and the messages are its history, or empty when the fetch fails |
| ProjectChatPage.ChatPage.CreateSession | frontend/src/pages/ProjectChat.jsx:53-69 | sends the title "New Conversation"; a created session is prepended and selected; a failure changes nothing but the error |
| ProjectChatPage.ChatPage.DeleteSession | frontend/src/pages/ProjectChat.jsx:92-106 | unconfirmed or failed deletes change nothing; a successful one removes every session with the id and, if it was current, clears the current session and the messages |
| ProjectChatPage.ChatPage.BeginSend | frontend/src/pages/ProjectChat.jsx:108-115 | blank input, no current session or a send under way changes nothing; otherwise appends the user message, clears the input and sends to the current session |
| ProjectChatPage.ChatPage.FinishSend | frontend/src/pages/ProjectChat.jsx:117-129 | appends the reply or the error message and ends sending |
| ProjectChatPage.ChatPage.SendMessage | frontend/src/pages/ProjectChat.jsx:108-130 | an accepted send appends the user message and then the reply or error message, in that order |
| SummaryMemory.RoleLabel | backend/services/memory/summarization_memory.py:139-142 | `capitalize()` upper-cases the role's lower-case first letter and keeps the length and every later character |
| SummaryMemory.EntryLines | backend/services/memory/summarization_memory.py:139-142 | one "Role: content" line per buffered message, in order |
| SummaryMemory.BufferTextAppend | backend/services/memory/summarization_memory.py:139-142 | one more message adds a newline and its line at the end of the buffer text |
| SummaryMemory.ContextString | backend/services/memory/summarization_memory.py:188-208 | the no-history sentinel exactly when both summary and buffer are empty; a single section alone when only one is present; otherwise the summary section, a blank line, then the recent section |
| SummaryMemory.SummaryPromptShape | backend/services/memory/summarization_memory.py:145-161 | with a summary, the merge instructions and a user prompt that closes with the merge request; without one, the fresh instructions and a prompt that closes with the plain request |
| SummaryMemory.Consolidated | backend/services/memory/summarization_memory.py:130-186 | an empty buffer or a failed summary keeps the state; a successful one becomes the stripped summary with an empty buffer |
| SummaryMemory.AddKeepsOrSummarises | backend/services/memory/summarization_memory.py:112-128 | below the threshold, or when summarising fails, the exchange is appended in order; otherwise the buffer empties into the new summary |
| SummaryMemory.BufferStaysBelowThreshold | backend/services/memory/summarization_memory.py:127-128 | with a summariser that succeeds, the buffer after an exchange is below the threshold or empty |
| SummaryMemory.Reversed | backend/services/memory/summarization_memory.py:86 | the newest-first rows are appended oldest first |
| SummaryMemory.SummaryRoundTrip | backend/services/memory/summarization_memory.py:67-69 | a summary stored with the "[SUMMARY] " marker loads back unchanged when it does not itself contain the marker |
| SummaryMemory.SummarizationMemory.constructor | backend/services/memory/summarization_memory.py:18-52 | starts empty, and loads stored memory exactly when persistence is enabled and a database exists |
| SummaryMemory.SummarizationMemory.LoadMemory | backend/services/memory/summarization_memory.py:54-90 | the latest summary row sets the summary and the recent rows are appended oldest first; a failed query keeps what was set |
| SummaryMemory.SummarizationMemory.AppendReversed | backend/services/memory/summarization_memory.py:84-87 | the newest-first rows are appended to the buffer oldest first |
| SummaryMemory.SummarizationMemory.Saved | backend/services/memory/summarization_memory.py:93-96 | rows are written only when persistence is enabled and a database exists |
| SummaryMemory.SummarizationMemory.AddMessage | backend/services/memory/summarization_memory.py:112-128 | the new state is the exchange added and, at the threshold, consolidated; both messages are written when persistence is on |
| SummaryMemory.SummarizationMemory.ConsolidateMemory | backend/services/memory/summarization_memory.py:130-186 | the new state is the consolidated one, and the prompt is sent exactly when the buffer was non-empty |
| SummaryMemory.SummarizationMemory.ReplaceSummary | backend/services/memory/summarization_memory.py:175-186 | the new summary replaces the old one, is submitted with its marker when persistence is on, and the buffer is emptied |
| SummaryMemory.SummarizationMemory.GetContext | backend/services/memory/summarization_memory.py:188-208 | the sentinel exactly when the memory is empty |
| SummaryMemory.SummarizationMemory.Clear | backend/services/memory/summarization_memory.py:210-214 | summary and buffer are emptied |
| SummaryMemory.SummarizationMemory.ForceSummarize | backend/services/memory/summarization_memory.py:216-219 | the state is consolidated; the summary prompt is built from the old state exactly when the buffer is non-empty; the summary row is submitted only after a successful summary |
| OpenAIService.PromptMessages | backend/services/llm/openai_service.py:49-62 | the system prompt first when non-empty, then the context when it is neither empty nor the sentinel, and the user message always last |
| OpenAIService.OpenAIProvider.AssembleMessages | backend/services/llm/openai_service.py:49-62 | the list built step by step is the prompt list: optional system prompt, optional context, user message last |
| OpenAIService.EmptyMemorySendsNoContext | backend/services/llm/openai_service.py:56 | an empty memory adds no context message |
| OpenAIService.MemoryContextIsSent | backend/services/llm/openai_service.py:56-60 | a non-empty memory always adds its context, just before the user message |
| OpenAIService.ProviderName | backend/services/llm/openai_service.py:41-42 | the name is "OpenAI," followed by the chat model |
| OpenAIService.OpenAIProvider.constructor | backend/services/llm/openai_service.py:17-38 | an empty session id is replaced by the text of `str(uuid4)`; the memory has threshold 6 and the summary model |
| OpenAIService.OpenAIProvider.GetProviderName | backend/services/llm/openai_service.py:41-42 | "OpenAI," followed by the chat model |
| OpenAIService.OpenAIProvider.Chat | backend/services/llm/openai_service.py:45-83 | sends the prompt list built from the context before the call; a non-empty reply is recorded and returned, with both messages submitted for saving, followed by the summary row when the threshold is reached and the summary succeeds; an empty reply or a failure returns nothing and leaves the memory and its writes unchanged |
| OpenAIService.OpenAIProvider.ResetConversation | backend/services/llm/openai_service.py:86-87 | the memory is cleared |
| ProviderFactory.DefaultModelNotBlank | backend/core/config.py:5 | the default model name is not blank |
| ProviderFactory.ModelOrDefault | backend/services/llm/provider.py:19-23 | a blank name becomes the default model and any other name is kept; the result is never blank |
| ProviderFactory.ModelOrDefaultIdempotent | backend/services/llm/provider.py:19-23 | replacing a blank name twice gives the same name as once |
| ProviderFactory.GetLlmProvider | backend/services/llm/provider.py:6-36 | always an `OpenAIProvider`, with both model names passed through `ModelOrDefault` and the other arguments unchanged |
| SessionRegistry.Without | backend/services/session_manager.py:105 | removing a key keeps every other key and keeps the keys distinct |
| SessionRegistry.WithoutAppend | backend/services/session_manager.py:105 | removing a key from two runs of keys removes it from each, so the remaining keys keep their order |
| SessionRegistry.DistinctCard | backend/services/session_manager.py:135-137 | a list of distinct ids has as many elements as the set of them |
| SessionRegistry.UserSessions | backend/services/session_manager.py:118-128 | no database gives `[]`; otherwise exactly the user's rows, narrowed to the project when one is given |
| SessionRegistry.UserSessionsAppend | backend/services/session_manager.py:118-128 | the filter keeps the database's order: the rows of two runs of the table are those of each run, in turn |
| SessionRegistry.SessionManager.constructor | backend/services/session_manager.py:15-18 | an empty registry |
| SessionRegistry.SessionManager.Register | backend/services/session_manager.py:62-63 | the provider is stored under the new id, which goes last in key order |
| SessionRegistry.SessionManager.CreateSession | backend/services/session_manager.py:20-65 | a missing id is generated; a registered id returns its provider and changes nothing; otherwise a fresh provider is registered and the metadata row inserted when the database is used |
| SessionRegistry.SessionManager.GetSession | backend/services/session_manager.py:67-98 | a cached id returns its provider; with a database a found row builds and caches a provider with the row's defaults; otherwise `None` |
| SessionRegistry.SessionManager.EndSession | backend/services/session_manager.py:100-116 | a registered provider's memory is cleared and the id removed; true exactly when there is a database and its deletes succeeded |
| SessionRegistry.SessionManager.GetActiveSessions | backend/services/session_manager.py:131-133 | the registered ids, each once, in insertion order |
| SessionRegistry.SessionManager.GetSessionCount | backend/services/session_manager.py:135-137 | the number of registered sessions, equal to the length of the active list |
| AuthService.PyText | backend/api/endpoints/auth_api.py:51 | `str(None)` is "None" and a string is itself |
| AuthService.NormalisedMetadata | backend/services/auth_service.py:95-100 | string or `None` metadata becomes the empty dict; anything else is kept |
| AuthService.SessionDict | backend/services/auth_service.py:114-124 | filled exactly when a session has a truthy access token; a falsy refresh token becomes "" |
| AuthService.BuildAuthDict | backend/services/auth_service.py:93-129 | copies the user's fields, normalises the metadata, takes `full_name` from it with default "", and attaches the session dict |
| AuthService.Signup | backend/services/auth_service.py:19-45 | succeeds exactly when a user comes back; a provider error is prefixed once, a missing user twice |
| AuthService.Login | backend/services/auth_service.py:47-73 | succeeds exactly when both a user and a session come back; errors are prefixed as for sign-up |
| AuthService.SignupErrorsArePrefixed | backend/services/auth_service.py:43-45 | every sign-up error text starts with "Registration failed: " |
| AuthService.LoginSessionTokens | backend/services/auth_service.py:120-124 | a session dict produced by login always holds a non-empty access token |
| AuthApi.HandleAuthError | backend/api/endpoints/auth_api.py:22-35 | a `ValueError` is a 400 with its own text; anything else is a 500 with the "Authentication error: " prefix |
| AuthApi.ResponseFullName | backend/api/endpoints/auth_api.py:42-51 | a truthy name is kept; otherwise the metadata dict's `full_name` (`None` when missing) is passed through `str` |
| AuthApi.FormatAuthResponse | backend/api/endpoints/auth_api.py:38-73 | the token is filled only from a session with a non-empty access token; `token_type` is "bearer" on every path |
| AuthApi.MissingFullNameIsNone | backend/api/endpoints/auth_api.py:42-51 | a user whose metadata dict lacks `full_name` is answered with the name "None" |
| AuthApi.NonDictMetadataNameIsNone | backend/services/auth_service.py:96-100 | string or `None` metadata also gives the name "None" |
| AuthApi.FullNameCarriedThrough | backend/api/endpoints/auth_api.py:42-51 | a non-empty `full_name` in the metadata reaches the response unchanged |
| AuthApi.TokensCarriedThrough | backend/api/endpoints/auth_api.py:61-71 | the response carries the provider's tokens exactly when its session has a non-empty access token, with a missing refresh token as "" |
| AuthApi.SignupEndpoint | backend/api/endpoints/auth_api.py:77-87 | success is the formatted dictionary; a service error is a 400 with the service's text |
| AuthApi.LoginEndpoint | backend/api/endpoints/auth_api.py:90-105 | success is the formatted dictionary; every service error is 401 "Invalid email or password" |
| AuthApi.LoginFailuresIndistinguishable | backend/api/endpoints/auth_api.py:99-103 | any two failed logins get the same answer |
| AuthApi.LogoutEndpoint | backend/api/endpoints/auth_api.py:108-123 | success answers "Successfully logged out"; failure is 500 "Authentication error: 500: Failed to log out" |
| AuthApi.ResetPasswordEndpoint | backend/api/endpoints/auth_api.py:126-136 | always answers "Password reset email sent", whatever the service returned |
| RouteGuard.PayloadSegment | frontend/src/components/ProtectedRoute.jsx:6 | the payload segment exists exactly when the token contains a dot, and holds no dot |
| RouteGuard.IsTokenExpired | frontend/src/components/ProtectedRoute.jsx:4-15 | expired exactly when decoding fails, the payload is null, or `exp` is non-zero with `exp*1000 < now` |
| RouteGuard.ExpiryIsMonotone | frontend/src/components/ProtectedRoute.jsx:8 | a token expired at one time is expired at every later time |
| RouteGuard.NoExpiryNeverExpires | frontend/src/components/ProtectedRoute.jsx:8-11 | a payload without `exp`, or with `exp` 0, never expires |
| RouteGuard.ProtectedRoute | frontend/src/components/ProtectedRoute.jsx:17-27 | a present, non-empty, unexpired token renders the page and keeps storage; otherwise the token is removed and the guard redirects to "/login" |
| RouteGuard.GuardSettles | frontend/src/components/ProtectedRoute.jsx:20-26 | running the guard a second time with the same clock renders the same view; the token stays as the first run left it, kept when admitted and removed otherwise |

## Left out

- Network and database calls (axios/`fetch`, Supabase, OpenAI/OpenRouter) are not modelled. Their outcomes are parameters: replies, errors, stream chunks, rows, and whether a write succeeded.
- `TextDecoder`: chunks are strings already; UTF-8 sequences split across chunks are not modelled.
- Concurrency: React's asynchronous state updates, the memory's `ThreadPoolExecutor` writes and the registry's `Lock` are modelled as sequential steps. Database writes are recorded in `submitted` in call order.
- Whitespace: `trim`/`strip` are modelled over the six ASCII whitespace characters only. Unicode spaces are ordinary characters here. So are the ASCII separators `\x1c` to `\x1f`, which Python's `strip` also removes and JavaScript's `trim` does not. As a result, the Python-side members (`ValidateChatRequest`, `Consolidated`) accept or keep these four characters where the source strips them.
- Floating point: `temperature`, `max_tokens` and a fractional `exp` claim are not modelled; `exp` is an integer.
- JWT verification and the JWKS cache in `backend/api/dependencies.py` are not part of this model. The payload decode (`atob`, `JSON.parse`) is a parameter. A token without a dot is modelled as a decode failure, which is what `atob(undefined)` throws.
- UI-only state: the sidebar, scrolling and the JSX layout.
- `window.confirm` is the parameter `confirmed`.
- Timestamps (`datetime.utcnow()`, `created_at`) are parameters.
- The `ORDER BY created_at DESC` of `get_user_sessions` is done by the database; the table is given already in that order.
- `str(uuid4)` in the provider: an empty session id becomes the text of the function object, not a fresh UUID. That text is the parameter `uuid4Text`.
- In `create_session`, `str(uuid4())` is the parameter `freshId`.
- SessionRegistry.SessionManager.GetSession: a row value that is `null` in the database is not modelled; a row field is either present with a string or absent.
- AuthService: `logout` and `request_password_reset` only report whether the provider call succeeded. That boolean is the parameter of `LogoutEndpoint` and `ResetPasswordEndpoint`.
- The `session-check` endpoint returns a constant validity flag with the caller's id; it has no logic to model.
- Pydantic parsing of `UserCreate`, `UserLogin` and `EmailStr`, and exceptions raised while building the response models, are not modelled.
- Logging and `print` calls are not modelled.
