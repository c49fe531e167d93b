# Chat front-end transcript and request model

A Dafny model of the logic inside `chat.py`, a small Streamlit chat page that
talks to one of two chat-completion backends. The script keeps a session
transcript of role-tagged turns. It lets the user pick a model from a static
directory and appends each non-empty prompt as a user turn. It then posts a
request whose `messages` hold only the most recent user turn, and appends the
assistant's reply when the response carries `choices`.

The model has five modules:

- `Messages` (messages.dfy): the turn record (`role`, `content`) and two
  predicates. One says a transcript has a user turn. The other says a given
  position holds its most recent user turn.
- `Trimming` (trimming.dfy): `get_last_exchange`. `LastExchange` is a
  recursive function that serves as the specification. `GetLastExchange` is
  the backward scan with an early return, written as a loop and proved
  against the function. Lemmas tie both to the "most recent user turn"
  predicate.
- `Backends` (backends.dfy): the `MODEL_OPTIONS` directory, the sidebar's
  choice among its keys and the endpoint lookup.
- `Completion` (completion.dfy): the JSON payload (`model`, `messages`,
  `top_p = 1`, `n = 1`, `max_tokens = 600`).
- `Session` (session.dfy): the effect of one script run on the transcript.
  `Step` is a pure function and `Replay` applies it over a series of runs.
  `SessionState` is a class whose `messages` field stands for the
  `"messages"` entry of `st.session_state`. That field is `None` until the
  first run creates it, and the class's methods update it in place.

The backend call is an input. `ApiResult` is either `NoResponse`, which is
what `make_api_call` returns after a request exception, or
`Response(hasChoices, reply)`. `hasChoices` says whether the decoded body
passes the test `response and 'choices' in response` (chat.py:90). `reply` is
the string at `choices[0].message.content`, or `None` when that indexing
raises.
The chat box's value is an `Option<string>`: `None` means nothing was
submitted.

Behaviour of `chat.py` that the model keeps:

- The prompt is tested only for truthiness (`if prompt := ...`, chat.py:77).
  An empty prompt appends nothing, but a whitespace-only prompt is appended
  and sent.
- A JSON object without a `"choices"` key, a string or array that does not
  contain `"choices"`, or a falsy body (`null`, `false`, `0`, `""`, `[]`, `{}`)
  takes the "Failed to get response" branch at chat.py:94-95, as a request
  error does. A number or `true` raises at the `in` test of chat.py:90. A
  string or array that contains `"choices"` passes that test and raises at the
  indexing of chat.py:91, and so does an object whose first choice cannot be
  indexed. Every one of these happens after the user turn was appended and
  leaves the same transcript as a request error: the user turn stays and no
  assistant turn is added. The model writes them as `Response(false, _)` or
  `Response(true, None)`.
- The transcript is never cleared. It is created empty only when the session
  has none (chat.py:69-70).

## Model

| member | source | states |
|---|---|---|
| `Trimming.LastExchange` | chat.py:11-23 | the result is `[]` for an empty transcript, has at most one element, and any element it has is a user turn taken from the transcript |
| `Trimming.GetLastExchange` | chat.py:15-23 | the backward scan with early returns gives the same list as `LastExchange`; it is `[]` exactly when no turn has the user role |
| `Trimming.LastExchangeFindsLastUser` | chat.py:19-21 | if position `i` is a user turn and no later turn is, the result is exactly `[messages[i]]` |
| `Trimming.LastExchangeEmptyIff` | chat.py:15-23 | the result is empty if and only if the transcript holds no user turn |
| `Trimming.LastExchangeIsLastUser` | chat.py:19-21 | a non-empty result is the turn at some position that is a user turn with no user turn after it, so an assistant turn is never returned |
| `Trimming.LastExchangeIgnoresHistory` | chat.py:19-21 | once a recent stretch of the transcript holds a user turn, adding any number of older turns before it does not change the result |
| `Backends.SelectModel` | chat.py:56-60 | the sidebar can only return a key of the model directory, so the lookup that follows is defined |
| `Backends.Endpoint` | chat.py:62 | the endpoint looked up for a model is an `http://0.0.0.0:` URL ending in `/v1/chat/completions` |
| `Backends.OptionsAreTheKeys` | chat.py:58 | the select box lists exactly the directory's keys, with no duplicates |
| `Backends.EndpointsDistinct` | chat.py:6-9 | two different models never share an endpoint, so the endpoint a request goes to identifies the selected model (used by `Rerun`) |
| `Completion.MakePayload` | chat.py:35-43 | the payload names the selected model and has `top_p = 1`, `n = 1` and `max_tokens = 600`; its `messages` has at most one entry whatever the transcript length, holds only user turns taken from the transcript, and is empty exactly when the transcript holds no user turn |
| `Completion.PayloadCarriesLastUserTurn` | chat.py:35-39 | the payload's single message is the transcript's most recent user turn |
| `Completion.PayloadIgnoresHistory` | chat.py:35-39 | prefixing older turns to a transcript whose recent stretch holds a user turn leaves the payload unchanged |
| `Session.Step` | chat.py:77-95 | an empty or missing prompt leaves the transcript unchanged; a non-empty prompt keeps every earlier entry and appends the user turn; the transcript grows by 2, ending in the assistant's reply, when the body passes the `choices` test and its first choice's content is read, and by exactly 1 otherwise |
| `Session.StepPreservesWellFormed` | chat.py:77-92 | a run keeps the transcript well formed: user turns are non-empty, and every assistant turn directly follows a user turn |
| `Session.StepEndsWithPrompt` | chat.py:79-84 | after a submission, the transcript's most recent user turn is the prompt just submitted, on the success path and the failure path alike |
| `Session.ReplayAppendOnly` | chat.py:79-92 | over any series of runs, the earlier transcript is a prefix of the later one, so nothing is removed or rewritten |
| `Session.ReplayWellFormed` | chat.py:69-92 | every transcript reached by a series of runs from a well-formed one, such as the empty one, is well formed |
| `Session.StepUserTurns` | chat.py:77-79 | one run adds exactly one user turn when its prompt is non-empty, and none otherwise |
| `Session.ReplayUserTurns` | chat.py:77-79 | over a series of runs, the number of user turns grows by exactly the number of non-empty prompts |
| `Session.SessionState.constructor` | chat.py:69 | a new session has no transcript yet |
| `Session.SessionState.InitHistory` | chat.py:69-70 | the transcript is set to `[]` only when it is absent; an existing transcript is left unchanged |
| `Session.SessionState.Submit` | chat.py:77-95 | the transcript becomes `Step` of the old one; no request is built for an empty prompt; otherwise the request goes to the given endpoint and carries the payload of the transcript with the new user turn, whose only message is that turn |
| `Session.SessionState.Rerun` | chat.py:55-95 | one script run leaves a transcript that is `Step` of the previous one (or of `[]` in a new session); a request is sent exactly when the prompt is non-empty, to the selected model's endpoint, with a payload built from the new prompt alone; no other model in the directory has that endpoint, so the request identifies the chosen model |

## Left out

- Rendering: the sidebar widgets, title, caption, the replay of the transcript
  through `st.chat_message(...).write` (chat.py:72-74, 80, 93) and the `st.error`
  messages (chat.py:51, 95). None of these affects the transcript or the request.
- The HTTP exchange itself: `requests.post`, `raise_for_status`, `response.json()`
  and the exception handling (chat.py:45-52). Its outcome is the `ApiResult` input,
  and the request headers (chat.py:29-32) are constants that are not modelled.
- JSON decoding and the indexing `response['choices'][0]['message']['content']`
  (chat.py:91). The extracted content, or its absence, is part of `ApiResult`. The
  model also does not separate the exception this indexing raises from the other
  failure path, because both leave the same transcript.
- A `choices[0].message.content` that is present but is not a string (JSON
  `null`, a number) is outside `ApiResult`. The source reads it without raising
  and appends it as the assistant turn's content, so the transcript grows by 2.
  The model's turns carry only string content and cannot represent that turn.
- Streamlit's rerun loop and session storage are modelled only as far as
  `SessionState`. One run is one `Rerun` call, and `Replay` chains runs.
- Roles are a two-valued enumeration. The script writes only `"user"` and
  `"assistant"`, so it never stores any other role string.
