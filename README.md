# AI innovation product template — verified model of the backend's decision logic

This project models the decision logic of the FastAPI backend of the AI
innovation product template, and proves properties about it in Dafny. It
covers five parts:

- **Provider routing** (`_get_completion_kwargs`). A model name and the LLM
  settings become the keyword arguments handed to the provider library. The
  model is the requested one or `litellm_model`, and an `if/elif` chain
  decides the credentials for `azure/`, OpenAI, `claude` and `ollama/` models.
  Besides the chain itself (`Llm.GetCompletionKwargs`), the model states
  routing independently as "the first eligible backend in the order Azure,
  OpenAI, Anthropic, Ollama contributes its credentials" (`Llm.Route`,
  `Llm.RoutedKwargs`), and proves that the two agree.
- **Messages and stream filtering** (`llm_complete`, `llm_stream`). The
  message list is an optional system message followed by the user's prompt.
  The streamed deltas are filtered down to their non-empty contents, in
  arrival order. The filter is a function (`Llm.StreamedText`) and a loop
  (`Llm.LlmStream`) proved equal to it.
- **The LLM endpoints** (`api/llm.py`):
  - The configuration check.
  - Validation of the REST body and the REST `complete` endpoint.
  - The WebSocket `stream_completion` loop, as a method. It reads a sequence
    of inbound events (a JSON object, or the disconnect that ends the
    receive) and produces the JSON messages it sends plus the `llm_stream`
    calls it makes.
  - The loop is proved equal to the session function `LlmApi.Session`. That
    function handles the messages received before the first disconnect one
    after another. Framing, ordering and stopping are proved about it.
- **Settings** (`core/config.py`):
  - The `app_env` literal domain.
  - The in-place rewrite of a `postgres://` or `postgresql://` database URL
    to the asyncpg scheme, stated as a function on strings and performed by
    a method of the `Settings` class.
  - `is_production`.
- **The API-key gate** (`verify_api_key`): a three-way decision over the
  configured key and the `X-API-Key` header.

The modelling choices:

- Python truthiness of an optional string is `Common.Truthy`: a value that
  is present and non-empty.
- An exception is a `Raise` result carrying the HTTP status and detail, or
  the exception's text.
- A field of a received JSON object is absent, null or given (`Common.Field`).
  `data.get(key, default)` is `Common.Get`: it gives the default only when
  the key is absent.
- The provider library (`acompletion`) is an oracle. For the REST path it
  maps a `ProviderCall` to a completion or a failure. For the socket path it
  maps a message's position on the connection and the `llm_stream`
  arguments to a stream: the raw deltas in arrival order, then possibly a
  failure.

Two behaviours of the code are easy to miss:

- The REST body accepts an empty `prompt` string. Pydantic only requires a
  string, so the empty prompt reaches the provider on the REST path. Only
  the WebSocket loop refuses an empty prompt.
- `complete` reports the model as `request.model or settings.llm_model`.
  Routing resolves the model as `model or settings.litellm_model`, a
  different setting, so the reported name need not be the one routed.

## Model

| member | source | states |
|---|---|---|
| Common.ReplaceFirst | backend/app/core/config.py:36 | `str.replace(pat, rep, 1)`: with no occurrence the string is unchanged; a string starting with the pattern has that prefix replaced and the remainder kept; otherwise the length grows by the replacement's length minus the pattern's |
| Config.ParseAppEnv | backend/app/core/config.py:24 | exactly the three literals `development`, `staging`, `production` are accepted, each as the environment whose literal it is |
| Config.LiteralRoundTrip | backend/app/core/config.py:24 | every environment's literal is accepted back as that environment |
| Config.NormalizeDatabaseUrl | backend/app/core/config.py:31-39 | a `postgres://` URL and a `postgresql://` URL become `postgresql+asyncpg://` followed by the rest of the URL; any other URL is unchanged |
| Config.NormalizeIdempotent | backend/app/core/config.py:35-38 | running the rewrite on its own result changes nothing, because an asyncpg URL matches neither rewritten scheme |
| Config.DefaultUrlIsFixed | backend/app/core/config.py:29-39 | the sqlite default URL matches neither rewritten scheme and is left unchanged |
| Config.Settings.FixDatabaseUrl | backend/app/core/config.py:31-39 | the validator sets `database_url` to the normalised old URL and changes no other field |
| Config.Settings.constructor | backend/app/core/config.py:13-52 | constructing settings keeps every given value and leaves `database_url` normalised |
| Config.Settings.Defaults | backend/app/core/config.py:23-52 | with nothing configured the fields hold their declared defaults, and the sqlite default URL is left unchanged by the validator |
| Config.Settings.IsProduction | backend/app/core/config.py:54-56 | holds exactly when `app_env` is the production environment |
| Auth.VerifyApiKey | backend/app/core/auth.py:16-26 | with no key (none or empty) configured the result is `None` whatever the header; with a key configured the header is returned exactly when it equals the key, and 401 `Invalid or missing API key` is raised when it is missing, empty or different |
| Llm.GetCompletionKwargs | backend/app/core/llm.py:33-56 | the `model` entry is always present and is the requested model when non-empty, otherwise `litellm_model` |
| Llm.FirstEligible | backend/app/core/llm.py:38-54 | the backend found is in the list and eligible; none is found exactly when no backend in the list is eligible |
| Llm.FirstEligibleIsFirst | backend/app/core/llm.py:38-54 | the backend found sits at a position of the priority list before which no backend is eligible, so the `if/elif` chain takes the first eligible branch |
| Llm.PriorityOrder | backend/app/core/llm.py:38-54 | the route is Azure if its condition holds, else OpenAI if its condition holds, else Anthropic, else Ollama, else none |
| Llm.KwargsFollowPriority | backend/app/core/llm.py:36-56 | the `if/elif` chain equals the priority routing: the model plus the credentials of exactly the first eligible backend in the order Azure, OpenAI, Anthropic, Ollama, and no other key |
| Llm.AzureRoute | backend/app/core/llm.py:39-46 | an `azure/` model gets the Azure key, base and version when the Azure key is set; without it, it falls through to the OpenAI key when that is set, and otherwise gets only the model |
| Llm.OllamaRoute | backend/app/core/llm.py:45-54 | an `ollama/` model never gets an `api_key`: its arguments are exactly the model and `api_base = ollama_base_url` |
| Llm.ClaudeRoute | backend/app/core/llm.py:45-50 | a `claude` model never gets the OpenAI key: it gets the Anthropic key when one is set, and otherwise only the model |
| Llm.BuildMessages | backend/app/core/llm.py:79-82 | the list has one or two messages, the last is the user's prompt, and a system message with the system prompt comes first exactly when the system prompt is non-empty |
| Llm.MakeProviderCall | backend/app/core/llm.py:117-130 | the provider call carries exactly `BuildMessages`' messages (the system message first when there is one, the user's prompt last) and exactly the keyword arguments `_get_completion_kwargs` routes for the model, hence its credentials, plus the temperature and token limit unchanged, and asks for a stream exactly when `llm_stream` makes it |
| Llm.LlmComplete | backend/app/core/llm.py:59-93 | the result is the provider's answer to the call built from the arguments, and a provider failure propagates as an exception with its text |
| Llm.StreamedText | backend/app/core/llm.py:132-134 | the output has no more fragments than there are deltas, and no fragment is empty |
| Llm.StreamedTextAppend | backend/app/core/llm.py:132-134 | filtering a concatenation of two delta sequences gives the filtered first part followed by the filtered second part |
| Llm.KeptPositionsMatch | backend/app/core/llm.py:132-134 | there are as many kept positions as output fragments, and fragment `k` is the non-empty content of the delta at kept position `k` |
| Llm.KeptPositionsIncrease | backend/app/core/llm.py:132-134 | the kept positions strictly increase, so no fragment is reordered |
| Llm.KeptPositionsComplete | backend/app/core/llm.py:132-134 | every delta with non-empty content is kept |
| Llm.StreamedTextIsOrderedFilter | backend/app/core/llm.py:132-134 | the output is exactly the non-empty delta contents: each fragment is the content of a kept delta, the kept positions strictly increase, and every delta with non-empty content is kept |
| Llm.LlmStream | backend/app/core/llm.py:132-134 | the loop over the provider's chunks yields exactly the filtered stream |
| LlmApi.CheckLlmConfigured | backend/app/api/llm.py:12-23 | passes exactly when the Azure OpenAI key or the OpenAI key is non-empty; otherwise raises 503 with the remediation text |
| LlmApi.ParseCompletionRequest | backend/app/api/llm.py:28-35 | a body is accepted exactly when its prompt is a given string and neither `temperature` nor `max_tokens` is null; `model` and `system_prompt` become `None` when missing or null, and a missing `temperature` or `max_tokens` defaults to 0.7 or 1000 |
| LlmApi.Complete | backend/app/api/llm.py:45-75 | unconfigured, it raises 503 before calling the provider; it succeeds exactly when the service is configured and the provider completes; a success is the provider's answer to the request's call, and a provider failure propagates; the reported model is the request's model when non-empty, otherwise `llm_model` |
| LlmApi.Decide | backend/app/api/llm.py:103-120 | a missing or empty prompt is refused with `prompt is required` before the configuration is checked; an unconfigured service is refused with the check's detail; otherwise `llm_stream` is called with the prompt, model and system prompt, and `temperature` and `max_tokens` default to 0.7 and 1000 when missing and are passed on as `None` when explicitly `null` |
| LlmApi.StreamCallOf | backend/app/api/llm.py:115-121 | the provider call of a dispatched message is a streaming call ending with the user's prompt, opens with a system message carrying the sent system prompt exactly when a non-empty one was sent, and is routed for the message's model |
| LlmApi.StreamOutput | backend/app/api/llm.py:114-127 | one chunk per non-empty fragment in order, then exactly one terminal message: `done` for a stream that ended normally, the exception's text for one that failed after its fragments |
| LlmApi.HandleMessage | backend/app/api/llm.py:101-127 | a refused message sends exactly one error and calls nothing; every message ends with exactly one terminal message, preceded only by chunks; a message makes one `llm_stream` call exactly when its prompt is non-empty and the service is configured, that call carries the arguments built from the message with their defaults, and then sends that call's stream output |
| LlmApi.ReceivedLeading | backend/app/api/llm.py:99-130 | the messages a session handles are exactly the leading received events, up to the end of the input or to the first disconnect |
| LlmApi.ReceivedStopsAtDisconnect | backend/app/api/llm.py:129-130 | nothing received after a disconnect is handled |
| LlmApi.SessionStopsAtDisconnect | backend/app/api/llm.py:129-130 | a session's output and calls do not depend on what arrives after a disconnect |
| LlmApi.ServeSequential | backend/app/api/llm.py:100-127 | messages are handled strictly one after another: the output of one run of messages is followed by that of the next, whose messages are numbered after the first run's |
| LlmApi.SessionSequential | backend/app/api/llm.py:100-127 | a session over received messages followed by more events does what the first part does, then what handling the rest does |
| LlmApi.ServeFraming | backend/app/api/llm.py:100-127 | when each message's output is chunks followed by one terminal message, a run of messages sends exactly one terminal message per message and never ends on a chunk |
| LlmApi.SessionFraming | backend/app/api/llm.py:99-130 | the WebSocket session sends exactly one terminal message per message received before the disconnect and never ends on a chunk; only non-empty prompts reach `llm_stream`, and nothing does when the service is unconfigured |
| LlmApi.SendStream | backend/app/api/llm.py:114-127 | relaying a stream sends exactly the stream's output: its chunks in order, then `done` or the failure's text |
| LlmApi.ReceiveMessage | backend/app/api/llm.py:101-127 | the loop body for one received message sends and calls exactly what the message's handling specifies |
| LlmApi.StreamCompletion | backend/app/api/llm.py:78-130 | the receive loop sends and calls exactly what the session specifies for its events, stopping at the first disconnect |

## Left out

- The provider library (`acompletion`, `backend/app/core/llm.py:86-93,124-130`) is a foreign call. It is an oracle parameter here.
- The streaming oracle answers the call made for the connection's i-th received message. It is not indexed by the number of calls, which only matters for messages that make no call. Because the oracle is arbitrary, this still allows any provider behaviour.
- The socket path does not record the `ProviderCall` itself. `LlmApi.StreamCallOf` states what that call is for each dispatched message.
- Async/await and the WebSocket transport (`accept`, `receive_json`, `send_json`) are a sequential input trace and an output sequence.
- A disconnect during `send_json` that the inner `except Exception` swallows is not modelled. It depends on the framework's exception types.
- `temperature` is a `real` that is only passed through, never computed on. Float representation is not modelled.
- A JSON field of the wrong type (for example a number as `prompt` on the socket path) is not modelled. Envelope fields are typed.
- A received frame that is not a JSON object is not modelled: every `Receive` event carries an object. In `stream_completion` a frame that is not JSON makes `receive_json` raise (`backend/app/api/llm.py` line 101), and a JSON value that is not an object makes `data.get` raise `AttributeError` (line 103). Neither is a `WebSocketDisconnect`, so the `except` at line 129 does not catch it and the session ends with an unhandled exception, not through a disconnect. `ReceivedLeading`, `SessionStopsAtDisconnect` and `StreamCompletion` describe only sessions whose frames are all objects.
- Exceptions other than the provider's are not modelled. On the socket path, `_get_completion_kwargs` could raise for such a field, and the inner `try` would report it.
- A provider answer whose content is `None` is not modelled. `llm_complete` would return `None` and response validation would then fail.
- Loading settings from the environment and `.env`, and the `lru_cache` of `get_settings`, are library I/O. The `Settings` constructor receives the loaded values.
- `litellm.set_verbose = settings.debug` is a logging switch of the provider library.
- The LLM settings the adapter reads (`litellm_model`, `azure_api_key`, `azure_api_base`, `azure_api_version`, `anthropic_api_key`, `ollama_base_url`) are not fields of `Settings` in `backend/app/core/config.py`. `Settings` (lines 13-52, which ignore extra environment keys) declares none of `litellm_model`, `azure_api_key`, `anthropic_api_key` or `ollama_base_url`, so as written the reads at `backend/app/core/llm.py` lines 35, 39, 49 and 54 raise `AttributeError`. The model routes as `llm.py` evidently intends, with these settings kept as a separate record (`Llm.LlmSettings`) under the names the adapter reads.
- `LlmSettings.openaiApiKey` and `Settings.openaiApiKey` are two independent copies of `openai_api_key`: the model does not require them to agree, so the configuration check of `LlmApi.Complete` and the routing can see different keys, which the code, reading one settings object, cannot.
- `backend/app/api/items.py`, `backend/app/db/models.py`, `backend/app/main.py`, `backend/app/api/health.py` and the frontend are database, wiring and browser plumbing with no decision logic. They are not part of this model.
