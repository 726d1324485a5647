# LLM API gateway: key rotation, key discovery, dispatch and request validation

This project models the core of a small HTTP gateway that forwards
text-generation requests to one of three LLM vendors (Mistral, Hugging Face,
Gemini). Each vendor has a pool of API keys that is used round-robin. The
model covers five pieces:

- **Rotation.** Each vendor handler holds an immutable key list and a
  mutable cursor. `get_api_key` returns the key under the cursor and moves
  the cursor one step on, modulo the list length. This is the class
  `Providers.Provider`.
- **Handlers.** Each vendor's `send_request` fetches a key. A falsy key
  (`None` or `""`) gives a vendor-specific "No … API key available" error.
  Otherwise the handler calls the vendor and wraps the reply or exception
  into `{"provider", "response": {"text"}}` or `{"error"}`. The Hugging Face
  handler joins the streamed chunk contents into one text.
- **Key discovery.** `_load_provider_keys` probes `PREFIX1`, `PREFIX2`, …
  up to the first missing index. If no numbered key exists it falls back to
  the bare `PREFIX`. It then registers a handler for the keys it found, or
  `None` when it found none. This is `LlmManager.DiscoverKeys` and
  `LlmManager.Manager`.
- **Dispatch.** `request` rejects an unknown or unconfigured provider with
  an error and touches no handler. Otherwise it waits the rate limit and
  returns what the handler returns.
- **Validation.** The `/generate` endpoint checks the decoded JSON body in
  this order: the body is present, `prompt`/`provider`/`model` are
  non-empty, and the provider is on the whitelist. A failed check gives
  400. A passed check calls the manager and answers 200, even when the
  manager's result is an error.

Modules:

- `Values`: Option, decoded JSON values, and Python truthiness.
- `Providers`: `llm_manager.py:8-139`.
- `LlmManager`: `llm_manager.py:141-214`.
- `App`: `app.py:11-47`.

The environment is a `map<string, string>` parameter. The vendor SDKs are
the function fields of a `Services` value. Each field maps the exact call the
handler builds to what the SDK produced. `except Exception` becomes the
`Raised` / `Stream.raised` branch.

Behaviour of the code worth knowing:

- The Mistral handler forwards neither temperature nor top_p: it sends only
  the model and one user message (`llm_manager.py:52-55`). The Hugging Face
  and Gemini handlers forward both. `Providers.MistralResultIgnoresSampling`
  and `Providers.SamplingForwarded` state this.
- A handler errors on the truthiness of the rotated key, so an empty-string
  key gives the same "No … API key available" error as an empty key list.
  The cursor has already advanced at that point.
- The endpoint's docstring lists `openrouter` (`app.py:17`), but the
  whitelist rejects it (`App.OpenRouterRejected`).
- A truthy JSON body that is not an object makes `data.get` raise, so Flask
  answers 500 with its own error page. The model returns `Response(500, None)`.
- `time.sleep` raises `ValueError` for a negative rate limit, and
  `OverflowError` for one of about 9.2e9 seconds or more
  (`llm_manager.py:212`, with the limit read from `LLM_RATE_LIMIT` at
  `app.py:9`). Every request to a configured provider then escapes `generate`
  before the handler is called, so Flask answers 500 and no cursor moves.
  `LlmManager.Manager.Request` returns `SleepRaised` here, and
  `App.NegativeRateLimitFails` and `App.HugeRateLimitFails` show the 500.

## Model

| member | source | states |
|---|---|---|
| `Providers.KeyAt` | llm_manager.py:19-21 | a fetch yields no key exactly when the list is empty, otherwise a key from the list |
| `Providers.NextIndex` | llm_manager.py:22 | the cursor stays in range (below the length, or 0 for an empty list) after every fetch |
| `Providers.IndexAfter` | llm_manager.py:22 | after any number of fetches the cursor is still inside the list |
| `Providers.Provider.constructor` | llm_manager.py:12-15 | a new handler keeps its vendor, name and key list, with the cursor at 0 |
| `Providers.Provider.GetApiKey` | llm_manager.py:17-23 | an empty list gives `None` and leaves the cursor alone; otherwise it returns `api_keys[old cursor]` and sets the cursor to `(old + 1) % len`; nothing else changes |
| `Providers.Provider.FetchKeys` | llm_manager.py:17-23 | n successive `get_api_key` calls on one handler return exactly `Issued(keys, start, n)` and leave the cursor at `IndexAfter(keys, start, n)` |
| `Providers.IssuedSplit` | llm_manager.py:21-22 | fetching a + b keys is fetching a keys, then b more from where the cursor was left |
| `Providers.NextIndexStep` | llm_manager.py:22 | one fetch moves the cursor to the next position, and back to 0 after the last key |
| `Providers.IssuedWithoutWrap` | llm_manager.py:21-22 | before the end of the list, consecutive fetches walk the list in order |
| `Providers.IndexAfterWithoutWrap` | llm_manager.py:22 | before the end of the list the cursor counts up one per fetch, reaching 0 exactly at the end |
| `Providers.IssuedCycle` | llm_manager.py:21-22 | from any cursor, len(keys) fetches return the list rotated to that cursor and bring the cursor back |
| `Providers.IssuedOncePerCycle` | llm_manager.py:21-22 | every len(keys) consecutive fetches return each key exactly once (as a multiset) |
| `Providers.FreshHandlerOrder` | llm_manager.py:15-22 | from cursor 0, N fetches return the keys in list order and fetch N + 1 returns the first key again |
| `Providers.FreshRotation` | llm_manager.py:12-23 | a newly built handler hands out its keys in list order over N calls, and call N + 1 gets the first key again |
| `Providers.MistralIgnoresSampling` | llm_manager.py:52-55 | the Mistral call carries the key, the model and a single user message holding the prompt |
| `Providers.MistralResultIgnoresSampling` | llm_manager.py:38-61 | the Mistral result does not depend on temperature or top_p |
| `Providers.SamplingForwarded` | llm_manager.py:80-87 | Hugging Face and Gemini pass temperature and top_p through unchanged |
| `Providers.NonEmptyContentsAppend` | llm_manager.py:88-90 | the non-empty chunk contents of a split stream are those of each part, in order |
| `Providers.ConcatAppend` | llm_manager.py:90 | concatenation distributes over joining lists of parts |
| `Providers.StreamTextAppend` | llm_manager.py:88-90 | the stream text of a split stream is the text of the first part followed by the second |
| `Providers.StreamTextCons` | llm_manager.py:88-90 | each chunk adds its content (or nothing when the content is missing or empty) before the rest |
| `Providers.StreamTextIsAllContents` | llm_manager.py:88-90 | skipping empty chunks loses nothing: the text is every chunk's content in order, a missing content read as empty |
| `Providers.StreamTextStep` | llm_manager.py:88-90 | reading one more chunk appends its content exactly when that content is non-empty |
| `Providers.CollectStream` | llm_manager.py:79-90 | the `for chunk in stream` loop builds exactly the in-order concatenation of the non-empty chunk contents |
| `Providers.Respond` | llm_manager.py:46-139 | a falsy key gives that vendor's "No … API key available" error; a success always carries the vendor's own name and needs a truthy key |
| `Providers.RespondWrapsVendor` | llm_manager.py:50-139 | with a truthy key the result is the vendor's text under the vendor's name, or the exception text as the error (Mistral 56-61, Hugging Face 91-93, Gemini 134-139); for Hugging Face an exception anywhere in the stream wins over its chunks |
| `Providers.HuggingFaceSend` | llm_manager.py:72-93 | the Hugging Face handler after the key fetch, including the stream fold |
| `Providers.Provider.SendRequest` | llm_manager.py:38-139 | the handler advances its cursor one step, even when the key is falsy, and returns the vendor's result for the key under the old cursor; for Hugging Face the result comes from the stream-folding loop |
| `LlmManager.Decimal` | llm_manager.py:165 | `str(index)` is never empty, and two or more digits long from 10 on |
| `LlmManager.DecimalInjective` | llm_manager.py:165 | distinct indices give distinct variable names |
| `LlmManager.NameInjective` | llm_manager.py:165 | `prefix + str(a) == prefix + str(b)` only when a == b |
| `LlmManager.NameSetCard` | llm_manager.py:163-168 | the names probed for indices 1..n are n distinct names |
| `LlmManager.NamesBoundedByEnv` | llm_manager.py:164-170 | the probing loop cannot run past the size of the environment, so it terminates |
| `LlmManager.ProviderKeys` | llm_manager.py:160-174 | no key is found exactly when neither `prefix1` nor the bare `prefix` is set; numbered keys win whenever `prefix1` is set; otherwise the result is the single bare key |
| `LlmManager.RunFromSpec` | llm_manager.py:163-170 | the run from index i holds the values of consecutive present names and ends at the first missing one |
| `LlmManager.NumberedKeysAreRun` | llm_manager.py:163-170 | the numbered keys are `[env[prefix1], …, env[prefixk]]` with `prefix(k+1)` missing |
| `LlmManager.NumberedRunUnique` | llm_manager.py:163-170 | any list with that description is the discovered one |
| `LlmManager.DiscoveryStopsAtGap` | llm_manager.py:164-170 | when `prefix g` is missing, fewer than g numbered keys are loaded, so no key after the gap is loaded |
| `LlmManager.GapExample` | llm_manager.py:163-174 | with `X`, `X1`, `X2`, `X4` set and no `X3`, exactly the values of `X1` and `X2` are loaded: probing stops at the gap and the bare `X` is ignored |
| `LlmManager.SingleMistralKey` | llm_manager.py:163-174 | an environment holding only `MISTRAL_KEY1` yields exactly that one key |
| `LlmManager.DiscoverKeys` | llm_manager.py:158-174 | the probing loop and the fallback return exactly the discovered keys |
| `LlmManager.Manager.LoadProviderKeys` | llm_manager.py:158-185 | the vendor's name maps to `None` iff no key was discovered, else to a fresh handler of that vendor holding exactly those keys with cursor 0; other entries are unchanged |
| `LlmManager.Manager.constructor` | llm_manager.py:144-156 | the registry has exactly the keys `mistral`, `huggingface`, `gemini`, each loaded from its own prefix |
| `LlmManager.SleepError` | llm_manager.py:212 | `time.sleep` returns normally exactly for a non-negative length of at most 2^63 - 1 nanoseconds; it raises the negative-length `ValueError` exactly for a negative length whose nanosecond count still fits, and `OverflowError` otherwise |
| `LlmManager.Manager.Request` | llm_manager.py:187-214 | an absent or `None` provider gives the "Provider '…' is not configured or has no API keys." error, with no wait and no handler touched; a rate limit `time.sleep` refuses (negative, or too many nanoseconds for the clock) makes the wait raise before the handler is reached, so the cursor stays; otherwise there is one wait, only that handler's cursor moves one step, and its result is returned unchanged |
| `App.Validate` | app.py:24-38 | a missing or falsy body is "No JSON body provided"; dispatch happens iff the three fields are truthy and the provider is whitelisted; the dispatched values are the body's, with temperature/top_p defaulting to 1.0 |
| `App.RequiredCheckedFirst` | app.py:34-35 | a missing or empty prompt, provider or model is the "required" error whatever the provider is |
| `App.UnknownProviderRejected` | app.py:37-38 | with the required fields present, a provider outside the whitelist is "Invalid provider" |
| `App.OpenRouterRejected` | app.py:37-38 | `openrouter` is rejected as an invalid provider |
| `App.MissingModelRejected` | app.py:28-35 | a body without `model` is a 400 "required" error |
| `App.HelloBodyDispatches` | app.py:28-46 | `{"prompt": "hi", "provider": "mistral", "model": "m1"}` is forwarded with temperature and top_p 1.0 |
| `App.Generate` | app.py:24-47 | a failed check is 400 with its error and no manager call, so no wait and no cursor moves; a passed check is 200 with the manager's result (an error result included), rotates that provider's key and records one wait, except that a raising rate-limit wait (negative, or too large for the clock) gives 500, records no wait and leaves the cursor alone |
| `App.MistralRoundTrip` | app.py:40-47 | one Mistral key and a vendor answering "hello" give 200 `{"provider": "mistral", "response": {"text": "hello"}}` |
| `App.NegativeRateLimitFails` | llm_manager.py:209-214 | with rate limit -1 the same request is answered 500 and the handler's cursor stays at 0 |
| `App.HugeRateLimitFails` | llm_manager.py:209-214 | with rate limit 1e10 seconds the wait overflows the clock, so the same request is answered 500 and the handler's cursor stays at 0 |

## Left out

- Reading `os.environ` (`llm_manager.py:166-167`, `173-174`; `app.py:9`): the environment is a map parameter, and the rate limit is a constructor argument.
- `time.sleep(self.rate_limit)` (`llm_manager.py:212`): not modelled as time. The ghost field `delays` records each wait, to show where the wait happens. Its `ValueError` for a negative length and its `OverflowError` for a length outside the signed 64-bit nanosecond range are modelled (`LlmManager.SleepError`), on exact reals. A NaN or infinite `LLM_RATE_LIMIT` is not modelled, because Dafny reals have neither; in the source, such values make the sleep raise too.
- LlmManager.SleepError: the nanosecond count is computed on exact reals, not on doubles. So within a few microseconds of the 2^63 - 1 ns bound (about 9.2e9 s) the double rounding that decides the source's outcome is not modelled.
- The vendor SDKs (`Mistral`, `InferenceClient`, `genai.configure`, `GenerativeModel`, `start_chat`, `send_message`): these are foreign libraries. Each is a function from the call record the handler builds to a completion, a stream or an exception text. This leaves out their timeouts, `genai.configure`'s process-wide state, and any change in their answers from one call to the next (one `Services` value is fixed per request).
- An exception while reading a chunk (for example empty `choices`) is folded into `Stream.raised`. A vendor reply whose content is `None` is not modelled, since texts are strings.
- `LLMProviderBase.send_request` raising `NotImplementedError` (`llm_manager.py:35`): every `Provider` has a vendor, so no base-only handler exists.
- `**kwargs`: every handler ignores them and `generate` never passes any, so they are dropped.
- `LlmManager.Manager.LoadProviderKeys` takes a `Vendor` instead of a provider-name string. For any other name, the source's class lookup (`llm_manager.py:177-183`) raises `KeyError` only when keys were found, because it sits inside `if keys:`. With no keys, the source stores `None` under whatever name it was given. The source only ever calls it with the three vendor names.
- Temperature and top_p are opaque JSON values passed through unchanged. No float arithmetic happens on them.
- Flask routing, `jsonify`, `request.json` parsing (malformed JSON, wrong content type) and `app.run` (`app.py:2`, `5`, `11`, `24`, `47`, `49-51`): the body is given already decoded, or absent.
- Concurrent requests racing on a cursor: only sequential calls are modelled.
