# Azure OpenAI gateway: retries, chat helpers and provider configuration

This Dafny project models the gateway that the backend's AI service uses to reach
Azure OpenAI. It covers four parts:

- **The `with_retry` decorator.** It invokes the wrapped coroutine up to
  `max_retries` times (three by default). Rate-limit, timeout and connection errors
  are retried, and so is a status error outside the 4xx range. Each retry follows a
  sleep of `1 * 2^attempt` seconds. Any other exception, a 4xx status among them,
  ends the call at once. Once the attempts run out, the last caught exception is
  raised.
  - `Retries.Retry` is the closed-form specification, as a function.
  - `Retries.WithRetry` is the loop as the source writes it, and is proved equal to it.
- **`chat_completion`.** It builds the keyword arguments (deployment, messages,
  temperature, token limit, optional response format) and makes one upstream call per
  attempt. It returns the reply's content, with a null content becoming "".
- **`chat_completion_json`.** It is itself decorated, and each of its attempts runs
  the decorated `chat_completion` and decodes the reply as JSON. The two retry loops
  are nested: the model counts every upstream call across both loops.
- **`quick_analysis`.** It sends a system prompt and a user text to the mini
  deployment.
- **The provider configuration**:
  - the required and optional environment lookups;
  - the configuration record and its defaults;
  - the model-name to deployment table;
  - deployment-name resolution;
  - the status dictionary that the connection check reports.

External effects are parameters:

- The upstream API is a function `upstream(kwargs, i)`. It gives the outcome of the
  i-th `chat.completions.create` call that this request observes. Calls made for other
  concurrent requests are not counted.
- The wrapped function of the decorator is `call(i)`, the outcome of the i-th
  invocation that this request observes.
- `json.loads` is a parameter `parse`.
- The process environment is a map.
- The connection probes are given as their outcomes.

Files:

- `errors.dfy`: exceptions and outcomes.
- `wrappers.dfy`: `Option`.
- `retry.dfy`: the decorator.
- `nested.dfy`: one decorated call inside another.
- `ai_service.dfy`: the chat helpers.
- `provider.dfy`: the configuration.

## Model

| member | source | states |
|---|---|---|
| Retries.Retryable | backend/app/ai_service.py:46-81 | Exactly rate-limit, timeout and connection errors, and status errors outside [400, 500), are caught and retried. A success, a 4xx status, a ValueError and any other exception are not. |
| Retries.Retry | backend/app/ai_service.py:33-87 | A decorated call makes 1 to `max_retries` invocations. Every invocation but the last was retried. It stops early only on an outcome the decorator does not retry. It returns or raises the last invocation's outcome. It sleeps once per retried failure. |
| Retries.CallsFrom | backend/app/ai_service.py:43-45 | From a given attempt, the loop makes between one more invocation and the maximum number. Stopping before the maximum means the last outcome is not retried. |
| Retries.CallsFromRetried | backend/app/ai_service.py:46-81 | Every invocation that the loop counts, except the last, is one the decorator catches and retries. |
| Retries.RunOfUnique | backend/app/ai_service.py:33-87 | The closed form determines the run: any run satisfying it equals `Retry`. |
| Retries.WithRetry | backend/app/ai_service.py:33-87 | With at least one attempt, the imperative loop agrees with `Retry` on the result, the number of invocations and the number of sleeps. Its recorded sleeps are the `1 * 2^k` backoff delays. With zero attempts it makes no call, takes no sleep, and raises a TypeError (`raise None`). |
| Retries.Delays | backend/app/ai_service.py:49 | The k-th sleep is `INITIAL_BACKOFF * BACKOFF_MULTIPLIER^k`, and there is one sleep per retried failure. |
| Retries.ExhaustedRaisesLast | backend/app/ai_service.py:83-84 | When every attempt fails retryably, the decorator makes exactly `max_retries` invocations and sleeps as many times. It raises the last caught exception. |
| Retries.FirstSuccessReturned | backend/app/ai_service.py:44-45 | After k retried failures, a success is returned at once: k + 1 invocations and k sleeps. |
| Retries.ClientErrorRaisedAtOnce | backend/app/ai_service.py:71-74 | A status error in [400, 500) is re-raised after one invocation with no sleep. |
| Retries.UncaughtPropagates | backend/app/ai_service.py:44-81 | An exception outside the four caught classes propagates after one invocation with no sleep. |
| Retries.RateLimitRetried | backend/app/ai_service.py:46-54 | A rate limit (429) is retried after a 1-second sleep. A plain status error 429 is not retried, because 429 lies in [400, 500). The rate-limit clause comes first, which is why a rate limit is retried even though it carries status 429. |
| Retries.ServerErrorRetried | backend/app/ai_service.py:71-81 | A status error outside [400, 500) is retried after a 1-second sleep. |
| Retries.BackoffDoubles | backend/app/ai_service.py:27-29 | Each delay is exactly twice the previous one: no jitter. |
| Retries.DelaysIncrease | backend/app/ai_service.py:49 | The sleep durations strictly increase. |
| Retries.PowPositive | backend/app/ai_service.py:49 | The backoff factor `2^k` is at least 1. |
| Retries.BackoffUnbounded | backend/app/ai_service.py:49 | The delay after attempt k exceeds k seconds: no ceiling. |
| Retries.DelaysTotal | backend/app/ai_service.py:43-81 | n retried failures sleep 2^n - 1 seconds in all. |
| Retries.DefaultExhaustedSleeps | backend/app/ai_service.py:27-29 | With the defaults, an exhausted call makes 3 invocations and sleeps 1, 2 and 4 seconds, 7 in all. |
| NestedRetries.Cursor | backend/app/ai_service.py:182-188 | Outer attempt j starts after one to three inner invocations for each earlier outer attempt. |
| NestedRetries.Outer | backend/app/ai_service.py:182-188 | Outer attempt j runs the inner decorated call from invocation `Cursor(j)` and passes what it returns or raises through the outer body. |
| NestedRetries.InnerSleeps | backend/app/ai_service.py:182-188 | The inner decorated calls of the first j outer attempts sleep at most once per invocation they make. |
| NestedRetries.InnerSleepSeconds | backend/app/ai_service.py:182-188 | The seconds slept inside the inner decorated calls of the first j outer attempts: each inner run sleeps `Delays` of its own sleep count. |
| NestedRetries.Nested | backend/app/ai_service.py:163-195 | The outer decorator runs `Outer` under the closed form of the retry loop. The result is the last outer attempt's outcome, every earlier outer attempt was retried, and there is one outer sleep per retried outer attempt. Each outer attempt makes 1 to 3 inner invocations, and the inner calls sleep at most once per invocation. |
| NestedRetries.InnerExhausted | backend/app/ai_service.py:83-84 | With every inner invocation retried, each inner decorated call uses its three attempts and raises the third error. |
| NestedRetries.CursorExhausted | backend/app/ai_service.py:182-188 | With every inner invocation retried, outer attempt j starts after exactly 3j inner invocations and 3j inner sleeps. |
| NestedRetries.OuterAttemptExhausted | backend/app/ai_service.py:182-188 | With every inner invocation retried, outer attempt j raises the error of inner invocation 3j + 2. |
| NestedRetries.NestedExhausted | backend/app/ai_service.py:163-195 | With every invocation retried, the nested call makes 9 inner invocations, 9 inner sleeps and 3 outer sleeps. It raises the ninth invocation's error. |
| NestedRetries.InnerSleepSecondsExhausted | backend/app/ai_service.py:182-188 | With every inner invocation retried, the inner calls of the first j outer attempts sleep 7j seconds. |
| NestedRetries.NestedExhaustedSeconds | backend/app/ai_service.py:163-195 | With every invocation retried, the nested call sleeps 21 seconds inside the inner calls and 7 seconds between outer attempts. |
| NestedRetries.FirstOuterAttempt | backend/app/ai_service.py:182-188 | The first outer attempt runs the inner decorated call from the starting invocation. |
| NestedRetries.FirstOuterStops | backend/app/ai_service.py:163-195 | If the first outer attempt's outcome is not retried, it is the result. There is one outer attempt, no outer sleep, and only the first inner call's invocations and sleeps. |
| NestedRetries.OuterStopsAt | backend/app/ai_service.py:163-195 | If outer attempts 0 to j - 1 were retried and attempt j is not, the result is attempt j's outcome. There are j + 1 outer attempts and j outer sleeps, with the invocations and sleeps of those j + 1 inner runs. |
| AiService.ChatKwargs | backend/app/ai_service.py:147-157 | The request carries exactly model, messages, temperature and max_tokens, plus response_format only when one is given and non-empty. The model is the given one, or the main chat deployment when none or "" is given. |
| AiService.ChatAttempt | backend/app/ai_service.py:159-160 | One upstream call: its content, "" for null, or its error unchanged, and retried exactly when the upstream error is. |
| AiService.ChatCompletion | backend/app/ai_service.py:126-160 | 1 to 3 upstream calls, all with the same arguments. Every call before the last was retried. The result is the last call's content ("" for null) or its error. It stops early only on an outcome that is not retried. It sleeps once per retried failure. |
| AiService.NullContentIsEmpty | backend/app/ai_service.py:160 | A null reply content is returned as "" after one call. |
| AiService.RateLimitedTwiceThenOk | backend/app/ai_service.py:126-160 | Two rate limits and then "ok": three calls, sleeps of 1 and 2 seconds, and "ok" is returned. |
| AiService.ReplyIsLastContent | backend/app/ai_service.py:159-160 | A returned string is the content of the last upstream reply, "" when that content is null. |
| AiService.ChatCompletionExhausted | backend/app/ai_service.py:126-160 | When all upstream calls fail retryably, there are 3 calls and 3 sleeps, and the third error is raised. |
| AiService.JsonRequest | backend/app/ai_service.py:182-188 | The inner request carries a non-empty response format `{"type": "json_object"}` and the caller's messages, model, temperature and token limit. |
| AiService.JsonRequestAsksForObject | backend/app/ai_service.py:182-188 | The inner request always carries `response_format = {"type": "json_object"}` and passes messages, temperature and token limit through. |
| AiService.Decode | backend/app/ai_service.py:190-195 | Succeeds exactly when the inner call returned a text that parses, with the parsed value. An inner exception passes through unchanged, and a decode error becomes ValueError("Invalid JSON response from model: " + detail). The outcome is retried exactly when the inner outcome was. |
| AiService.DecodeErrorRaises | backend/app/ai_service.py:190-195 | A reply that is not JSON raises ValueError("Invalid JSON response from model: " + detail), and the decorator does not retry it. |
| AiService.DecodePassesErrors | backend/app/ai_service.py:182-188 | An exception from the inner `chat_completion` leaves the outer body unchanged. |
| AiService.ChatBodyRetryable | backend/app/ai_service.py:159 | A retried upstream error is a retried error of `chat_completion`'s body. |
| AiService.ChatCompletionJson | backend/app/ai_service.py:163-195 | The outer decorator's closed form over attempts that each run `chat_completion` and decode its reply. The result is the last outer attempt's decoded outcome, every earlier outer attempt was retried, and there is one outer sleep per retried outer attempt. There are 1 to 3 outer attempts, each making 1 to 3 upstream calls. |
| AiService.JsonCursor | backend/app/ai_service.py:182-188 | Outer attempt j starts between j and 3j upstream calls after the first. |
| AiService.JsonAttemptRetried | backend/app/ai_service.py:182-195 | Outer attempt k decodes the outcome of `chat_completion` run from `JsonCursor(k)`. It is retried exactly when that outcome is. |
| AiService.JsonDecodeErrorAt | backend/app/ai_service.py:163-195 | If earlier outer attempts were retried and the `chat_completion` of attempt j returns text that is not JSON, ValueError is raised from attempt j. There are j + 1 outer attempts and j outer sleeps, and no upstream call beyond those runs. |
| AiService.JsonParsedAt | backend/app/ai_service.py:163-195 | If earlier outer attempts were retried and the `chat_completion` of attempt j returns text that parses, the parsed value is returned from attempt j, with j outer sleeps. |
| AiService.TimeoutsThenReply | backend/app/ai_service.py:126-160 | Three timeouts and a reply: the first `chat_completion` run is exhausted after 3 calls and 3 sleeps, and the next returns the reply after 1 call. |
| AiService.JsonTimeoutsThenDecodeError | backend/app/ai_service.py:163-195 | Three timeouts and then text that is not JSON: ValueError after 4 upstream calls, 3 inner sleeps and 1 outer sleep, with no further call. |
| AiService.JsonAllTransientNineCalls | backend/app/ai_service.py:163-195 | When every upstream call fails retryably, exactly 9 upstream calls, 9 sleeps inside `chat_completion` and 3 outer sleeps happen, and the ninth error is raised. |
| AiService.JsonDecodeErrorNotRetried | backend/app/ai_service.py:190-195 | A reply that is not JSON raises ValueError from the first outer attempt. There is no outer retry and no upstream call or sleep beyond the first `chat_completion`'s. |
| AiService.JsonParsedReturned | backend/app/ai_service.py:190-191 | A reply that parses is returned as the parsed value after the first outer attempt, with only that attempt's upstream calls and sleeps. |
| AiService.QuickAnalysisRequest | backend/app/ai_service.py:214-226 | The request is the system prompt then the user text, temperature 0.3 and 500 tokens, with no response format. The model is the given one, or the mini deployment when none or "" is given. |
| AiService.QuickAnalysis | backend/app/ai_service.py:198-226 | It returns or raises what `chat_completion` does for the quick-analysis request, under that function's retries only. The result is the last upstream outcome, earlier calls were retried, and there is one sleep per retried failure, over 1 to 3 upstream calls. |
| AiService.QuickAnalysisSends | backend/app/ai_service.py:214-226 | The request is exactly the system prompt and the user text, temperature 0.3 and 500 tokens, with no response format. It goes to the mini deployment unless a non-empty model is given. |
| AiService.QuickAnalysisEmptyMiniUsesChat | backend/app/ai_service.py:214-226 | With the mini deployment configured as "" and no model, the request goes to the main chat deployment, through the second `or` in `chat_completion`. |
| Provider.GetRequiredEnv | backend/app/openai_provider.py:23-28 | Succeeds exactly when the variable is set and non-empty, with its value. Otherwise it raises ValueError naming the variable. |
| Provider.GetOptionalEnv | backend/app/openai_provider.py:31-33 | A set variable yields its value, even "", and an unset one yields the default. |
| Provider.RequiredAndOptionalAgree | backend/app/openai_provider.py:23-33 | The two lookups agree where the required one succeeds. A variable set to "" is missing for the required lookup but yields "" for the optional one. An unset variable yields the default. |
| Provider.LoadConfig | backend/app/openai_provider.py:39-61 | Succeeds exactly when endpoint and key are set and non-empty. Otherwise the endpoint's error comes before the key's. Every other field is its variable or its default. |
| Provider.DefaultsWhenUnset | backend/app/openai_provider.py:45-61 | With the optional variables unset, the configuration has the documented API versions and deployment names. |
| Provider.ModelTable | backend/app/openai_provider.py:78-87 | Exactly five model names: the two gpt-4 names map to the chat deployment, gpt-4o-mini to the mini deployment, and the two embedding names to the embedding deployment. Every entry is a configured deployment. |
| Provider.Registry.constructor | backend/app/openai_provider.py:74-75 | The table starts empty. |
| Provider.Registry.InitializeModelMapping | backend/app/openai_provider.py:78-87 | Replaces the whole table with the one built from the configuration. |
| Provider.Registry.GetDeploymentName | backend/app/openai_provider.py:90-96 | Succeeds exactly for a name in the table or one of the three deployments. The table wins, a deployment name resolves to itself, and anything else raises ValueError("Unknown model name: ..."). |
| Provider.ResolvesToConfiguredDeployment | backend/app/openai_provider.py:90-96 | After initialisation, resolution succeeds exactly for the five model names and the three deployments, and always yields a configured deployment. |
| Provider.TableBeforeIdentity | backend/app/openai_provider.py:92-95 | Every model name that is also a configured deployment resolves through the table, not to itself. |
| Provider.MiniNamedAfterModel | backend/app/openai_provider.py:82-94 | With the mini deployment named "gpt-4o", "gpt-4o" still resolves to the main chat deployment. |
| Provider.UninitialisedIdentityOnly | backend/app/openai_provider.py:90-96 | Before initialisation, only the identity fallback applies. |
| Provider.ConnectionStatus | backend/app/openai_provider.py:184-189 | "healthy" exactly when both probes are fine, and each component is "ok" or "failed" on its own. |
| Provider.ValidateAzureConnection | backend/app/openai_provider.py:168-192 | An exception from either probe is re-raised, and the embedding probe is skipped after a chat failure. Otherwise the dictionary is the connection status of the two probes: healthy exactly when the chat content is not null and the embedding is non-empty, with each component "ok" or "failed". |

## Left out

- The OpenAI client objects and their creation (backend/app/openai_provider.py:114-147) are left out, as is the module-level initialisation (150-165). The HTTP requests themselves become the `upstream` function and the probe outcomes.
- `asyncio.sleep` is left out, and so are the coroutine scheduling, logging and `log_configuration`. Sleeps are recorded, not performed. A single decorated run records its count of sleeps, whose durations are `Delays(count)`. In the nested call, `innerSleeps` is the total count over the inner runs, and each inner run's sleeps last `Delays` of that run's own count, summed by `InnerSleepSeconds`.
- Delays are natural numbers of seconds. The source's `INITIAL_BACKOFF` and `BACKOFF_MULTIPLIER` are the floats 1.0 and 2.0, whose products are exact for these values.
- The backoff has no ceiling and no jitter. Each delay exactly doubles the previous one, and a sleep also follows the last failed attempt before the raise. An exhausted call raises only the last exception, with no attempt count attached.
- Retries.Retry: requires at least one attempt. The zero-attempt case (`raise None`, a TypeError) is modelled only in `Retries.WithRetry`. Every decorator in the service uses the default of three.
- NestedRetries.Nested: fixed at the default of three attempts for both decorators, which is what `chat_completion_json` uses.
- `json.loads` is a parameter `parse`, so JSON syntax is not modelled.
- The `generate_embedding` and `generate_embeddings_batch` functions (backend/app/ai_service.py:90-123) are not part of this model.
- The `get_chat_deployment`-style accessors (backend/app/openai_provider.py:99-111) are not modelled separately. They read the configuration's fields directly.
- The Python default values of the optional parameters of `chat_completion` and `chat_completion_json` are not modelled, since every call's arguments are explicit parameters.
- OpenAI's exception hierarchy (`RateLimitError` and `APITimeoutError` are subclasses of other caught classes) is flattened into one error kind per `except` clause. That matches the order in which the clauses are tried.
- Messages are `(role, content)` pairs, and other message fields are not modelled.
- Temperatures are `real` and are passed through unchanged.
