/**
 * The chat helpers of the AI service: `chat_completion` and `chat_completion_json`
 * (both decorated with `with_retry()`) and `quick_analysis` (not decorated).
 *
 * The upstream API is `upstream(kwargs, i)`: the outcome of the i-th call (0-based)
 * to `chat.completions.create` with these keyword arguments that this request
 * observes (calls made for other concurrent requests are not counted); a success carries the first choice's message content, absent when the
 * API returned null. A decorated call that starts when `start` upstream calls have
 * been made uses the indices `start`, `start + 1`, and so on, so the nested retries of
 * `chat_completion_json` consume consecutive indices.
 */
module AiService {
  import opened Wrappers
  import opened Errors
  import opened Retries
  import opened NestedRetries
  import opened Provider

  /** One chat message. */
  datatype Message = Message(role: string, content: string)

  /** A keyword-argument value passed to `chat.completions.create`. */
  datatype Arg =
    | Str(s: string)
    | Messages(messages: seq<Message>)
    | Real(x: real)
    | Int(n: int)
    | Dict(d: map<string, string>)

  type Kwargs = map<string, Arg>

  type Upstream = (Kwargs, nat) -> Outcome<Option<string>>

  /** The parameters of `chat_completion`; temperatures are passed through unchanged. */
  datatype ChatRequest = ChatRequest(
    messages: seq<Message>,
    model: Option<string>,
    temperature: real,
    maxTokens: int,
    responseFormat: Option<map<string, string>>)

  /** What `json.loads` makes of a text: a value, or a decode error with its detail. */
  datatype Parsed<J> = Parsed(value: J) | DecodeError(detail: string)

  const INVALID_JSON := "Invalid JSON response from model: "
  const JSON_OBJECT_FORMAT: map<string, string> := map["type" := "json_object"]

  /** Python's `s or default` on an optional string: `None` and "" both give the default. */
  function OrDefault(s: Option<string>, default: string): string {
    if s.Some? && s.value != "" then s.value else default
  }

  /** Python's truth value of an optional dictionary. */
  predicate Truthy(d: Option<map<string, string>>) {
    d.Some? && |d.value| > 0
  }

  /**
   * The keyword arguments `chat_completion` sends: the deployment (the main chat
   * deployment when no model, or an empty one, is given), the messages, temperature
   * and token limit, and `response_format` only when one is given and non-empty.
   */
  function ChatKwargs(config: Config, req: ChatRequest): (kwargs: Kwargs)
    ensures kwargs.Keys == {"model", "messages", "temperature", "max_tokens"}
                           + (if Truthy(req.responseFormat) then {"response_format"} else {})
    ensures kwargs["model"] == Str(config.deploymentChat) <==>
              req.model == None || req.model == Some("") || req.model == Some(config.deploymentChat)
    ensures req.model.Some? && req.model.value != "" ==> kwargs["model"] == Str(req.model.value)
    ensures kwargs["messages"] == Messages(req.messages)
    ensures kwargs["temperature"] == Real(req.temperature)
    ensures kwargs["max_tokens"] == Int(req.maxTokens)
    ensures "response_format" in kwargs ==> kwargs["response_format"] == Dict(req.responseFormat.value)
  {
    var deployment := OrDefault(req.model, config.deploymentChat);
    var kwargs := map[
      "model" := Str(deployment),
      "messages" := Messages(req.messages),
      "temperature" := Real(req.temperature),
      "max_tokens" := Int(req.maxTokens)];
    if Truthy(req.responseFormat) then kwargs["response_format" := Dict(req.responseFormat.value)]
    else kwargs
  }

  /** The body of `chat_completion`, run once as upstream call `i`: the reply's content,
      or "" when it is null. */
  function ChatAttempt(upstream: Upstream, kwargs: Kwargs, i: nat): (r: Outcome<string>)
    ensures r.Success? <==> upstream(kwargs, i).Success?
    ensures r.Success? ==> r.value == upstream(kwargs, i).value.GetOr("")
    ensures r.Failure? ==> r.error == upstream(kwargs, i).error
    ensures Retryable(r) == Retryable(upstream(kwargs, i))
  {
    match upstream(kwargs, i)
    case Success(content) => Success(content.GetOr(""))
    case Failure(e) => Failure(e)
  }

  /** The wrapped body of `chat_completion` as the decorator sees it: invocation `i`
      makes upstream call `i`. */
  function ChatBody(upstream: Upstream, kwargs: Kwargs): nat -> Outcome<string> {
    (i: nat) => ChatAttempt(upstream, kwargs, i)
  }

  /**
   * `chat_completion(...)` started after `start` upstream calls: the retry decorator
   * around one upstream call per attempt, every attempt with the same arguments. What
   * it returns or raises is the last upstream reply (its content, "" for null) or
   * error, and it stops before three calls only on a reply or an error not retried.
   */
  function ChatCompletion(config: Config, upstream: Upstream, start: nat, req: ChatRequest): (run: Run<string>)
    ensures 1 <= run.calls <= MAX_RETRIES
    ensures run.result == ChatAttempt(upstream, ChatKwargs(config, req), start + run.calls - 1)
    ensures run.calls < MAX_RETRIES ==> !Retryable(run.result)
    ensures IsRunOf(MAX_RETRIES, ChatBody(upstream, ChatKwargs(config, req)), start, run)
  {
    Retry(MAX_RETRIES, ChatBody(upstream, ChatKwargs(config, req)), start)
  }

  /** A null reply content on the first attempt is returned as "". */
  lemma NullContentIsEmpty(config: Config, upstream: Upstream, start: nat, req: ChatRequest)
    requires upstream(ChatKwargs(config, req), start) == Success(None)
    ensures ChatCompletion(config, upstream, start, req) == Run(Success(""), 1, 0)
  {
    var body := ChatBody(upstream, ChatKwargs(config, req));
    assert body(start) == ChatAttempt(upstream, ChatKwargs(config, req), start);
    FirstSuccessReturned(MAX_RETRIES, body, start, 0);
  }

  /**
   * Two rate limits and then a reply "ok": `chat_completion` returns "ok" from its
   * third upstream call, after sleeping 1 and then 2 seconds.
   */
  lemma RateLimitedTwiceThenOk(config: Config, upstream: Upstream, start: nat, req: ChatRequest)
    requires upstream(ChatKwargs(config, req), start) == Failure(RateLimit)
    requires upstream(ChatKwargs(config, req), start + 1) == Failure(RateLimit)
    requires upstream(ChatKwargs(config, req), start + 2) == Success(Some("ok"))
    ensures ChatCompletion(config, upstream, start, req) == Run(Success("ok"), 3, 2)
    ensures Delays(ChatCompletion(config, upstream, start, req).sleeps) == [1, 2]
  {
    var body := ChatBody(upstream, ChatKwargs(config, req));
    assert body(start) == ChatAttempt(upstream, ChatKwargs(config, req), start);
    assert body(start + 1) == ChatAttempt(upstream, ChatKwargs(config, req), start + 1);
    assert body(start + 2) == ChatAttempt(upstream, ChatKwargs(config, req), start + 2);
    FirstSuccessReturned(MAX_RETRIES, body, start, 2);
  }

  /** What `chat_completion` returns is the content of its last upstream call's reply,
      "" when that content is null. */
  lemma ReplyIsLastContent(config: Config, upstream: Upstream, start: nat, req: ChatRequest)
    requires ChatCompletion(config, upstream, start, req).result.Success?
    ensures var run := ChatCompletion(config, upstream, start, req);
            var reply := upstream(ChatKwargs(config, req), start + run.calls - 1);
            reply.Success? && run.result.value == reply.value.GetOr("")
  {
  }

  /**
   * Upstream failures that are all retried exhaust `chat_completion`: three upstream
   * calls, three sleeps (of 1, 2 and 4 seconds), and the third call's error is raised.
   */
  lemma ChatCompletionExhausted(config: Config, upstream: Upstream, start: nat, req: ChatRequest)
    requires forall i :: start <= i < start + MAX_RETRIES ==> Retryable(upstream(ChatKwargs(config, req), i))
    ensures var last := upstream(ChatKwargs(config, req), start + 2);
            last.Failure? && ChatCompletion(config, upstream, start, req) == Run(Failure(last.error), 3, 3)
  {
    var body := ChatBody(upstream, ChatKwargs(config, req));
    forall i | start <= i < start + MAX_RETRIES
      ensures Retryable(body(i))
    {
      assert body(i) == ChatAttempt(upstream, ChatKwargs(config, req), i);
    }
    ExhaustedRaisesLast(MAX_RETRIES, body, start);
  }

  /** The request `chat_completion_json` passes to `chat_completion`. */
  function JsonRequest(messages: seq<Message>, model: Option<string>, temperature: real, maxTokens: int): (req: ChatRequest)
    ensures Truthy(req.responseFormat) && req.responseFormat.value == map["type" := "json_object"]
    ensures req.messages == messages && req.model == model
    ensures req.temperature == temperature && req.maxTokens == maxTokens
  {
    ChatRequest(messages, model, temperature, maxTokens, Some(JSON_OBJECT_FORMAT))
  }

  /** `chat_completion_json` always asks for a JSON object and otherwise passes its
      arguments through. */
  lemma JsonRequestAsksForObject(config: Config, messages: seq<Message>, model: Option<string>, temperature: real, maxTokens: int)
    ensures var kwargs := ChatKwargs(config, JsonRequest(messages, model, temperature, maxTokens));
            && kwargs.Keys == {"model", "messages", "temperature", "max_tokens", "response_format"}
            && kwargs["response_format"] == Dict(map["type" := "json_object"])
            && kwargs["messages"] == Messages(messages)
            && kwargs["temperature"] == Real(temperature)
            && kwargs["max_tokens"] == Int(maxTokens)
  {
    assert "type" in JSON_OBJECT_FORMAT;
  }

  /** What the body of `chat_completion_json` makes of what `chat_completion` returned
      or raised: the parsed reply, a ValueError when it is not JSON, or the exception. */
  function Decode<J>(parse: string -> Parsed<J>, inner: Outcome<string>): (r: Outcome<J>)
    ensures r.Success? <==> inner.Success? && parse(inner.value).Parsed?
    ensures r.Success? ==> r.value == parse(inner.value).value
    ensures inner.Failure? ==> r == Failure(inner.error)
    ensures inner.Success? && r.Failure? ==> r.error == ValueError(INVALID_JSON + parse(inner.value).detail)
    ensures Retryable(r) == Retryable(inner)
  {
    match inner
    case Failure(e) => Failure(e)
    case Success(content) =>
      match parse(content)
      case Parsed(v) => Success(v)
      case DecodeError(detail) => Failure(ValueError(INVALID_JSON + detail))
  }

  function DecodeWith<J>(parse: string -> Parsed<J>): Outcome<string> -> Outcome<J> {
    (inner: Outcome<string>) => Decode(parse, inner)
  }

  /**
   * `chat_completion_json(...)` started after `start` upstream calls: the retry
   * decorator around a body that runs the decorated `chat_completion` and decodes its
   * reply, so every outer attempt makes one to three upstream calls.
   */
  function ChatCompletionJson<J(==)>(config: Config, upstream: Upstream, parse: string -> Parsed<J>, start: nat,
                                     messages: seq<Message>, model: Option<string>, temperature: real, maxTokens: int)
    : (r: NestedRun<J>)
    ensures IsRunOf(MAX_RETRIES, Outer(ChatBody(upstream, ChatKwargs(config, JsonRequest(messages, model, temperature, maxTokens))),
                                       DecodeWith(parse), start), 0, r.run)
    ensures 1 <= r.run.calls <= MAX_RETRIES
    ensures r.run.calls <= r.calls <= 3 * r.run.calls
  {
    var kwargs := ChatKwargs(config, JsonRequest(messages, model, temperature, maxTokens));
    Nested(ChatBody(upstream, kwargs), DecodeWith(parse), start)
  }

  /** A reply that is not JSON becomes a ValueError that names the decoder's complaint,
      an exception the decorator does not retry. */
  lemma DecodeErrorRaises<J>(parse: string -> Parsed<J>, inner: Outcome<string>)
    requires inner.Success? && parse(inner.value).DecodeError?
    ensures DecodeWith(parse)(inner) == Failure(ValueError(INVALID_JSON + parse(inner.value).detail))
    ensures !Retryable(DecodeWith(parse)(inner))
  {
  }

  /** `chat_completion_json`'s body lets an exception of `chat_completion` through. */
  lemma DecodePassesErrors<J>(parse: string -> Parsed<J>)
    ensures PassesErrors(DecodeWith(parse))
  {
    forall e
      ensures DecodeWith(parse)(Failure(e)) == Failure(e)
    {
    }
  }

  /** A retried upstream error is a retried error of `chat_completion`'s body. */
  lemma ChatBodyRetryable(upstream: Upstream, kwargs: Kwargs, start: nat)
    requires forall i :: start <= i < start + 9 ==> Retryable(upstream(kwargs, i))
    ensures AllRetryable(ChatBody(upstream, kwargs), start)
  {
    var body := ChatBody(upstream, kwargs);
    forall i | start <= i < start + 9
      ensures Retryable(body(i))
    {
      assert body(i) == ChatAttempt(upstream, kwargs, i);
    }
  }

  /**
   * When every upstream call fails with a retried error, `chat_completion_json` makes
   * exactly nine upstream calls: three outer attempts, each an exhausted
   * `chat_completion` that sleeps three times, three outer sleeps, and it raises the
   * ninth call's error.
   */
  lemma JsonAllTransientNineCalls<J>(config: Config, upstream: Upstream, parse: string -> Parsed<J>, start: nat,
                                     messages: seq<Message>, model: Option<string>, temperature: real, maxTokens: int)
    requires forall i :: start <= i < start + 9 ==>
               Retryable(upstream(ChatKwargs(config, JsonRequest(messages, model, temperature, maxTokens)), i))
    ensures var last := upstream(ChatKwargs(config, JsonRequest(messages, model, temperature, maxTokens)), start + 8);
            last.Failure? &&
            ChatCompletionJson(config, upstream, parse, start, messages, model, temperature, maxTokens)
            == NestedRun(Run(Failure(last.error), 3, 3), 9, 9)
  {
    var kwargs := ChatKwargs(config, JsonRequest(messages, model, temperature, maxTokens));
    var body := ChatBody(upstream, kwargs);
    ChatBodyRetryable(upstream, kwargs, start);
    DecodePassesErrors(parse);
    NestedExhausted(body, DecodeWith(parse), start);
    assert body(start + 8) == ChatAttempt(upstream, kwargs, start + 8);
  }

  /**
   * A reply that is not JSON raises ValueError from the first outer attempt: no outer
   * retry, no outer sleep, and no upstream call or sleep beyond those of that first
   * `chat_completion`.
   */
  lemma JsonDecodeErrorNotRetried<J>(config: Config, upstream: Upstream, parse: string -> Parsed<J>, start: nat,
                                     messages: seq<Message>, model: Option<string>, temperature: real, maxTokens: int)
    requires ChatCompletion(config, upstream, start, JsonRequest(messages, model, temperature, maxTokens)).result.Success?
    requires parse(ChatCompletion(config, upstream, start, JsonRequest(messages, model, temperature, maxTokens)).result.value).DecodeError?
    ensures var inner := ChatCompletion(config, upstream, start, JsonRequest(messages, model, temperature, maxTokens));
            var detail := parse(inner.result.value).detail;
            ChatCompletionJson(config, upstream, parse, start, messages, model, temperature, maxTokens)
            == NestedRun(Run(Failure(ValueError(INVALID_JSON + detail)), 1, 0), inner.calls, inner.sleeps)
  {
    var kwargs := ChatKwargs(config, JsonRequest(messages, model, temperature, maxTokens));
    var body := ChatBody(upstream, kwargs);
    var inner := Retry(MAX_RETRIES, body, start);
    DecodeErrorRaises(parse, inner.result);
    FirstOuterStops(body, DecodeWith(parse), start);
  }

  /** A reply that parses is returned as the parsed value after the first outer attempt,
      with no upstream call beyond those of that first `chat_completion`. */
  lemma JsonParsedReturned<J>(config: Config, upstream: Upstream, parse: string -> Parsed<J>, start: nat,
                              messages: seq<Message>, model: Option<string>, temperature: real, maxTokens: int)
    requires ChatCompletion(config, upstream, start, JsonRequest(messages, model, temperature, maxTokens)).result.Success?
    requires parse(ChatCompletion(config, upstream, start, JsonRequest(messages, model, temperature, maxTokens)).result.value).Parsed?
    ensures var inner := ChatCompletion(config, upstream, start, JsonRequest(messages, model, temperature, maxTokens));
            ChatCompletionJson(config, upstream, parse, start, messages, model, temperature, maxTokens)
            == NestedRun(Run(Success(parse(inner.result.value).value), 1, 0), inner.calls, inner.sleeps)
  {
    var kwargs := ChatKwargs(config, JsonRequest(messages, model, temperature, maxTokens));
    var body := ChatBody(upstream, kwargs);
    var inner := Retry(MAX_RETRIES, body, start);
    assert DecodeWith(parse)(inner.result) == Success(parse(inner.result.value).value);
    FirstOuterStops(body, DecodeWith(parse), start);
  }

  /** Where outer attempt `j` of `chat_completion_json` starts among the upstream calls. */
  function JsonCursor(config: Config, upstream: Upstream, start: nat, req: ChatRequest, j: nat): (c: nat)
    ensures start + j <= c <= start + 3 * j
  {
    Cursor(ChatBody(upstream, ChatKwargs(config, req)), start, j)
  }

  /** Outer attempt `k` of `chat_completion_json` runs `chat_completion` from where the
      earlier attempts left off, and is retried exactly when that run's outcome is. */
  lemma JsonAttemptRetried<J>(config: Config, upstream: Upstream, parse: string -> Parsed<J>, start: nat, req: ChatRequest, k: nat)
    ensures var g := Outer(ChatBody(upstream, ChatKwargs(config, req)), DecodeWith(parse), start);
            g(k) == Decode(parse, ChatCompletion(config, upstream, JsonCursor(config, upstream, start, req, k), req).result)
            && (Retryable(g(k)) <==> Retryable(ChatCompletion(config, upstream, JsonCursor(config, upstream, start, req, k), req).result))
  {
  }

  /**
   * A reply that is not JSON raises ValueError from whichever outer attempt `j` it comes
   * in, once the earlier outer attempts were retried: `j + 1` outer attempts, `j` outer
   * sleeps, and no upstream call beyond those of the `j + 1` runs of `chat_completion`.
   */
  lemma JsonDecodeErrorAt<J>(config: Config, upstream: Upstream, parse: string -> Parsed<J>, start: nat,
                             messages: seq<Message>, model: Option<string>, temperature: real, maxTokens: int, j: nat)
    requires j < MAX_RETRIES
    requires forall k :: 0 <= k < j ==>
               Retryable(ChatCompletion(config, upstream, JsonCursor(config, upstream, start, JsonRequest(messages, model, temperature, maxTokens), k),
                                        JsonRequest(messages, model, temperature, maxTokens)).result)
    requires var req := JsonRequest(messages, model, temperature, maxTokens);
             var inner := ChatCompletion(config, upstream, JsonCursor(config, upstream, start, req, j), req);
             inner.result.Success? && parse(inner.result.value).DecodeError?
    ensures var req := JsonRequest(messages, model, temperature, maxTokens);
            var inner := ChatCompletion(config, upstream, JsonCursor(config, upstream, start, req, j), req);
            var body := ChatBody(upstream, ChatKwargs(config, req));
            ChatCompletionJson(config, upstream, parse, start, messages, model, temperature, maxTokens)
            == NestedRun(Run(Failure(ValueError(INVALID_JSON + parse(inner.result.value).detail)), j + 1, j),
                         JsonCursor(config, upstream, start, req, j + 1) - start, InnerSleeps(body, start, j + 1))
  {
    var req := JsonRequest(messages, model, temperature, maxTokens);
    var body := ChatBody(upstream, ChatKwargs(config, req));
    forall k | 0 <= k < j
      ensures Retryable(Outer(body, DecodeWith(parse), start)(k))
    {
      JsonAttemptRetried(config, upstream, parse, start, req, k);
    }
    JsonAttemptRetried(config, upstream, parse, start, req, j);
    OuterStopsAt(body, DecodeWith(parse), start, j);
  }

  /**
   * A reply that parses is returned from whichever outer attempt `j` it comes in, once
   * the earlier outer attempts were retried: `j + 1` outer attempts and `j` outer sleeps.
   */
  lemma JsonParsedAt<J>(config: Config, upstream: Upstream, parse: string -> Parsed<J>, start: nat,
                        messages: seq<Message>, model: Option<string>, temperature: real, maxTokens: int, j: nat)
    requires j < MAX_RETRIES
    requires forall k :: 0 <= k < j ==>
               Retryable(ChatCompletion(config, upstream, JsonCursor(config, upstream, start, JsonRequest(messages, model, temperature, maxTokens), k),
                                        JsonRequest(messages, model, temperature, maxTokens)).result)
    requires var req := JsonRequest(messages, model, temperature, maxTokens);
             var inner := ChatCompletion(config, upstream, JsonCursor(config, upstream, start, req, j), req);
             inner.result.Success? && parse(inner.result.value).Parsed?
    ensures var req := JsonRequest(messages, model, temperature, maxTokens);
            var inner := ChatCompletion(config, upstream, JsonCursor(config, upstream, start, req, j), req);
            var body := ChatBody(upstream, ChatKwargs(config, req));
            ChatCompletionJson(config, upstream, parse, start, messages, model, temperature, maxTokens)
            == NestedRun(Run(Success(parse(inner.result.value).value), j + 1, j),
                         JsonCursor(config, upstream, start, req, j + 1) - start, InnerSleeps(body, start, j + 1))
  {
    var req := JsonRequest(messages, model, temperature, maxTokens);
    var body := ChatBody(upstream, ChatKwargs(config, req));
    forall k | 0 <= k < j
      ensures Retryable(Outer(body, DecodeWith(parse), start)(k))
    {
      JsonAttemptRetried(config, upstream, parse, start, req, k);
    }
    JsonAttemptRetried(config, upstream, parse, start, req, j);
    OuterStopsAt(body, DecodeWith(parse), start, j);
  }

  /**
   * Three timeouts and then a reply that is not JSON: the first `chat_completion` is
   * exhausted and retried by the outer decorator after one outer sleep, the second
   * gets the reply, and ValueError is raised after four upstream calls, three sleeps
   * inside `chat_completion` and one outer sleep, with no further call.
   */
  lemma JsonTimeoutsThenDecodeError<J>(config: Config, upstream: Upstream, parse: string -> Parsed<J>, start: nat,
                                       messages: seq<Message>, model: Option<string>, temperature: real, maxTokens: int,
                                       text: string)
    requires var kwargs := ChatKwargs(config, JsonRequest(messages, model, temperature, maxTokens));
             && upstream(kwargs, start) == Failure(Timeout)
             && upstream(kwargs, start + 1) == Failure(Timeout)
             && upstream(kwargs, start + 2) == Failure(Timeout)
             && upstream(kwargs, start + 3) == Success(Some(text))
    requires parse(text).DecodeError?
    ensures ChatCompletionJson(config, upstream, parse, start, messages, model, temperature, maxTokens)
            == NestedRun(Run(Failure(ValueError(INVALID_JSON + parse(text).detail)), 2, 1), 4, 3)
  {
    var req := JsonRequest(messages, model, temperature, maxTokens);
    var kwargs := ChatKwargs(config, req);
    var body := ChatBody(upstream, kwargs);
    TimeoutsThenReply(upstream, kwargs, start, text);
    assert ChatCompletion(config, upstream, JsonCursor(config, upstream, start, req, 0), req).result == Failure(Timeout);
    assert ChatCompletion(config, upstream, JsonCursor(config, upstream, start, req, 1), req).result == Success(text);
    JsonDecodeErrorAt(config, upstream, parse, start, messages, model, temperature, maxTokens, 1);
  }

  /** Three timeouts and then a reply: the first `chat_completion` run is exhausted
      after three calls and sleeps, the second returns the reply after one call. */
  lemma TimeoutsThenReply(upstream: Upstream, kwargs: Kwargs, start: nat, text: string)
    requires upstream(kwargs, start) == Failure(Timeout)
    requires upstream(kwargs, start + 1) == Failure(Timeout)
    requires upstream(kwargs, start + 2) == Failure(Timeout)
    requires upstream(kwargs, start + 3) == Success(Some(text))
    ensures var body := ChatBody(upstream, kwargs);
            && Cursor(body, start, 0) == start && Cursor(body, start, 1) == start + 3 && Cursor(body, start, 2) == start + 4
            && InnerSleeps(body, start, 2) == 3
            && Retry(MAX_RETRIES, body, start) == Run(Failure(Timeout), 3, 3)
            && Retry(MAX_RETRIES, body, start + 3) == Run(Success(text), 1, 0)
  {
    var body := ChatBody(upstream, kwargs);
    assert body(start) == ChatAttempt(upstream, kwargs, start);
    assert body(start + 1) == ChatAttempt(upstream, kwargs, start + 1);
    assert body(start + 2) == ChatAttempt(upstream, kwargs, start + 2);
    assert body(start + 3) == ChatAttempt(upstream, kwargs, start + 3);
    ExhaustedRaisesLast(MAX_RETRIES, body, start);
    FirstSuccessReturned(MAX_RETRIES, body, start + 3, 0);
    assert Cursor(body, start, 1) == start + 3;
    assert InnerSleeps(body, start, 1) == 3;
  }

  /** The request `quick_analysis` passes to `chat_completion`. */
  function QuickAnalysisRequest(config: Config, text: string, prompt: string, model: Option<string>): (req: ChatRequest)
    ensures req.messages == [Message("system", prompt), Message("user", text)]
    ensures req.model == Some(if model.Some? && model.value != "" then model.value else config.deploymentChatMini)
    ensures req.temperature == 0.3 && req.maxTokens == 500
    ensures !Truthy(req.responseFormat)
  {
    ChatRequest([Message("system", prompt), Message("user", text)],
                Some(OrDefault(model, config.deploymentChatMini)), 0.3, 500, None)
  }

  /** `quick_analysis(...)` started after `start` upstream calls. It is not decorated
      itself, so only `chat_completion`'s own retries apply. */
  function QuickAnalysis(config: Config, upstream: Upstream, start: nat, text: string, prompt: string, model: Option<string>)
    : (run: Run<string>)
    ensures IsRunOf(MAX_RETRIES, ChatBody(upstream, ChatKwargs(config, QuickAnalysisRequest(config, text, prompt, model))), start, run)
    ensures 1 <= run.calls <= MAX_RETRIES
  {
    ChatCompletion(config, upstream, start, QuickAnalysisRequest(config, text, prompt, model))
  }

  /**
   * `quick_analysis` sends exactly a system message with the prompt and a user message
   * with the text, temperature 0.3, at most 500 tokens, no response format, and the mini
   * deployment unless a non-empty model is given.
   */
  lemma QuickAnalysisSends(config: Config, text: string, prompt: string, model: Option<string>)
    requires config.deploymentChatMini != ""
    ensures ChatKwargs(config, QuickAnalysisRequest(config, text, prompt, model))
            == map["model" := Str(if model.Some? && model.value != "" then model.value else config.deploymentChatMini),
                   "messages" := Messages([Message("system", prompt), Message("user", text)]),
                   "temperature" := Real(0.3),
                   "max_tokens" := Int(500)]
  {
  }

  /**
   * With the mini deployment configured as "" and no model given, `quick_analysis` ends
   * up on the main chat deployment: its own `or` yields "", and `chat_completion`'s
   * `or` then falls back to the chat deployment.
   */
  lemma QuickAnalysisEmptyMiniUsesChat(config: Config, text: string, prompt: string)
    requires config.deploymentChatMini == ""
    ensures ChatKwargs(config, QuickAnalysisRequest(config, text, prompt, None))["model"] == Str(config.deploymentChat)
  {
  }
}
