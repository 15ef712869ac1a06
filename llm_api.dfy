/** The LLM endpoints (backend/app/api/llm.py): the configuration check, the
    REST `complete` endpoint, and the WebSocket `stream` session loop.
    The socket is modelled as the sequence of events its receive call returns
    and the sequence of JSON messages sent on it; the provider's stream is an
    oracle answering the `llm_stream` call made for the connection's i-th
    received message. */
module LlmApi {
  import opened Common
  import opened Config
  import opened Llm

  const NotConfiguredDetail := "No LLM provider configured. Set AZURE_OPENAI_API_KEY + AZURE_OPENAI_ENDPOINT for Azure OpenAI, or OPENAI_API_KEY for OpenAI in your .env file."
  const PromptRequired := "prompt is required"
  const DefaultTemperature: real := 0.7
  const DefaultMaxTokens: int := 1000

  /** `_check_llm_configured`: passes exactly when the Azure OpenAI key or the
      OpenAI key is non-empty, and otherwise raises 503 with the remediation text. */
  function CheckLlmConfigured(settings: Settings): (r: Result<()>)
    reads settings
    ensures r.Ok? <==> Truthy(settings.azureOpenaiApiKey) || Truthy(settings.openaiApiKey)
    ensures r.Raise? ==> r.error == HttpError(503, NotConfiguredDetail)
  {
    var hasKey := if Truthy(settings.azureOpenaiApiKey) then settings.azureOpenaiApiKey else settings.openaiApiKey;
    if !Truthy(hasKey) then Raise(HttpError(503, NotConfiguredDetail)) else Ok(())
  }

  /** A received JSON object, field by field. */
  datatype Envelope = Envelope(
    prompt: Field<string>,
    systemPrompt: Field<string>,
    model: Field<string>,
    temperature: Field<real>,
    maxTokens: Field<int>)

  /** `CompletionRequest` */
  datatype CompletionRequest = CompletionRequest(
    prompt: string,
    model: Option<string>,
    systemPrompt: Option<string>,
    temperature: real,
    maxTokens: int)

  /** Validation of a REST body into a `CompletionRequest`: `prompt` must be a
      string (the empty string is accepted), `model` and `system_prompt` may be
      missing or null, and `temperature` and `max_tokens` default to 0.7 and
      1000 when missing and are refused when null. `None` is the refusal. */
  function ParseCompletionRequest(body: Envelope): (r: Option<CompletionRequest>)
    ensures r.Some? <==> body.prompt.Given? && !body.temperature.Null? && !body.maxTokens.Null?
    ensures r.Some? ==> r.value.prompt == body.prompt.value
    ensures r.Some? ==> r.value.model == Get(body.model, None)
    ensures r.Some? ==> r.value.systemPrompt == Get(body.systemPrompt, None)
    ensures r.Some? && body.temperature.Absent? ==> r.value.temperature == 0.7
    ensures r.Some? && body.temperature.Given? ==> r.value.temperature == body.temperature.value
    ensures r.Some? && body.maxTokens.Absent? ==> r.value.maxTokens == 1000
    ensures r.Some? && body.maxTokens.Given? ==> r.value.maxTokens == body.maxTokens.value
  {
    match (body.prompt, Get(body.temperature, Some(DefaultTemperature)), Get(body.maxTokens, Some(DefaultMaxTokens)))
    case (Given(prompt), Some(temperature), Some(maxTokens)) =>
      Some(CompletionRequest(prompt, Get(body.model, None), Get(body.systemPrompt, None), temperature, maxTokens))
    case _ => None
  }

  /** The arguments `complete` passes to `llm_complete`. */
  function RequestArgs(request: CompletionRequest): CompletionArgs
  {
    CompletionArgs(request.prompt, request.model, request.systemPrompt,
                   Some(request.temperature), Some(request.maxTokens))
  }

  /** `CompletionResponse` */
  datatype CompletionResponse = CompletionResponse(content: string, model: string)

  /** `complete`: refused with 503 before any provider call when no provider
      key is configured; otherwise the provider's answer to the request,
      reported under the request's model if non-empty and the configured
      `llm_model` otherwise. A provider exception propagates. */
  function Complete(settings: Settings, llm: LlmSettings, request: CompletionRequest,
                    provider: ProviderCall -> Completion): (r: Result<CompletionResponse>)
    reads settings
    ensures CheckLlmConfigured(settings).Raise? ==> r == Raise(HttpError(503, NotConfiguredDetail))
    ensures r.Ok? <==>
      CheckLlmConfigured(settings).Ok? && provider(MakeProviderCall(RequestArgs(request), llm, false)).Completed?
    ensures r.Ok? ==> provider(MakeProviderCall(RequestArgs(request), llm, false)) == Completed(r.value.content)
    ensures CheckLlmConfigured(settings).Ok? && provider(MakeProviderCall(RequestArgs(request), llm, false)).Failed? ==>
      r == Raise(Exception(provider(MakeProviderCall(RequestArgs(request), llm, false)).message))
    ensures r.Ok? && Truthy(request.model) ==> r.value.model == request.model.value
    ensures r.Ok? && !Truthy(request.model) ==> r.value.model == settings.llmModel
  {
    match CheckLlmConfigured(settings)
    case Raise(e) => Raise(e)
    case Ok(_) =>
      match LlmComplete(RequestArgs(request), llm, provider)
      case Raise(e) => Raise(e)
      case Ok(content) => Ok(CompletionResponse(content, Or(request.model, settings.llmModel)))
  }

  // ----- The WebSocket session

  /** What a receive on the socket returns: a JSON object, or the disconnect
      that `receive_json` raises. */
  datatype Inbound = Receive(data: Envelope) | Disconnect

  /** `{"chunk": text}`, `{"done": true}` or `{"error": detail}` */
  datatype Outbound = Chunk(text: string) | Done | Error(detail: string)

  predicate IsTerminal(o: Outbound)
  {
    !o.Chunk?
  }

  /** The streaming provider: the raw stream it produces for the
      `llm_stream` call made while handling the connection's i-th received
      message (counting from 0), made with the given arguments, that is, for
      the provider call `MakeProviderCall(args, llm, true)`. */
  type StreamOracle = (nat, CompletionArgs) -> ProviderStream

  /** The text sent for a caught exception: `e.detail` of an `HTTPException`,
      `str(e)` of any other. */
  function DetailOf(e: Error): string
  {
    match e
    case HttpError(_, detail) => detail
    case Exception(message) => message
  }

  /** `data.get("prompt", "")` */
  function PromptOf(data: Envelope): Option<string>
  {
    Get(data.prompt, Some(""))
  }

  /** How one received message is dispatched: refused with an error detail,
      or passed to `llm_stream` with these arguments. */
  datatype Dispatch = Reject(detail: string) | Invoke(args: CompletionArgs)

  /** The validation steps of the loop body: an empty or missing prompt is
      refused first, then an unconfigured service; otherwise `llm_stream` is
      called with the message's fields, `temperature` and `max_tokens`
      defaulting to 0.7 and 1000 when missing and passed on as `None` when
      explicitly `null`. */
  function Decide(configured: Result<()>, data: Envelope): (d: Dispatch)
    ensures !Truthy(PromptOf(data)) ==> d == Reject(PromptRequired)
    ensures Truthy(PromptOf(data)) && configured.Raise? ==> d == Reject(DetailOf(configured.error))
    ensures d.Invoke? <==> Truthy(PromptOf(data)) && configured.Ok?
    ensures d.Invoke? ==> d.args.prompt == PromptOf(data).value && d.args.prompt != ""
    ensures d.Invoke? ==> d.args.model == Get(data.model, None) && d.args.systemPrompt == Get(data.systemPrompt, None)
    ensures d.Invoke? && data.temperature.Absent? ==> d.args.temperature == Some(0.7)
    ensures d.Invoke? && data.temperature.Null? ==> d.args.temperature == None
    ensures d.Invoke? && data.temperature.Given? ==> d.args.temperature == Some(data.temperature.value)
    ensures d.Invoke? && data.maxTokens.Absent? ==> d.args.maxTokens == Some(1000)
    ensures d.Invoke? && data.maxTokens.Null? ==> d.args.maxTokens == None
    ensures d.Invoke? && data.maxTokens.Given? ==> d.args.maxTokens == Some(data.maxTokens.value)
  {
    var prompt := PromptOf(data);
    if !Truthy(prompt) then Reject(PromptRequired)
    else if configured.Raise? then Reject(DetailOf(configured.error))
    else Invoke(CompletionArgs(prompt.value, Get(data.model, None), Get(data.systemPrompt, None),
                               Get(data.temperature, Some(DefaultTemperature)),
                               Get(data.maxTokens, Some(DefaultMaxTokens))))
  }

  /** The provider call `llm_stream` makes for a dispatched message: a
      streaming call ending with the user's prompt, opened by a system message
      exactly when the message carries a non-empty system prompt, and routed
      for the message's model. */
  lemma StreamCallOf(configured: Result<()>, data: Envelope, llm: LlmSettings)
    requires Decide(configured, data).Invoke?
    ensures var c := MakeProviderCall(Decide(configured, data).args, llm, true);
      c.stream && c.messages[|c.messages| - 1] == Message(User, PromptOf(data).value)
      && (|c.messages| == 2 <==> Truthy(Get(data.systemPrompt, None)))
      && (|c.messages| == 2 ==> c.messages[0] == Message(System, Get(data.systemPrompt, None).value))
      && c.kwargs == GetCompletionKwargs(Get(data.model, None), llm)
  {
  }

  /** One `{"chunk": ...}` message per fragment. */
  function Chunks(fragments: seq<string>): (r: seq<Outbound>)
  {
    seq(|fragments|, i requires 0 <= i < |fragments| => Chunk(fragments[i]))
  }

  /** The messages sent for one dispatched request: a chunk per non-empty
      fragment in arrival order, then exactly one terminal message, `done` if
      the stream ended normally and the exception's text if it failed. */
  function StreamOutput(stream: ProviderStream): (r: seq<Outbound>)
    ensures |r| == |StreamedText(stream.deltas)| + 1
    ensures forall i :: 0 <= i < |r| - 1 ==> r[i] == Chunk(StreamedText(stream.deltas)[i])
    ensures stream.failure.None? ==> r[|r| - 1] == Done
    ensures stream.failure.Some? ==> r[|r| - 1] == Error(stream.failure.value)
  {
    Chunks(StreamedText(stream.deltas))
      + [if stream.failure.Some? then Error(stream.failure.value) else Done]
  }

  /** What a connection has done so far: the messages sent, and the
      arguments of each `llm_stream` call made, in order. */
  datatype Transcript = Transcript(sent: seq<Outbound>, calls: seq<CompletionArgs>)

  const Nothing := Transcript([], [])

  /** One transcript followed by another. */
  function Then(t: Transcript, u: Transcript): Transcript
  {
    Transcript(t.sent + u.sent, t.calls + u.calls)
  }

  /** The output of the connection's i-th received message. Exactly one
      terminal message is sent, last; a refused message sends one error and
      calls nothing. */
  function HandleMessage(configured: Result<()>, data: Envelope, provider: StreamOracle, i: nat): (t: Transcript)
    ensures !Truthy(PromptOf(data)) ==> t == Transcript([Error(PromptRequired)], [])
    ensures Truthy(PromptOf(data)) && configured.Raise? ==>
      t == Transcript([Error(DetailOf(configured.error))], [])
    ensures |t.sent| >= 1 && IsTerminal(t.sent[|t.sent| - 1])
    ensures forall k :: 0 <= k < |t.sent| - 1 ==> t.sent[k].Chunk?
    ensures |t.calls| <= 1
    ensures |t.calls| == 1 <==> Truthy(PromptOf(data)) && configured.Ok?
    ensures |t.calls| == 1 ==> t.calls[0] == Decide(configured, data).args
    ensures |t.calls| == 1 ==> t.sent == StreamOutput(provider(i, t.calls[0]))
  {
    match Decide(configured, data)
    case Reject(detail) => Transcript([Error(detail)], [])
    case Invoke(args) => Transcript(StreamOutput(provider(i, args)), [args])
  }

  lemma ThenAssociative(t: Transcript, u: Transcript, v: Transcript)
    ensures Then(Then(t, u), v) == Then(t, Then(u, v))
  {
    assert (t.sent + u.sent) + v.sent == t.sent + (u.sent + v.sent);
    assert (t.calls + u.calls) + v.calls == t.calls + (u.calls + v.calls);
  }

  /** What a session does with one received message, given its position
      among the connection's received messages. */
  type Handler = (Envelope, nat) -> Transcript

  /** The handler of `stream_completion`'s loop body. */
  function SessionHandler(configured: Result<()>, provider: StreamOracle): Handler
  {
    (data: Envelope, i: nat) => HandleMessage(configured, data, provider, i)
  }

  /** The messages a session handles: those received before the first
      disconnect, in arrival order. */
  function Received(events: seq<Inbound>): (r: seq<Envelope>)
    ensures |r| <= |events|
  {
    if events == [] || events[0].Disconnect? then [] else [events[0].data] + Received(events[1..])
  }

  /** The output of handling `msgs` one after another in order, the first
      being the connection's n-th received message. */
  function Serve(msgs: seq<Envelope>, handle: Handler, n: nat): Transcript
    decreases |msgs|
  {
    if msgs == [] then Nothing
    else Then(Serve(msgs[..|msgs| - 1], handle, n), handle(msgs[|msgs| - 1], n + |msgs| - 1))
  }

  /** A session: the received messages handled one at a time in arrival
      order until a disconnect. */
  function Session(events: seq<Inbound>, handle: Handler): Transcript
  {
    Serve(Received(events), handle, 0)
  }

  /** Handling one more message appends its output. */
  lemma ServeAppend(msgs: seq<Envelope>, data: Envelope, handle: Handler, n: nat)
    ensures Serve(msgs + [data], handle, n) == Then(Serve(msgs, handle, n), handle(data, n + |msgs|))
  {
    var m := msgs + [data];
    assert m[..|m| - 1] == msgs;
    assert m[|m| - 1] == data;
  }

  /** The received messages are exactly the leading `Receive` events, up to
      the end or to a disconnect. */
  lemma {:induction false} ReceivedLeading(events: seq<Inbound>, msgs: seq<Envelope>)
    requires |msgs| <= |events|
    requires forall j :: 0 <= j < |msgs| ==> events[j] == Receive(msgs[j])
    requires |msgs| < |events| ==> events[|msgs|].Disconnect?
    ensures Received(events) == msgs
    decreases |msgs|
  {
    if msgs != [] {
      assert events[0] == Receive(msgs[0]);
      assert forall j :: 0 <= j < |msgs| - 1 ==> events[1..][j] == events[j + 1];
      ReceivedLeading(events[1..], msgs[1..]);
      assert msgs == [msgs[0]] + msgs[1..];
    }
  }

  /** Nothing received after a disconnect is handled. */
  lemma {:induction false} ReceivedStopsAtDisconnect(pre: seq<Inbound>, post: seq<Inbound>)
    ensures Received(pre + [Disconnect] + post) == Received(pre)
    decreases |pre|
  {
    if pre == [] {
      assert pre + [Disconnect] + post == [Disconnect] + post;
    } else if pre[0].Receive? {
      assert (pre + [Disconnect] + post)[1..] == pre[1..] + [Disconnect] + post;
      ReceivedStopsAtDisconnect(pre[1..], post);
    }
  }

  /** A session's output does not depend on what arrives after a disconnect. */
  lemma SessionStopsAtDisconnect(pre: seq<Inbound>, post: seq<Inbound>, handle: Handler)
    ensures Session(pre + [Disconnect] + post, handle) == Session(pre, handle)
  {
    ReceivedStopsAtDisconnect(pre, post);
  }

  /** Handling two runs of messages in sequence: the second run's output
      follows the first's, its messages numbered after the first's. */
  lemma {:induction false} ServeSequential(x: seq<Envelope>, y: seq<Envelope>, handle: Handler, n: nat)
    ensures Serve(x + y, handle, n) == Then(Serve(x, handle, n), Serve(y, handle, n + |x|))
    decreases |y|
  {
    var sx := Serve(x, handle, n);
    if y == [] {
      assert x + y == x;
      assert sx.sent + [] == sx.sent && sx.calls + [] == sx.calls;
    } else {
      var y', d := y[..|y| - 1], y[|y| - 1];
      assert y' + [d] == y;
      var sy' := Serve(y', handle, n + |x|);
      var h := handle(d, n + |x| + |y'|);
      calc {
        Serve(x + y, handle, n);
        { assert x + y == (x + y') + [d]; }
        Serve((x + y') + [d], handle, n);
        { ServeAppend(x + y', d, handle, n); }
        Then(Serve(x + y', handle, n), h);
        { ServeSequential(x, y', handle, n); }
        Then(Then(sx, sy'), h);
        { ThenAssociative(sx, sy', h); }
        Then(sx, Then(sy', h));
        { ServeAppend(y', d, handle, n + |x|); }
        Then(sx, Serve(y, handle, n + |x|));
      }
    }
  }

  /** The messages received before any disconnect in `a` come first. */
  lemma {:induction false} ReceivedAppend(a: seq<Inbound>, b: seq<Inbound>)
    requires forall i :: 0 <= i < |a| ==> a[i].Receive?
    ensures Received(a + b) == Received(a) + Received(b) && |Received(a)| == |a|
    decreases |a|
  {
    if a == [] {
      assert a + b == b;
    } else {
      assert (a + b)[1..] == a[1..] + b;
      ReceivedAppend(a[1..], b);
    }
  }

  /** Requests are handled strictly in sequence: when `a` holds only received
      messages, the session over `a` followed by more events sends and calls
      what the session over `a` does, then what handling the rest does, the
      rest's messages numbered after those of `a`. */
  lemma SessionSequential(a: seq<Inbound>, b: seq<Inbound>, handle: Handler)
    requires forall i :: 0 <= i < |a| ==> a[i].Receive?
    ensures Session(a + b, handle) == Then(Session(a, handle), Serve(Received(b), handle, |a|))
  {
    ReceivedAppend(a, b);
    ServeSequential(Received(a), Received(b), handle, 0);
  }

  /** The number of terminal messages in a sequence of sent messages. */
  function Terminals(sent: seq<Outbound>): nat
  {
    if sent == [] then 0
    else (if IsTerminal(sent[0]) then 1 else 0) + Terminals(sent[1..])
  }

  lemma {:induction false} TerminalsAppend(s: seq<Outbound>, u: seq<Outbound>)
    ensures Terminals(s + u) == Terminals(s) + Terminals(u)
    decreases |s|
  {
    if s == [] {
      assert s + u == u;
    } else {
      assert (s + u)[1..] == s[1..] + u;
      TerminalsAppend(s[1..], u);
    }
  }

  /** One request's output: chunks, then exactly one terminal message. */
  predicate Framed(sent: seq<Outbound>)
  {
    |sent| >= 1 && IsTerminal(sent[|sent| - 1])
    && forall i :: 0 <= i < |sent| - 1 ==> sent[i].Chunk?
  }

  lemma {:induction false} FramedHasOneTerminal(s: seq<Outbound>)
    requires Framed(s)
    ensures Terminals(s) == 1
    decreases |s|
  {
    if |s| > 1 {
      FramedHasOneTerminal(s[1..]);
    }
  }

  /** A call that may reach the streaming provider: one with a non-empty prompt. */
  predicate AdmissibleCall(c: CompletionArgs)
  {
    c.prompt != ""
  }

  /** When every message's output is framed, handling a run of messages sends
      exactly one terminal message per message and never ends on a chunk;
      calls each handler keeps admissible remain so over the whole run. */
  lemma {:induction false} ServeFraming(msgs: seq<Envelope>, handle: Handler, n: nat)
    requires forall data, k :: Framed(handle(data, k).sent)
    requires forall data, k, c :: c in handle(data, k).calls ==> AdmissibleCall(c)
    ensures var t := Serve(msgs, handle, n);
      Terminals(t.sent) == |msgs|
      && (t.sent == [] <==> msgs == [])
      && (t.sent != [] ==> IsTerminal(t.sent[|t.sent| - 1]))
      && forall c :: c in t.calls ==> AdmissibleCall(c)
    decreases |msgs|
  {
    if msgs != [] {
      var before := Serve(msgs[..|msgs| - 1], handle, n);
      var h := handle(msgs[|msgs| - 1], n + |msgs| - 1);
      ServeFraming(msgs[..|msgs| - 1], handle, n);
      FramedHasOneTerminal(h.sent);
      TerminalsAppend(before.sent, h.sent);
    }
  }

  /** Handling messages with a handler that never calls the provider makes no call. */
  lemma {:induction false} ServeWithoutCalls(msgs: seq<Envelope>, handle: Handler, n: nat)
    requires forall data, k :: handle(data, k).calls == []
    ensures Serve(msgs, handle, n).calls == []
    decreases |msgs|
  {
    if msgs != [] {
      ServeWithoutCalls(msgs[..|msgs| - 1], handle, n);
    }
  }

  /** The WebSocket session sends exactly one terminal message per message
      received before the first disconnect and never ends on a chunk; only
      non-empty prompts reach the provider, and nothing does when the service
      is unconfigured. */
  lemma SessionFraming(events: seq<Inbound>, configured: Result<()>, provider: StreamOracle)
    ensures var t := Session(events, SessionHandler(configured, provider));
      Terminals(t.sent) == |Received(events)|
      && (t.sent != [] ==> IsTerminal(t.sent[|t.sent| - 1]))
      && (forall c :: c in t.calls ==> AdmissibleCall(c))
      && (configured.Raise? ==> t.calls == [])
  {
    var handle := SessionHandler(configured, provider);
    forall data, k ensures Framed(handle(data, k).sent) {
    }
    forall data, k, c | c in handle(data, k).calls ensures AdmissibleCall(c) {
      var d := Decide(configured, data);
      assert d.Invoke? && c == d.args;
    }
    ServeFraming(Received(events), handle, 0);
    if configured.Raise? {
      forall data, k ensures handle(data, k).calls == [] {
      }
      ServeWithoutCalls(Received(events), handle, 0);
    }
  }

  /** The inner `try` of the loop body: each fragment `llm_stream` yields is
      sent as a chunk, then `done`, or the exception's text if the provider
      raised. */
  method SendStream(stream: ProviderStream) returns (sent: seq<Outbound>)
    ensures sent == StreamOutput(stream)
  {
    var fragments := LlmStream(stream.deltas);
    sent := [];
    for k := 0 to |fragments|
      invariant sent == Chunks(fragments[..k])
    {
      assert Chunks(fragments[..k + 1]) == Chunks(fragments[..k]) + [Chunk(fragments[k])];
      sent := sent + [Chunk(fragments[k])];
    }
    assert fragments[..|fragments|] == fragments;
    if stream.failure.Some? {
      sent := sent + [Error(stream.failure.value)];
    } else {
      sent := sent + [Done];
    }
  }

  /** The body of `stream_completion`'s loop for one received message: an
      empty or missing prompt and an unconfigured service each send one error
      without calling the provider; otherwise the provider's stream is relayed.
      `i` is the message's position among those the connection has received. */
  method ReceiveMessage(settings: Settings, data: Envelope, provider: StreamOracle, i: nat)
    returns (sent: seq<Outbound>, calls: seq<CompletionArgs>)
    ensures Transcript(sent, calls) == SessionHandler(CheckLlmConfigured(settings), provider)(data, i)
  {
    var prompt := Get(data.prompt, Some(""));
    if !Truthy(prompt) {
      return [Error(PromptRequired)], [];
    }
    var check := CheckLlmConfigured(settings);
    if check.Raise? {
      return [Error(DetailOf(check.error))], [];
    }
    var args := CompletionArgs(prompt.value, Get(data.model, None), Get(data.systemPrompt, None),
                               Get(data.temperature, Some(DefaultTemperature)),
                               Get(data.maxTokens, Some(DefaultMaxTokens)));
    assert Decide(check, data) == Invoke(args);
    var stream := provider(i, args);
    sent := SendStream(stream);
    calls := [args];
  }

  /** `stream_completion`: receive a message, validate it, stream the
      provider's fragments as chunks and finish with `done`, or send the error
      of whichever step failed, and go back to receiving; a disconnect at
      receive ends the session. Every received event is a JSON object: a
      frame that is not one ends the real session with an unhandled
      exception, which this model does not represent. */
  method StreamCompletion(settings: Settings, events: seq<Inbound>, provider: StreamOracle)
    returns (sent: seq<Outbound>, calls: seq<CompletionArgs>)
    ensures Transcript(sent, calls) == Session(events, SessionHandler(CheckLlmConfigured(settings), provider))
  {
    ghost var configured := CheckLlmConfigured(settings);
    ghost var handle := SessionHandler(configured, provider);
    ghost var msgs: seq<Envelope> := [];
    sent, calls := [], [];
    var i := 0;
    while i < |events|
      invariant i <= |events| && |msgs| == i
      invariant forall j :: 0 <= j < i ==> events[j] == Receive(msgs[j])
      invariant Transcript(sent, calls) == Serve(msgs, handle, 0)
    {
      var event := events[i];
      if event.Disconnect? {
        break;
      }
      var out, made := ReceiveMessage(settings, event.data, provider, i);
      ServeAppend(msgs, event.data, handle, 0);
      sent, calls := sent + out, calls + made;
      msgs := msgs + [event.data];
      i := i + 1;
    }
    ReceivedLeading(events, msgs);
  }
}
