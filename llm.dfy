/** The LLM adapter (backend/app/core/llm.py): routing a model name to the
    credentials handed to the provider library, building the chat message
    list, and filtering a streamed response down to its non-empty text.
    The provider library itself is not part of this model: a call to it is
    described by a `ProviderCall` value and answered by an oracle. */
module Llm {
  import opened Common

  /** The settings fields the adapter reads, under the names it reads them by. */
  datatype LlmSettings = LlmSettings(
    litellmModel: string,
    azureApiKey: Option<string>,
    azureApiBase: Option<string>,
    azureApiVersion: Option<string>,
    openaiApiKey: Option<string>,
    anthropicApiKey: Option<string>,
    ollamaBaseUrl: Option<string>)

  /** The keys the adapter may put in the keyword-argument dictionary. */
  datatype Kwarg = Model | ApiKey | ApiBase | ApiVersion

  /** The keyword arguments for the provider; a value is `None` when the
      setting it was copied from is `None`. */
  type Kwargs = map<Kwarg, Option<string>>

  const AzurePrefix := "azure/"
  const OllamaPrefix := "ollama/"
  const ClaudePrefix := "claude"

  /** `model or settings.litellm_model` */
  function ResolveModel(model: Option<string>, settings: LlmSettings): string
  {
    Or(model, settings.litellmModel)
  }

  /** `_get_completion_kwargs`: the resolved model plus the credentials of the
      first branch of the `if/elif` chain whose condition holds. */
  function GetCompletionKwargs(model: Option<string>, settings: LlmSettings): (r: Kwargs)
    ensures Model in r && r[Model] == Some(ResolveModel(model, settings))
    ensures Truthy(model) ==> r[Model] == model
  {
    var m := ResolveModel(model, settings);
    var kwargs := map[Model := Some(m)];
    if StartsWith(m, AzurePrefix) && Truthy(settings.azureApiKey) then
      kwargs[ApiKey := settings.azureApiKey][ApiBase := settings.azureApiBase][ApiVersion := settings.azureApiVersion]
    else if Truthy(settings.openaiApiKey) && !(StartsWith(m, OllamaPrefix) || StartsWith(m, ClaudePrefix)) then
      kwargs[ApiKey := settings.openaiApiKey]
    else if StartsWith(m, ClaudePrefix) && Truthy(settings.anthropicApiKey) then
      kwargs[ApiKey := settings.anthropicApiKey]
    else if StartsWith(m, OllamaPrefix) then
      kwargs[ApiBase := settings.ollamaBaseUrl]
    else
      kwargs
  }

  // ----- An independent statement of the routing: backends in priority order

  /** The provider backends the routing distinguishes. */
  datatype Backend = Azure | OpenAI | Anthropic | Ollama

  /** The order in which the backends are tried. */
  const Priority: seq<Backend> := [Azure, OpenAI, Anthropic, Ollama]

  /** Whether a backend's own condition holds for model `m`, regardless of the
      backends tried before it. */
  predicate Eligible(b: Backend, m: string, s: LlmSettings)
  {
    match b
    case Azure => StartsWith(m, AzurePrefix) && Truthy(s.azureApiKey)
    case OpenAI => Truthy(s.openaiApiKey) && !StartsWith(m, OllamaPrefix) && !StartsWith(m, ClaudePrefix)
    case Anthropic => StartsWith(m, ClaudePrefix) && Truthy(s.anthropicApiKey)
    case Ollama => StartsWith(m, OllamaPrefix)
  }

  /** The first backend of `bs` that is eligible, if any. */
  function FirstEligible(bs: seq<Backend>, m: string, s: LlmSettings): (r: Option<Backend>)
    ensures r.Some? ==> r.value in bs && Eligible(r.value, m, s)
    ensures r.None? <==> forall b :: b in bs ==> !Eligible(b, m, s)
  {
    if bs == [] then None
    else if Eligible(bs[0], m, s) then Some(bs[0])
    else FirstEligible(bs[1..], m, s)
  }

  /** The backend found is the first eligible one: it sits at a position of
      `bs` before which no backend is eligible. */
  lemma {:induction false} FirstEligibleIsFirst(bs: seq<Backend>, m: string, s: LlmSettings)
    ensures FirstEligible(bs, m, s).Some? ==>
      exists k :: 0 <= k < |bs| && bs[k] == FirstEligible(bs, m, s).value &&
        forall j :: 0 <= j < k ==> !Eligible(bs[j], m, s)
  {
    if bs != [] && !Eligible(bs[0], m, s) && FirstEligible(bs, m, s).Some? {
      FirstEligibleIsFirst(bs[1..], m, s);
      var k :| 0 <= k < |bs[1..]| && bs[1..][k] == FirstEligible(bs[1..], m, s).value &&
        forall j :: 0 <= j < k ==> !Eligible(bs[1..][j], m, s);
      assert forall j :: 0 <= j < k + 1 ==> !Eligible(bs[j], m, s) by {
        forall j | 0 <= j < k + 1 ensures !Eligible(bs[j], m, s) {
          if j > 0 { assert bs[j] == bs[1..][j - 1]; }
        }
      }
    }
  }

  /** The backend a request for `model` is routed to; `None` when no branch
      applies and only the model is passed on. */
  function Route(model: Option<string>, s: LlmSettings): Option<Backend>
  {
    FirstEligible(Priority, ResolveModel(model, s), s)
  }

  /** The keyword arguments a backend contributes besides the model. */
  function Credentials(b: Backend, s: LlmSettings): Kwargs
  {
    match b
    case Azure => map[ApiKey := s.azureApiKey, ApiBase := s.azureApiBase, ApiVersion := s.azureApiVersion]
    case OpenAI => map[ApiKey := s.openaiApiKey]
    case Anthropic => map[ApiKey := s.anthropicApiKey]
    case Ollama => map[ApiBase := s.ollamaBaseUrl]
  }

  /** The keyword arguments of a request routed to `route`. */
  function RoutedKwargs(m: string, route: Option<Backend>, s: LlmSettings): Kwargs
  {
    map[Model := Some(m)] + (if route.Some? then Credentials(route.value, s) else map[])
  }

  /** Routing tries the backends in priority order. */
  lemma {:induction false} PriorityOrder(m: string, s: LlmSettings)
    ensures FirstEligible(Priority, m, s)
         == if Eligible(Azure, m, s) then Some(Azure)
            else if Eligible(OpenAI, m, s) then Some(OpenAI)
            else if Eligible(Anthropic, m, s) then Some(Anthropic)
            else if Eligible(Ollama, m, s) then Some(Ollama)
            else None
  {
    var p1, p2, p3 := Priority[1..], Priority[2..], Priority[3..];
    assert p1[1..] == p2 && p2[1..] == p3 && p3[1..] == [];
    assert p1[0] == OpenAI && p2[0] == Anthropic && p3[0] == Ollama;
    assert FirstEligible(p3, m, s) == if Eligible(Ollama, m, s) then Some(Ollama) else None;
    assert FirstEligible(p2, m, s) == if Eligible(Anthropic, m, s) then Some(Anthropic) else FirstEligible(p3, m, s);
    assert FirstEligible(p1, m, s) == if Eligible(OpenAI, m, s) then Some(OpenAI) else FirstEligible(p2, m, s);
  }

  /** The `if/elif` chain is the priority routing: exactly the first eligible
      backend contributes its credentials, and no other key is set. */
  lemma KwargsFollowPriority(model: Option<string>, s: LlmSettings)
    ensures GetCompletionKwargs(model, s) == RoutedKwargs(ResolveModel(model, s), Route(model, s), s)
  {
    var m := ResolveModel(model, s);
    PriorityOrder(m, s);
    var base := map[Model := Some(m)];
    if Eligible(Azure, m, s) {
      assert base + Credentials(Azure, s)
          == base[ApiKey := s.azureApiKey][ApiBase := s.azureApiBase][ApiVersion := s.azureApiVersion];
    } else if Eligible(OpenAI, m, s) {
      assert base + Credentials(OpenAI, s) == base[ApiKey := s.openaiApiKey];
    } else if Eligible(Anthropic, m, s) {
      assert base + Credentials(Anthropic, s) == base[ApiKey := s.anthropicApiKey];
    } else if Eligible(Ollama, m, s) {
      assert base + Credentials(Ollama, s) == base[ApiBase := s.ollamaBaseUrl];
    } else {
      assert RoutedKwargs(m, None, s) == base;
    }
  }

  /** The first characters of a string are those of any prefix it starts with. */
  lemma PrefixChar(m: string, p: string, i: nat)
    requires StartsWith(m, p) && i < |p|
    ensures m[i] == p[i]
  {
    assert m[..|p|][i] == m[i];
  }

  /** An `azure/` model is routed to Azure when the Azure key is set;
      without it the fixed priority lets it fall through to the OpenAI key,
      and with neither key set only the model is passed on. */
  lemma AzureRoute(model: Option<string>, s: LlmSettings)
    requires StartsWith(ResolveModel(model, s), AzurePrefix)
    ensures Truthy(s.azureApiKey) ==>
      GetCompletionKwargs(model, s) == map[Model := Some(ResolveModel(model, s)),
        ApiKey := s.azureApiKey, ApiBase := s.azureApiBase, ApiVersion := s.azureApiVersion]
    ensures !Truthy(s.azureApiKey) && Truthy(s.openaiApiKey) ==>
      GetCompletionKwargs(model, s) == map[Model := Some(ResolveModel(model, s)), ApiKey := s.openaiApiKey]
    ensures !Truthy(s.azureApiKey) && !Truthy(s.openaiApiKey) ==>
      GetCompletionKwargs(model, s) == map[Model := Some(ResolveModel(model, s))]
  {
    var m := ResolveModel(model, s);
    PrefixChar(m, AzurePrefix, 0);
    DifferentFirstChar(m, OllamaPrefix);
    DifferentFirstChar(m, ClaudePrefix);
  }

  /** An `ollama/` model never receives an API key: only the Ollama base URL. */
  lemma OllamaRoute(model: Option<string>, s: LlmSettings)
    requires StartsWith(ResolveModel(model, s), OllamaPrefix)
    ensures GetCompletionKwargs(model, s) == map[Model := Some(ResolveModel(model, s)), ApiBase := s.ollamaBaseUrl]
    ensures ApiKey !in GetCompletionKwargs(model, s)
  {
    var m := ResolveModel(model, s);
    PrefixChar(m, OllamaPrefix, 0);
    DifferentFirstChar(m, AzurePrefix);
    DifferentFirstChar(m, ClaudePrefix);
  }

  /** A `claude` model never receives the OpenAI key: it gets the Anthropic
      key when one is set, and otherwise only the model. */
  lemma ClaudeRoute(model: Option<string>, s: LlmSettings)
    requires StartsWith(ResolveModel(model, s), ClaudePrefix)
    ensures Truthy(s.anthropicApiKey) ==>
      GetCompletionKwargs(model, s) == map[Model := Some(ResolveModel(model, s)), ApiKey := s.anthropicApiKey]
    ensures !Truthy(s.anthropicApiKey) ==>
      GetCompletionKwargs(model, s) == map[Model := Some(ResolveModel(model, s))]
  {
    var m := ResolveModel(model, s);
    PrefixChar(m, ClaudePrefix, 0);
    DifferentFirstChar(m, AzurePrefix);
    DifferentFirstChar(m, OllamaPrefix);
  }

  // ----- Messages and provider calls

  datatype Role = System | User

  /** `{"role": ..., "content": ...}` */
  datatype Message = Message(role: Role, content: string)

  /** The message list of `llm_complete` and `llm_stream`: a system message
      first exactly when a non-empty system prompt is given, and the user's
      prompt always last. */
  function BuildMessages(prompt: string, systemPrompt: Option<string>): (r: seq<Message>)
    ensures 1 <= |r| <= 2
    ensures r[|r| - 1] == Message(User, prompt)
    ensures |r| == 2 <==> Truthy(systemPrompt)
    ensures |r| == 2 ==> r[0] == Message(System, systemPrompt.value)
  {
    (if Truthy(systemPrompt) then [Message(System, systemPrompt.value)] else [])
      + [Message(User, prompt)]
  }

  /** The arguments `llm_complete` and `llm_stream` are called with; the
      sampling parameters are `None` when the caller passes `None`. */
  datatype CompletionArgs = CompletionArgs(
    prompt: string,
    model: Option<string>,
    systemPrompt: Option<string>,
    temperature: Option<real>,
    maxTokens: Option<int>)

  /** One call of the provider library: the messages, the sampling parameters
      passed through unchanged, the routed keyword arguments, and whether a
      stream was asked for. */
  datatype ProviderCall = ProviderCall(
    messages: seq<Message>,
    temperature: Option<real>,
    maxTokens: Option<int>,
    kwargs: Kwargs,
    stream: bool)

  /** The provider call `llm_complete` (`stream` false) or `llm_stream`
      (`stream` true) makes for its arguments. */
  function MakeProviderCall(args: CompletionArgs, settings: LlmSettings, stream: bool): (c: ProviderCall)
    ensures 1 <= |c.messages| <= 2 && c.messages[|c.messages| - 1] == Message(User, args.prompt)
    ensures |c.messages| == 2 <==> Truthy(args.systemPrompt)
    ensures Model in c.kwargs && c.kwargs[Model] == Some(ResolveModel(args.model, settings))
    ensures c.temperature == args.temperature && c.maxTokens == args.maxTokens && c.stream == stream
    ensures c.messages == BuildMessages(args.prompt, args.systemPrompt)
    ensures c.kwargs == GetCompletionKwargs(args.model, settings)
  {
    ProviderCall(BuildMessages(args.prompt, args.systemPrompt), args.temperature, args.maxTokens,
                 GetCompletionKwargs(args.model, settings), stream)
  }

  /** What the provider answers to a non-streaming call: the first choice's
      message content, or the text of the exception it raised. */
  datatype Completion = Completed(content: string) | Failed(message: string)

  /** `llm_complete`: the provider's answer to the call, a provider exception
      propagating to the caller. */
  function LlmComplete(args: CompletionArgs, settings: LlmSettings,
                       provider: ProviderCall -> Completion): (r: Result<string>)
    ensures r.Ok? <==> provider(MakeProviderCall(args, settings, false)).Completed?
    ensures r.Ok? ==> r.value == provider(MakeProviderCall(args, settings, false)).content
    ensures r.Raise? ==> r.error == Exception(provider(MakeProviderCall(args, settings, false)).message)
  {
    match provider(MakeProviderCall(args, settings, false))
    case Completed(content) => Ok(content)
    case Failed(message) => Raise(Exception(message))
  }

  // ----- Stream filtering

  /** What the provider produces for a streaming call: the `delta.content` of
      each chunk's first choice in arrival order (`None` when missing), then
      possibly an exception raised before the stream ended. */
  datatype ProviderStream = ProviderStream(deltas: seq<Option<string>>, failure: Option<string>)

  /** The fragments `llm_stream` yields: every non-empty delta content. */
  function StreamedText(deltas: seq<Option<string>>): (r: seq<string>)
    ensures |r| <= |deltas|
    ensures forall i :: 0 <= i < |r| ==> r[i] != ""
  {
    if deltas == [] then []
    else
      var last := deltas[|deltas| - 1];
      StreamedText(deltas[..|deltas| - 1]) + (if Truthy(last) then [last.value] else [])
  }

  /** Filtering a concatenation filters each part, keeping their order. */
  lemma {:induction false} StreamedTextAppend(a: seq<Option<string>>, b: seq<Option<string>>)
    ensures StreamedText(a + b) == StreamedText(a) + StreamedText(b)
    decreases |b|
  {
    if b == [] {
      assert a + b == a;
    } else {
      var b' := b[..|b| - 1];
      assert (a + b)[..|a + b| - 1] == a + b';
      StreamedTextAppend(a, b');
    }
  }

  /** The positions of the deltas that carry non-empty content, ascending. */
  function KeptPositions(deltas: seq<Option<string>>): (r: seq<nat>)
  {
    if deltas == [] then []
    else
      var n := |deltas| - 1;
      KeptPositions(deltas[..n]) + (if Truthy(deltas[n]) then [n] else [])
  }

  /** Output `k` is the non-empty content of the delta at position `pos[k]`. */
  lemma {:induction false} KeptPositionsMatch(deltas: seq<Option<string>>)
    ensures var out, pos := StreamedText(deltas), KeptPositions(deltas);
      |pos| == |out| &&
      forall k :: 0 <= k < |pos| ==>
        pos[k] < |deltas| && Truthy(deltas[pos[k]]) && out[k] == deltas[pos[k]].value
  {
    if deltas != [] {
      var n := |deltas| - 1;
      var init := deltas[..n];
      KeptPositionsMatch(init);
      var out, pos := StreamedText(deltas), KeptPositions(deltas);
      var out0, pos0 := StreamedText(init), KeptPositions(init);
      assert out == out0 + (if Truthy(deltas[n]) then [deltas[n].value] else []);
      assert pos == pos0 + (if Truthy(deltas[n]) then [n] else []);
      forall k | 0 <= k < |pos|
        ensures pos[k] < |deltas| && Truthy(deltas[pos[k]]) && out[k] == deltas[pos[k]].value
      {
        if k < |pos0| {
          assert pos[k] == pos0[k] && out[k] == out0[k];
          assert deltas[pos[k]] == init[pos0[k]];
        }
      }
    }
  }

  /** The kept positions increase strictly: nothing is reordered. */
  lemma {:induction false} KeptPositionsIncrease(deltas: seq<Option<string>>)
    ensures var pos := KeptPositions(deltas);
      forall k, l :: 0 <= k < l < |pos| ==> pos[k] < pos[l]
  {
    if deltas != [] {
      var n := |deltas| - 1;
      var init := deltas[..n];
      KeptPositionsIncrease(init);
      KeptPositionsMatch(init);
      var pos, pos0 := KeptPositions(deltas), KeptPositions(init);
      assert pos == pos0 + (if Truthy(deltas[n]) then [n] else []);
      assert forall k :: 0 <= k < |pos0| ==> pos0[k] < n;
    }
  }

  /** Every delta with non-empty content is kept. */
  lemma {:induction false} KeptPositionsComplete(deltas: seq<Option<string>>)
    ensures forall i :: 0 <= i < |deltas| && Truthy(deltas[i]) ==> i in KeptPositions(deltas)
  {
    if deltas != [] {
      var n := |deltas| - 1;
      var init := deltas[..n];
      KeptPositionsComplete(init);
      var pos, pos0 := KeptPositions(deltas), KeptPositions(init);
      assert pos == pos0 + (if Truthy(deltas[n]) then [n] else []);
      forall i | 0 <= i < |deltas| && Truthy(deltas[i])
        ensures i in pos
      {
        if i < n {
          assert init[i] == deltas[i];
          assert i in pos0;
        }
      }
    }
  }

  /** The stream output is exactly the non-empty delta contents in arrival
      order: output `k` is the content of the delta at position `pos[k]`, the
      positions increase strictly, and every delta with non-empty content has
      its position in `pos`. */
  lemma {:induction false} StreamedTextIsOrderedFilter(deltas: seq<Option<string>>)
    ensures var out, pos := StreamedText(deltas), KeptPositions(deltas);
      |pos| == |out| &&
      (forall k :: 0 <= k < |pos| ==>
         pos[k] < |deltas| && Truthy(deltas[pos[k]]) && out[k] == deltas[pos[k]].value) &&
      (forall k, l :: 0 <= k < l < |pos| ==> pos[k] < pos[l]) &&
      (forall i :: 0 <= i < |deltas| && Truthy(deltas[i]) ==> i in pos)
  {
    KeptPositionsMatch(deltas);
    KeptPositionsIncrease(deltas);
    KeptPositionsComplete(deltas);
  }

  /** `llm_stream`'s loop over the provider's chunks: each non-empty content
      is yielded, in arrival order. */
  method LlmStream(deltas: seq<Option<string>>) returns (fragments: seq<string>)
    ensures fragments == StreamedText(deltas)
  {
    fragments := [];
    var j := 0;
    while j < |deltas|
      invariant 0 <= j <= |deltas|
      invariant fragments == StreamedText(deltas[..j])
    {
      assert deltas[..j + 1][..j] == deltas[..j];
      var content := deltas[j];
      if Truthy(content) {
        fragments := fragments + [content.value];
      }
      j := j + 1;
    }
    assert deltas[..j] == deltas;
  }
}
