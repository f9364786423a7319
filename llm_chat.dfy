/**
 * The `useLLMChat` hook: `sendMessage` checks the stored settings, calls
 * the `chat` relay with `stream: true`, and either decodes the event
 * stream chunk by chunk or reads a buffered reply; `isConfigured` tests
 * the stored settings.
 *
 * The relay call is a parameter: `InvokeResult` is what
 * `supabase.functions.invoke` produced, including the already-decoded
 * text chunks the stream reader would deliver. A thrown error is the
 * `Failed` outcome, and the hook's `error` state records its message.
 */
module LlmChat {
  import opened Wrappers
  import opened Text
  import opened Wire
  import opened SseDecoder
  import opened Storage
  import ChatRelay

  const NotConfiguredMessage: string := "请先在设置页面配置 LLM API"
  const RequestFailedMessage: string := "请求失败"

  /** What the relay call produced. */
  datatype InvokeResult =
    /** `response.error` was set. */
    | InvokeError(message: string)
    /** A stream reader: the chunks it delivered, then either `done` or a failing read. */
    | Streamed(chunks: seq<string>, readFailure: Option<Thrown>)
    /** No reader: the buffered JSON reply. */
    | Buffered(reply: BufferedReply)

  /** The settled promise: the resolved text, or the value thrown. */
  datatype Outcome = Completed(text: string) | Failed(thrown: Thrown)

  /** All three settings present and non-empty. */
  predicate SettingsConfigured(settings: Option<LlmSettings>)
    ensures settings.Some? ==>
      (SettingsConfigured(settings) <==> ChatRelay.Configured(RelayRequest([], settings.value, None)))
  {
    settings.Some? && settings.value.baseUrl != "" && settings.value.apiKey != "" && settings.value.modelName != ""
  }

  /**
   * The hook's configuration check and the relay's validation agree: a
   * request built from configured settings is forwarded upstream, and
   * one built from settings with an empty field is rejected with 400.
   */
  lemma ConfiguredRequestForwarded(messages: seq<Message>, settings: LlmSettings, systemPrompt: Option<string>)
    ensures var plan := ChatRelay.Plan(ChatRelay.Post(ChatRelay.BodyJson(RelayRequest(messages, settings, systemPrompt))));
      && (SettingsConfigured(Some(settings)) <==> plan.Forward?)
      && (!SettingsConfigured(Some(settings)) ==> plan.Answer? && plan.response.status == 400)
  {
  }

  /** `err instanceof Error ? err.message : '请求失败'`. */
  function ErrorText(thrown: Thrown): (m: string)
    ensures thrown.ErrorObject? ==> m == thrown.message
    ensures thrown.OtherThrown? ==> m == RequestFailedMessage
  {
    match thrown
    case ErrorObject(m) => m
    case OtherThrown => RequestFailedMessage
  }

  /** The relay request body `sendMessage` sends. */
  function RelayRequest(messages: seq<Message>, settings: LlmSettings, systemPrompt: Option<string>): (r: ChatRequest)
    ensures r.stream == Some(true)
    ensures r.messages == messages && r.systemPrompt == systemPrompt
    ensures r.baseUrl == settings.baseUrl && r.apiKey == settings.apiKey && r.modelName == settings.modelName
  {
    ChatRequest(messages, settings.baseUrl, settings.apiKey, settings.modelName, Some(true), systemPrompt)
  }

  /** The text of a stream: the deltas of its complete lines, concatenated. */
  function StreamedText(chunks: seq<string>, parse: string -> DeltaLookup): string
  {
    Concat(Decode(Concat(chunks), parse))
  }

  /** How a configured `sendMessage` settles, given the relay's result. */
  function ExpectedOutcome(invoke: InvokeResult, parse: string -> DeltaLookup): (r: Outcome)
    ensures r.Failed? <==>
      invoke.InvokeError? || (invoke.Buffered? && HasError(invoke.reply)) || (invoke.Streamed? && invoke.readFailure.Some?)
    ensures r.Failed? && invoke.Streamed? ==> r.thrown == invoke.readFailure.value
    ensures r.Completed? && invoke.Streamed? ==> r.text == Concat(Decode(Concat(invoke.chunks), parse))
    ensures r.Completed? && invoke.Buffered? ==> r.text == ContentOr(invoke.reply, "")
  {
    match invoke
    case InvokeError(m) => Failed(ErrorObject(m))
    case Buffered(reply) =>
      if HasError(reply) then Failed(ErrorObject(reply.error.value)) else Completed(ContentOr(reply, ""))
    case Streamed(chunks, failure) =>
      if failure.Some? then Failed(failure.value) else Completed(StreamedText(chunks, parse))
  }

  /** The callback invocations a configured `sendMessage` makes: one or two per decoded delta, only when streaming. */
  function ExpectedCalls(invoke: InvokeResult, perCall: bool, options: bool, parse: string -> DeltaLookup): seq<Notification>
  {
    if invoke.Streamed? then Notifications(Decode(Concat(invoke.chunks), parse), perCall, options) else []
  }

  /**
   * The text a streamed `sendMessage` resolves to is the in-order
   * concatenation of what each supplied callback received, and no
   * callback receives an empty delta.
   */
  lemma ResolvedTextIsCallbackConcatenation(chunks: seq<string>, perCall: bool, options: bool, parse: string -> DeltaLookup)
    ensures perCall ==> Concat(PerCallArgs(ExpectedCalls(Streamed(chunks, None), perCall, options, parse)))
                        == ExpectedOutcome(Streamed(chunks, None), parse).text
    ensures options ==> Concat(OptionsArgs(ExpectedCalls(Streamed(chunks, None), perCall, options, parse)))
                        == ExpectedOutcome(Streamed(chunks, None), parse).text
    ensures forall d <- PerCallArgs(ExpectedCalls(Streamed(chunks, None), perCall, options, parse)) :: d != ""
  {
    CallbackArguments(Decode(Concat(chunks), parse), perCall, options);
  }

  /** The result of a stream depends on its text only, not on where the chunks were cut. */
  lemma {:induction false} ChunkingIrrelevant(c1: seq<string>, c2: seq<string>, parse: string -> DeltaLookup)
    requires Concat(c1) == Concat(c2)
    ensures ExpectedOutcome(Streamed(c1, None), parse) == ExpectedOutcome(Streamed(c2, None), parse)
    ensures forall p: bool, o: bool :: ExpectedCalls(Streamed(c1, None), p, o, parse) == ExpectedCalls(Streamed(c2, None), p, o, parse)
  {
  }

  /**
   * Splitting one chunk in two changes nothing: the concatenated text is
   * the same, so the outcome and the callbacks are too.
   */
  lemma {:induction false} SplitChunk(before: seq<string>, x: string, y: string, after: seq<string>, parse: string -> DeltaLookup)
    ensures StreamedText(before + [x + y] + after, parse) == StreamedText(before + [x, y] + after, parse)
  {
    ConcatAppend(before + [x + y], after);
    ConcatAppend(before, [x + y]);
    ConcatAppend(before + [x, y], after);
    ConcatAppend(before, [x, y]);
    assert Concat([x, y]) == x + y by {
      assert [x, y][1..] == [y];
      assert Concat([y]) == y + Concat([]);
    }
    assert Concat([x + y]) == x + y + Concat([]);
    assert Concat(before + [x + y] + after) == Concat(before + [x, y] + after);
  }

  /**
   * However the frames of N well-formed deltas followed by `[DONE]` are
   * cut into chunks, `sendMessage` resolves to their concatenation and
   * each supplied callback receives exactly the N deltas, in order.
   */
  lemma WellFormedStreamResolves(chunks: seq<string>, payloads: seq<string>, deltas: seq<string>,
                                 perCall: bool, options: bool, parse: string -> DeltaLookup)
    requires Concat(chunks) == Frames(payloads + [DoneSentinel])
    requires |payloads| == |deltas|
    requires forall i :: 0 <= i < |payloads| ==> WellFormedFrame(payloads[i], deltas[i], parse)
    ensures ExpectedOutcome(Streamed(chunks, None), parse) == Completed(Concat(deltas))
    ensures perCall ==> PerCallArgs(ExpectedCalls(Streamed(chunks, None), perCall, options, parse)) == deltas
    ensures options ==> OptionsArgs(ExpectedCalls(Streamed(chunks, None), perCall, options, parse)) == deltas
  {
    FramesDecoded(payloads, deltas, parse);
    CallbackArguments(deltas, perCall, options);
  }

  /** A buffered reply without content resolves to the empty string. */
  lemma BufferedWithoutContent(reply: BufferedReply, parse: string -> DeltaLookup)
    requires !HasError(reply) && (reply.content.None? || reply.content.value == "")
    ensures ExpectedOutcome(Buffered(reply), parse) == Completed("")
  {
  }

  /** `useLLMChat(options)`: the options and the two state cells. */
  class ChatHook {
    const systemPrompt: Option<string>
    const hasOptionsOnDelta: bool
    var isLoading: bool
    var error: Option<string>
    /** The relay requests sent so far, in order. */
    var invocations: seq<ChatRequest>

    constructor (systemPrompt: Option<string>, hasOptionsOnDelta: bool)
      ensures this.systemPrompt == systemPrompt && this.hasOptionsOnDelta == hasOptionsOnDelta
      ensures !isLoading && error == None && invocations == []
    {
      this.systemPrompt := systemPrompt;
      this.hasOptionsOnDelta := hasOptionsOnDelta;
      isLoading := false;
      error := None;
      invocations := [];
    }

    /** `isConfigured()`. */
    function IsConfigured(store: LocalStore): (b: bool)
      reads store
      ensures b <==> store.GetLlmSettings().Some? && store.GetLlmSettings().value.baseUrl != ""
                     && store.GetLlmSettings().value.apiKey != "" && store.GetLlmSettings().value.modelName != ""
    {
      SettingsConfigured(store.GetLlmSettings())
    }

    /**
     * `sendMessage(messages, onDelta)`. `hasOnDelta` says whether the
     * per-call callback was supplied; `calls` is the sequence of callback
     * invocations made while reading.
     */
    method SendMessage(store: LocalStore, messages: seq<Message>, hasOnDelta: bool,
                       invoke: InvokeResult, parse: string -> DeltaLookup)
      returns (outcome: Outcome, calls: seq<Notification>)
      modifies this
      ensures !SettingsConfigured(store.GetLlmSettings()) ==>
        && outcome == Failed(ErrorObject(NotConfiguredMessage)) && calls == []
        && isLoading == old(isLoading) && error == old(error) && invocations == old(invocations)
      ensures SettingsConfigured(store.GetLlmSettings()) ==>
        && invocations == old(invocations) + [RelayRequest(messages, store.GetLlmSettings().value, systemPrompt)]
        && outcome == ExpectedOutcome(invoke, parse)
        && calls == ExpectedCalls(invoke, hasOnDelta, hasOptionsOnDelta, parse)
        && !isLoading
        && error == (if outcome.Failed? then Some(ErrorText(outcome.thrown)) else None)
    {
      var settings := store.GetLlmSettings();
      if !SettingsConfigured(settings) {
        outcome := Failed(ErrorObject(NotConfiguredMessage));
        calls := [];
        return;
      }
      isLoading := true;
      error := None;
      invocations := invocations + [RelayRequest(messages, settings.value, systemPrompt)];
      calls := [];
      match invoke {
        case InvokeError(m) =>
          outcome := Failed(ErrorObject(m));
        case Buffered(reply) =>
          if HasError(reply) {
            outcome := Failed(ErrorObject(reply.error.value));
          } else {
            outcome := Completed(ContentOr(reply, ""));
          }
        case Streamed(chunks, failure) =>
          var fullContent;
          fullContent, calls := ReadStream(chunks, hasOnDelta, parse);
          if failure.Some? {
            outcome := Failed(failure.value);
          } else {
            outcome := Completed(fullContent);
          }
      }
      if outcome.Failed? {
        error := Some(ErrorText(outcome.thrown));
      }
      isLoading := false;
    }

    /** The `while (true)` read loop: feed every chunk to one decoder. */
    method ReadStream(chunks: seq<string>, hasOnDelta: bool, parse: string -> DeltaLookup)
      returns (fullContent: string, calls: seq<Notification>)
      ensures fullContent == StreamedText(chunks, parse)
      ensures calls == Notifications(Decode(Concat(chunks), parse), hasOnDelta, hasOptionsOnDelta)
    {
      var decoder := new StreamDecoder(parse, hasOnDelta, hasOptionsOnDelta);
      for i := 0 to |chunks|
        invariant decoder.Valid() && decoder.consumed == Concat(chunks[..i])
        invariant decoder.parse == parse && decoder.perCall == hasOnDelta && decoder.options == hasOptionsOnDelta
      {
        ConcatAppend(chunks[..i], [chunks[i]]);
        assert chunks[..i + 1] == chunks[..i] + [chunks[i]];
        assert Concat([chunks[i]]) == chunks[i] + Concat([]);
        decoder.Feed(chunks[i]);
      }
      assert chunks[..|chunks|] == chunks;
      fullContent := decoder.fullContent;
      calls := decoder.calls;
    }
  }
}
