/**
 * The translator registry and dispatcher of internal/services/translator.go.
 *
 * A TranslatorService owns a map from model identifier to a translation
 * backend. The backends themselves are not part of this model: calling a
 * backend is the oracle `invoke`, which stands for the backend's own
 * `Translate(ctx, req)` and returns Go's (response, error) pair.
 */
module Services {
  import opened Wrappers

  /** The canonical request: the text to translate and the model to use. */
  datatype TranslationRequest = TranslationRequest(text: string, model: string)

  /** The canonical response a backend produces. */
  datatype TranslationResponse = TranslationResponse(original: string, translated: string, model: string)

  /** A registered backend, identified by the display name it was built with. */
  datatype Translator = MockTranslator(name: string)

  /** The caller's cancellation/deadline context; the service only passes it on. */
  datatype Context = Context(handle: nat)

  /** Why a backend call failed; kept intact when the service wraps it. */
  datatype Cause = Canceled | DeadlineExceeded | BackendError(message: string)

  /** What a backend returns: a possibly nil response and a possibly nil error. */
  datatype BackendReply = BackendReply(response: Option<TranslationResponse>, err: Option<Cause>)

  /** The two errors the service itself produces. Both name the requested model. */
  datatype TranslateError =
    | UnsupportedModel(model: string)
    | TranslationFailed(model: string, cause: Cause)

  /** What the service's Translate returns: a possibly nil response and a possibly nil error. */
  datatype TranslateResult = TranslateResult(response: Option<TranslationResponse>, err: Option<TranslateError>)

  /** The oracle that performs a backend call. */
  type Invoke = (Translator, Context, TranslationRequest) -> BackendReply

  /** The model identifiers the constructor registers. */
  const DefaultModels: set<string> := {"gpt-3.5", "gpt-4", "claude", "llama"}

  class TranslatorService {
    var translators: map<string, Translator>

    /** Builds an empty registry and fills it with the four built-in backends. */
    constructor ()
      ensures translators.Keys == DefaultModels
      ensures translators["gpt-3.5"] == MockTranslator("GPT-3.5")
      ensures translators["gpt-4"] == MockTranslator("GPT-4")
      ensures translators["claude"] == MockTranslator("Claude")
      ensures translators["llama"] == MockTranslator("Llama")
    {
      translators := map[];
      new;
      RegisterTranslators();
    }

    /**
     * Binds the four built-in identifiers. Each assignment inserts or
     * replaces (last write wins); every other key keeps its binding.
     */
    method RegisterTranslators()
      modifies this
      ensures translators.Keys == old(translators.Keys) + DefaultModels
      ensures translators["gpt-3.5"] == MockTranslator("GPT-3.5")
      ensures translators["gpt-4"] == MockTranslator("GPT-4")
      ensures translators["claude"] == MockTranslator("Claude")
      ensures translators["llama"] == MockTranslator("Llama")
      ensures forall m :: m in old(translators) && m !in DefaultModels ==> translators[m] == old(translators)[m]
    {
      translators := translators["gpt-3.5" := MockTranslator("GPT-3.5")];
      translators := translators["gpt-4" := MockTranslator("GPT-4")];
      translators := translators["claude" := MockTranslator("Claude")];
      translators := translators["llama" := MockTranslator("Llama")];
    }

    /**
     * Dispatches a request to the backend registered under exactly
     * `req.model`. There are three outcomes: the model is unknown; the
     * backend failed and its cause is wrapped with the model name; or the
     * backend's response is passed through unchanged.
     */
    function Translate(ctx: Context, req: TranslationRequest, invoke: Invoke): (r: TranslateResult)
      reads this
      ensures req.model !in translators ==> r == TranslateResult(None, Some(UnsupportedModel(req.model)))
      ensures req.model in translators && invoke(translators[req.model], ctx, req).err.Some? ==>
        r == TranslateResult(None, Some(TranslationFailed(req.model, invoke(translators[req.model], ctx, req).err.value)))
      ensures req.model in translators && invoke(translators[req.model], ctx, req).err.None? ==>
        r == TranslateResult(invoke(translators[req.model], ctx, req).response, None)
      ensures r.err.Some? ==> r.response.None? && r.err.value.model == req.model
    {
      if req.model !in translators then
        TranslateResult(None, Some(UnsupportedModel(req.model)))
      else
        var reply := invoke(translators[req.model], ctx, req);
        if reply.err.Some? then
          TranslateResult(None, Some(TranslationFailed(req.model, reply.err.value)))
        else
          TranslateResult(reply.response, None)
    }

    /** Lists every registered identifier once, in no particular order. */
    method GetSupportedModels() returns (models: seq<string>)
      ensures forall m :: m in models <==> m in translators
      ensures |models| == |translators|
      ensures forall i, j :: 0 <= i < j < |models| ==> models[i] != models[j]
    {
      models := [];
      var remaining := translators.Keys;
      while remaining != {}
        invariant remaining <= translators.Keys
        invariant forall m :: m in models <==> m in translators && m !in remaining
        invariant |models| + |remaining| == |translators|
        invariant forall i, j :: 0 <= i < j < |models| ==> models[i] != models[j]
        decreases |remaining|
      {
        var m :| m in remaining;
        models := models + [m];
        remaining := remaining - {m};
      }
    }

    /** Whether a backend is registered under exactly this identifier. */
    predicate IsModelSupported(model: string): (r: bool)
      reads this
      ensures r <==> model in translators.Keys
      ensures !r ==> forall ctx: Context, text: string, invoke: Invoke ::
        Translate(ctx, TranslationRequest(text, model), invoke) == TranslateResult(None, Some(UnsupportedModel(model)))
    {
      model in translators
    }
  }

  /**
   * Translate reports an unsupported model exactly when IsModelSupported
   * is false: a backend failure is never reported as an unknown model.
   */
  lemma UnsupportedIffNotRegistered(s: TranslatorService, ctx: Context, req: TranslationRequest, invoke: Invoke)
    ensures s.Translate(ctx, req, invoke).err == Some(UnsupportedModel(req.model)) <==> !s.IsModelSupported(req.model)
    ensures s.IsModelSupported(req.model) <==> req.model in s.translators.Keys
  {
  }

  /** For an unknown model the outcome does not depend on any backend: none is called. */
  lemma UnsupportedInvokesNoBackend(s: TranslatorService, ctx: Context, req: TranslationRequest, invoke1: Invoke, invoke2: Invoke)
    requires !s.IsModelSupported(req.model)
    ensures s.Translate(ctx, req, invoke1) == s.Translate(ctx, req, invoke2)
    ensures s.Translate(ctx, req, invoke1) == TranslateResult(None, Some(UnsupportedModel(req.model)))
  {
  }

  /**
   * For a known model the outcome depends only on what the registered
   * backend answers to this very context and request.
   */
  lemma DispatchUsesRegisteredBackend(s: TranslatorService, ctx: Context, req: TranslationRequest, invoke1: Invoke, invoke2: Invoke)
    requires s.IsModelSupported(req.model)
    requires invoke1(s.translators[req.model], ctx, req) == invoke2(s.translators[req.model], ctx, req)
    ensures s.Translate(ctx, req, invoke1) == s.Translate(ctx, req, invoke2)
  {
  }

  /** A cancelled or timed-out backend call surfaces as a failure carrying that cause. */
  lemma CancellationIsNotSwallowed(s: TranslatorService, ctx: Context, req: TranslationRequest, invoke: Invoke)
    requires s.IsModelSupported(req.model)
    requires invoke(s.translators[req.model], ctx, req).err in {Some(Canceled), Some(DeadlineExceeded)}
    ensures s.Translate(ctx, req, invoke).response.None?
    ensures s.Translate(ctx, req, invoke).err == Some(TranslationFailed(req.model, invoke(s.translators[req.model], ctx, req).err.value))
  {
  }

  /**
   * Over the registry the constructor builds, lookup is exact and
   * case-sensitive: only the four lower-case identifiers are supported.
   */
  lemma DefaultRegistryLookupIsExact(s: TranslatorService, ctx: Context, text: string, invoke: Invoke)
    requires s.translators.Keys == DefaultModels
    ensures forall m :: s.IsModelSupported(m) <==> m in DefaultModels
    ensures s.IsModelSupported("gpt-4") && !s.IsModelSupported("GPT-4") && !s.IsModelSupported("")
    ensures s.Translate(ctx, TranslationRequest(text, "GPT-4"), invoke) == TranslateResult(None, Some(UnsupportedModel("GPT-4")))
    ensures s.Translate(ctx, TranslationRequest(text, ""), invoke) == TranslateResult(None, Some(UnsupportedModel("")))
  {
  }
}
