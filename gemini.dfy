/**
 * `gerar_imagem` of api/gemini.py: the key/model guard, the "models/" prefix, the
 * retry loop around the SDK call and the choice of the first image part of the
 * response. The SDK is an input: `sdk(model, n)` is what the n-th call (from 0) gives.
 */
module Gemini {
  import opened Wrappers
  import opened Text
  import opened Files

  /** One part of a `generate_content` response. */
  datatype Part = Part(text: Option<string>, inlineData: Option<Bytes>)

  /** A call either returns a response or raises an exception whose `str` is `message`. */
  datatype SdkOutcome = Response(parts: seq<Part>) | SdkError(message: string)

  /** The exceptions `gerar_imagem` lets out. */
  datatype GenError = MissingConfig | SdkFailure(message: string) | NoImage {
    /** `str(e)` of the exception. */
    function Message(): string {
      match this
      case MissingConfig => "GEMINI_API_KEY e GEMINI_MODEL devem estar definidos no .env"
      case SdkFailure(m) => m
      case NoImage => "Nenhuma imagem encontrada na resposta do Gemini"
    }
  }

  const MaxRetries: nat := 2
  const ModelsPrefix := "models/"

  /** The model name as sent to the SDK. */
  function ModelPath(name: string): (r: string)
    ensures StartsWith(r, ModelsPrefix)
    ensures StartsWith(name, ModelsPrefix) ==> r == name
    ensures !StartsWith(name, ModelsPrefix) ==> r == ModelsPrefix + name
  {
    if StartsWith(name, ModelsPrefix) then name else ModelsPrefix + name
  }

  /** Prefixing is idempotent: a prefixed name is sent as it is. */
  lemma ModelPathIdempotent(name: string)
    ensures ModelPath(ModelPath(name)) == ModelPath(name)
  {
  }

  /** `"quota" in str(e).lower() or "resource_exhausted" in str(e).lower()`. */
  predicate IsQuotaError(message: string) {
    Contains(AsciiLower(message), "quota") || Contains(AsciiLower(message), "resource_exhausted")
  }

  /**
   * The rate-limit test catches exactly the messages holding "quota" or
   * "resource_exhausted" spelt in any mix of upper and lower case.
   */
  lemma QuotaErrorSpellings(message: string)
    ensures IsQuotaError(message) <==>
      ContainsIgnoringCase(message, "quota") || ContainsIgnoringCase(message, "resource_exhausted")
  {
    LowerContains(message, "quota");
    LowerContains(message, "resource_exhausted");
  }

  /** The SDK's own spellings, `RESOURCE_EXHAUSTED`, `Quota` and `QUOTA`, are caught anywhere in the message. */
  lemma QuotaVariantsCaught(pre: string, post: string)
    ensures IsQuotaError(pre + "RESOURCE_EXHAUSTED" + post)
    ensures IsQuotaError(pre + "Quota" + post)
    ensures IsQuotaError(pre + "QUOTA" + post)
  {
    LowerWord("RESOURCE_EXHAUSTED", "resource_exhausted");
    LowerWord("Quota", "quota");
    LowerWord("QUOTA", "quota");
    ContainsIgnoringCaseInfix(pre, "RESOURCE_EXHAUSTED", post, "resource_exhausted");
    ContainsIgnoringCaseInfix(pre, "Quota", post, "quota");
    ContainsIgnoringCaseInfix(pre, "QUOTA", post, "quota");
    QuotaErrorSpellings(pre + "RESOURCE_EXHAUSTED" + post);
    QuotaErrorSpellings(pre + "Quota" + post);
    QuotaErrorSpellings(pre + "QUOTA" + post);
  }

  lemma LowerWord(w: string, t: string)
    requires |w| == |t| && forall k :: 0 <= k < |w| ==> LowerChar(w[k]) == t[k]
    ensures AsciiLower(w) == t
  {
  }

  /**
   * The retry loop from attempt `attempt` on: the response parts of the call that
   * succeeded or the message re-raised, and how many calls were made in all.
   */
  function Attempts(sdk: (string, nat) -> SdkOutcome, model: string, attempt: nat): (r: (Result<seq<Part>, string>, nat))
    requires attempt < MaxRetries
    ensures attempt < r.1 <= MaxRetries
    decreases MaxRetries - attempt
  {
    match sdk(model, attempt)
    case Response(parts) => (Ok(parts), attempt + 1)
    case SdkError(msg) =>
      if IsQuotaError(msg) && attempt < MaxRetries - 1 then Attempts(sdk, model, attempt + 1)
      else (Err(msg), attempt + 1)
  }

  predicate IsImagePart(p: Part) {
    p.text.None? && p.inlineData.Some?
  }

  /** The data of the first part that has no text and has inline data. */
  function FirstImage(parts: seq<Part>): (r: Option<Bytes>)
    ensures r.None? <==> forall i :: 0 <= i < |parts| ==> !IsImagePart(parts[i])
    ensures r.Some? ==> exists i :: (0 <= i < |parts| && IsImagePart(parts[i]) && parts[i].inlineData.value == r.value
      && forall j :: 0 <= j < i ==> !IsImagePart(parts[j]))
  {
    if parts == [] then None
    else if IsImagePart(parts[0]) then Some(parts[0].inlineData.value)
    else
      var r := FirstImage(parts[1..]);
      assert forall i :: 1 <= i < |parts| ==> parts[i] == parts[1..][i - 1];
      if r.Some? then
        var k :| 0 <= k < |parts| - 1 && IsImagePart(parts[1..][k]) && parts[1..][k].inlineData.value == r.value
          && forall j :: 0 <= j < k ==> !IsImagePart(parts[1..][j]);
        assert IsImagePart(parts[k + 1]) && forall j :: 0 <= j < k + 1 ==> !IsImagePart(parts[j]);
        r
      else r
  }

  /** The bytes returned or the exception raised, and the number of SDK calls made. */
  datatype Generation = Generation(result: Result<Bytes, GenError>, calls: nat)

  /** What `gerar_imagem` does once key and model are set: calls, then the first image part. */
  function CallPhase(sdk: (string, nat) -> SdkOutcome, model: string): (g: Generation)
    ensures 1 <= g.calls <= MaxRetries
  {
    var (response, calls) := Attempts(sdk, model, 0);
    match response
    case Err(msg) => Generation(Err(SdkFailure(msg)), calls)
    case Ok(parts) =>
      match FirstImage(parts)
      case None => Generation(Err(NoImage), calls)
      case Some(png) => Generation(Ok(png), calls)
  }

  /** What `gerar_imagem` does, given the two environment variables and the SDK. */
  function Generate(apiKeyEnv: Option<string>, modelEnv: Option<string>, sdk: (string, nat) -> SdkOutcome): Generation {
    var apiKey := PyStrip(apiKeyEnv.GetOr(""));
    var modelName := PyStrip(modelEnv.GetOr(""));
    if apiKey == "" || modelName == "" then Generation(Err(MissingConfig), 0)
    else CallPhase(sdk, ModelPath(modelName))
  }

  /** A missing key or model name raises before any call is made. */
  lemma MissingConfigMakesNoCall(apiKeyEnv: Option<string>, modelEnv: Option<string>, sdk: (string, nat) -> SdkOutcome)
    requires PyStrip(apiKeyEnv.GetOr("")) == "" || PyStrip(modelEnv.GetOr("")) == ""
    ensures Generate(apiKeyEnv, modelEnv, sdk) == Generation(Err(MissingConfig), 0)
  {
  }

  /** Once key and model are set, the SDK is called with the prefixed model name, one or two times. */
  lemma ConfiguredCallsSdk(apiKeyEnv: Option<string>, modelEnv: Option<string>, sdk: (string, nat) -> SdkOutcome)
    requires PyStrip(apiKeyEnv.GetOr("")) != "" && PyStrip(modelEnv.GetOr("")) != ""
    ensures Generate(apiKeyEnv, modelEnv, sdk) == CallPhase(sdk, ModelPath(PyStrip(modelEnv.GetOr(""))))
    ensures 1 <= Generate(apiKeyEnv, modelEnv, sdk).calls <= MaxRetries
  {
  }

  /** An error that is not about quota is raised on the spot, after one call. */
  lemma PermanentErrorNotRetried(sdk: (string, nat) -> SdkOutcome, model: string, msg: string)
    requires sdk(model, 0) == SdkError(msg) && !IsQuotaError(msg)
    ensures CallPhase(sdk, model) == Generation(Err(SdkFailure(msg)), 1)
  {
  }

  /**
   * A quota error on the first call is retried exactly once; whatever the second call
   * raises, quota or not, is raised.
   */
  lemma QuotaErrorRetriedOnce(sdk: (string, nat) -> SdkOutcome, model: string, msg: string)
    requires sdk(model, 0) == SdkError(msg) && IsQuotaError(msg)
    ensures CallPhase(sdk, model).calls == 2
    ensures sdk(model, 1).SdkError? ==> CallPhase(sdk, model).result == Err(SdkFailure(sdk(model, 1).message))
  {
    assert Attempts(sdk, model, 0) == Attempts(sdk, model, 1);
  }

  /** A result is the first image part of a response that some call returned. */
  lemma ResultIsFirstImage(sdk: (string, nat) -> SdkOutcome, model: string)
    ensures var g := CallPhase(sdk, model);
      g.result.Ok? ==> exists n :: (0 <= n < g.calls && sdk(model, n).Response?
        && FirstImage(sdk(model, n).parts) == Some(g.result.value))
  {
    var g := CallPhase(sdk, model);
    if g.result.Ok? {
      if sdk(model, 0).Response? {
        assert 0 < g.calls;
      } else {
        assert Attempts(sdk, model, 0) == Attempts(sdk, model, 1);
        assert sdk(model, 1).Response? && g.calls == 2;
      }
    }
  }

  /** `gerar_imagem`: the key/model guard, then the calls. */
  method GerarImagem(apiKeyEnv: Option<string>, modelEnv: Option<string>, sdk: (string, nat) -> SdkOutcome)
    returns (result: Result<Bytes, GenError>, calls: nat)
    ensures Generation(result, calls) == Generate(apiKeyEnv, modelEnv, sdk)
    ensures calls <= MaxRetries
  {
    var apiKey := PyStrip(apiKeyEnv.GetOr(""));
    var modelName := PyStrip(modelEnv.GetOr(""));
    if apiKey == "" || modelName == "" {
      return Err(MissingConfig), 0;
    }
    var parts;
    parts, calls := CallWithRetry(sdk, ModelPath(modelName));
    if parts.Err? {
      return Err(SdkFailure(parts.error)), calls;
    }
    var png := FindImagePart(parts.value);
    if png.None? {
      return Err(NoImage), calls;
    }
    return Ok(png.value), calls;
  }

  /** The `for attempt in range(MAX_RETRIES)` loop with its `break`, `continue` and `raise`. */
  method CallWithRetry(sdk: (string, nat) -> SdkOutcome, model: string)
    returns (response: Result<seq<Part>, string>, calls: nat)
    ensures (response, calls) == Attempts(sdk, model, 0)
  {
    var attempt: nat := 0;
    while attempt < MaxRetries
      invariant attempt < MaxRetries
      invariant Attempts(sdk, model, attempt) == Attempts(sdk, model, 0)
      decreases MaxRetries - attempt
    {
      var outcome := sdk(model, attempt);
      if outcome.Response? {
        return Ok(outcome.parts), attempt + 1;
      }
      if IsQuotaError(outcome.message) && attempt < MaxRetries - 1 {
        attempt := attempt + 1;
        continue;
      }
      return Err(outcome.message), attempt + 1;
    }
    assert false;
  }

  /** The loop over `response.candidates[0].content.parts`. */
  method FindImagePart(parts: seq<Part>) returns (png: Option<Bytes>)
    ensures png == FirstImage(parts)
  {
    var i := 0;
    while i < |parts|
      invariant 0 <= i <= |parts|
      invariant FirstImage(parts[i..]) == FirstImage(parts)
    {
      var part := parts[i];
      assert parts[i..][1..] == parts[i + 1..];
      if part.text.Some? {
        i := i + 1;
        continue;
      }
      if part.inlineData.Some? {
        return Some(part.inlineData.value);
      }
      i := i + 1;
    }
    return None;
  }
}
