/** The pure decisions inside `server/routers.ts`: filling in a missing
    parameter count after a config has been parsed, and turning a model's
    repository URL into the URL of its `config.json`. The RPC procedures
    around them (JSON parsing, fetching, error wrapping) are not modelled. */
module Routers {
  import opened Wrappers
  import opened Json
  import Text
  import opened ConfigParser

  // ---------------------------------------------------------------------------
  // Back-filling totalParameters

  /** The condition under which the parse procedures estimate the parameter
      count: none was given, and the layer count and hidden size are both
      truthy. */
  predicate NeedsEstimate(parsed: ParsedModelConfig) {
    !Truthy(parsed.totalParameters) && Truthy(parsed.numLayers) && Truthy(parsed.hiddenSize)
  }

  /** `if (!parsed.totalParameters && parsed.numLayers && parsed.hiddenSize)
      parsed.totalParameters = estimateTotalParameters(parsed)`: a missing
      count is replaced by the estimate, a present one is never overwritten,
      and no other field is touched. */
  function BackFillTotalParameters(parsed: ParsedModelConfig): (r: ParsedModelConfig)
    ensures r == parsed.(totalParameters := r.totalParameters)
    ensures Truthy(parsed.totalParameters) ==> r == parsed
    ensures NeedsEstimate(parsed) ==> r.totalParameters == EstimateTotalParameters(parsed)
    ensures !NeedsEstimate(parsed) ==> r == parsed
    ensures NeedsEstimate(parsed) ==> r.totalParameters.Some?
  {
    if NeedsEstimate(parsed) then parsed.(totalParameters := EstimateTotalParameters(parsed)) else parsed
  }

  /** Back-filling twice is back-filling once: an estimate that is truthy is
      kept, and one that is not (NaN) is recomputed from the same fields. */
  lemma {:induction false} BackFillIdempotent(parsed: ParsedModelConfig)
    ensures BackFillTotalParameters(BackFillTotalParameters(parsed)) == BackFillTotalParameters(parsed)
  {
    var once := BackFillTotalParameters(parsed);
    if NeedsEstimate(once) {
      EstimateReadsLayersAndHiddenSize(once, parsed);
    }
  }

  /** For positive numeric layer counts and hidden sizes a missing parameter
      count is always filled with a positive number. */
  lemma BackFillSupplies(parsed: ParsedModelConfig)
    requires !Truthy(parsed.totalParameters)
    requires parsed.numLayers.Some? && parsed.numLayers.value.Num? && parsed.numLayers.value.n > 0.0
    requires parsed.hiddenSize.Some? && parsed.hiddenSize.value.Num? && parsed.hiddenSize.value.n > 0.0
    ensures var total := BackFillTotalParameters(parsed).totalParameters;
            && Truthy(total) && total.value.Num?
            && total.value.n == TransformerParameters(parsed.numLayers.value.n, parsed.hiddenSize.value.n)
  {
    EstimatePositive(parsed);
  }

  /** The parse procedures as a whole: parse the document (failing on
      `null`), then back-fill the parameter count. */
  function ParseConfigData(json: Value): (r: Result<ParsedModelConfig, ParseError>)
    ensures r.Failure? <==> json == Null
    ensures r.Success? ==> r.value == BackFillTotalParameters(ParseTransformersConfig(json).value)
  {
    var parsed := ParseTransformersConfig(json);
    if parsed.Failure? then Failure(parsed.error) else Success(BackFillTotalParameters(parsed.value))
  }

  /** A document that states its layer count and hidden size under their
      first names but no parameter count comes back with
      `12 · layers · hidden²` parameters. */
  lemma {:induction false} ParseEstimatesMissingCount(json: Value, layers: real, hidden: real)
    requires json.Obj?
    requires Get(json, "num_hidden_layers") == Some(Num(layers)) && layers > 0.0
    requires Get(json, "hidden_size") == Some(Num(hidden)) && hidden > 0.0
    requires !Truthy(Get(json, "num_parameters"))
    ensures ParseConfigData(json).Success?
    ensures ParseConfigData(json).value.totalParameters == Some(Num(TransformerParameters(layers, hidden)))
  {
    var parsed := ParseTransformersConfig(json).value;
    assert FirstTruthyAt(json, LayerKeys, 0);
    assert FirstTruthyAt(json, HiddenSizeKeys, 0);
    BackFillSupplies(parsed);
  }

  // ---------------------------------------------------------------------------
  // Repository URL to config.json URL

  const ModelScopeMarker := "modelscope.cn/models/"
  const HuggingFaceMarker := "huggingface.co/"
  const ConfigFileName := "config.json"
  const ModelScopeSuffix := "/resolve/master/config.json"
  const HuggingFaceSuffix := "/resolve/main/config.json"

  /** `url.replace(/\/$/, '')`: one trailing slash, if there is one, is
      removed; further slashes before it stay. */
  function StripTrailingSlash(url: string): (r: string)
    ensures r == url || r + "/" == url
    ensures r + "/" == url <==> Text.EndsWith(url, "/")
  {
    if url != [] && url[|url| - 1] == '/' then
      assert url[..|url| - 1] + "/" == url;
      url[..|url| - 1]
    else
      url
  }

  /** The rewrite in `fetchFromUrl`: a ModelScope URL (checked first) gets
      `/resolve/master/config.json`, a Hugging Face URL gets
      `/resolve/main/config.json`, each after one trailing slash is dropped
      and only when the URL does not already end in `config.json`; any other
      URL is left as it is. */
  function RewriteConfigUrl(url: string): (r: string)
    ensures !Text.Contains(url, ModelScopeMarker) && !Text.Contains(url, HuggingFaceMarker) ==> r == url
    ensures Text.EndsWith(url, ConfigFileName) ==> r == url
    ensures Text.Contains(url, ModelScopeMarker) && !Text.EndsWith(url, ConfigFileName) ==>
              r == StripTrailingSlash(url) + ModelScopeSuffix
    ensures !Text.Contains(url, ModelScopeMarker) && Text.Contains(url, HuggingFaceMarker)
            && !Text.EndsWith(url, ConfigFileName) ==>
              r == StripTrailingSlash(url) + HuggingFaceSuffix
  {
    if Text.Contains(url, ModelScopeMarker) then
      if Text.EndsWith(url, ConfigFileName) then url else StripTrailingSlash(url) + ModelScopeSuffix
    else if Text.Contains(url, HuggingFaceMarker) then
      if Text.EndsWith(url, ConfigFileName) then url else StripTrailingSlash(url) + HuggingFaceSuffix
    else
      url
  }

  lemma EndsWithConfigFile(prefix: string, host: string)
    ensures Text.EndsWith(prefix + "/resolve/" + host + "/" + ConfigFileName, ConfigFileName)
  {
    Text.EndsWithAppended(prefix + "/resolve/" + host + "/", ConfigFileName);
  }

  /** A URL of either host always comes out naming a `config.json`. */
  lemma {:induction false} RewriteNamesConfigFile(url: string)
    requires Text.Contains(url, ModelScopeMarker) || Text.Contains(url, HuggingFaceMarker)
    ensures Text.EndsWith(RewriteConfigUrl(url), ConfigFileName)
  {
    var base := StripTrailingSlash(url);
    EndsWithConfigFile(base, "master");
    assert base + ModelScopeSuffix == base + "/resolve/" + "master" + "/" + ConfigFileName;
    EndsWithConfigFile(base, "main");
    assert base + HuggingFaceSuffix == base + "/resolve/" + "main" + "/" + ConfigFileName;
  }

  /** Rewriting a rewritten URL changes nothing more. */
  lemma {:induction false} RewriteIdempotent(url: string)
    ensures RewriteConfigUrl(RewriteConfigUrl(url)) == RewriteConfigUrl(url)
  {
    if Text.Contains(url, ModelScopeMarker) || Text.Contains(url, HuggingFaceMarker) {
      RewriteNamesConfigFile(url);
    }
  }

  /** A repository URL and the same URL with one trailing slash give the same
      config URL, as long as the slash does not change which host marker
      the URL contains. */
  lemma {:induction false} RewriteIgnoresOneTrailingSlash(base: string)
    requires Text.Contains(base, ModelScopeMarker) || Text.Contains(base, HuggingFaceMarker)
    requires !Text.EndsWith(base, ConfigFileName) && !Text.EndsWith(base, "/")
    requires Text.Contains(base + "/", ModelScopeMarker) ==> Text.Contains(base, ModelScopeMarker)
    ensures RewriteConfigUrl(base + "/") == RewriteConfigUrl(base)
  {
    var url := base + "/";
    Text.EndsWithAppended(base, "/");
    assert StripTrailingSlash(url) == base;
    assert !Text.EndsWith(url, ConfigFileName) by {
      assert url[|url| - 1] == '/';
    }
    if Text.Contains(base, ModelScopeMarker) {
      Text.ContainsPrefix(base, ModelScopeMarker, "/");
    } else {
      Text.ContainsPrefix(base, HuggingFaceMarker, "/");
    }
  }

  /** Only one slash is stripped: a ModelScope URL ending in two slashes
      keeps one of them in front of the suffix. */
  lemma {:induction false} TwoTrailingSlashesKeepOne(base: string)
    requires Text.Contains(base, ModelScopeMarker)
    ensures RewriteConfigUrl(base + "//") == base + "/" + ModelScopeSuffix
  {
    var url := base + "//";
    Text.ContainsPrefix(base, ModelScopeMarker, "//");
    assert url[|url| - 1] == '/';
    assert url[..|url| - 1] == base + "/";
  }
}
