/** `shared/config-parser.ts`: a Hugging Face / ModelScope `config.json`
    document normalised into the fields the estimator needs, the check for
    the fields an estimate cannot do without, and the rough parameter-count
    fallback. */
module ConfigParser {
  import opened Wrappers
  import opened Json
  import RealArith

  /** `ParsedModelConfig`. Every field but `modelName` and `rawConfig` is
      optional; `None` is `undefined`, and a field read from the document
      keeps whatever JSON value it had (the declared TypeScript types are not
      enforced at run time). */
  datatype ParsedModelConfig = ParsedModelConfig(
    modelName: Value,
    totalParameters: Option<Value>,
    numLayers: Option<Value>,
    hiddenSize: Option<Value>,
    numAttentionHeads: Option<Value>,
    numKvHeads: Option<Value>,
    headDim: Option<Value>,
    architectures: Option<Value>,
    modelType: Option<Value>,
    rawConfig: Value)

  /** Reading a property of `null` throws a `TypeError`. */
  datatype ParseError = NullDocument

  // ---------------------------------------------------------------------------
  // The synonym lists, in the order they are tried

  const LayerKeys: seq<string> := ["num_hidden_layers", "n_layer", "num_layers", "n_layers"]
  const HiddenSizeKeys: seq<string> := ["hidden_size", "n_embd", "d_model"]
  const HeadKeys: seq<string> := ["num_attention_heads", "n_head", "num_heads"]
  const KvHeadKeys: seq<string> := ["num_key_value_heads", "num_kv_heads", "n_head_kv"]

  /** Every key the parser reads. */
  const RecognizedKeys: seq<string> :=
    ["_name_or_path", "model_type", "architectures", "num_parameters", "head_dim"]
    + LayerKeys + HiddenSizeKeys + HeadKeys + KvHeadKeys

  /** The first key of `keys` whose value in `json` is truthy. */
  predicate FirstTruthyAt(json: Value, keys: seq<string>, i: int) {
    0 <= i < |keys| && Truthy(Get(json, keys[i]))
    && forall j :: 0 <= j < i ==> !Truthy(Get(json, keys[j]))
  }

  /** `json.k0 || json.k1 || ... || json.kn`: the first truthy value, and
      when there is none, the value of the LAST key (which may be a falsy
      value such as 0 or null, or `undefined`). */
  function OrChain(json: Value, keys: seq<string>): (r: Option<Value>)
    requires |keys| > 0
    ensures forall i :: FirstTruthyAt(json, keys, i) ==> r == Get(json, keys[i])
    ensures (forall i :: 0 <= i < |keys| ==> !Truthy(Get(json, keys[i]))) ==> r == Get(json, keys[|keys| - 1])
    ensures Truthy(r) <==> exists i :: 0 <= i < |keys| && Truthy(Get(json, keys[i]))
  {
    if |keys| == 1 || Truthy(Get(json, keys[0])) then
      Get(json, keys[0])
    else
      var r := OrChain(json, keys[1..]);
      assert forall i :: FirstTruthyAt(json, keys, i) ==> i > 0 && FirstTruthyAt(json, keys[1..], i - 1);
      assert forall i :: 0 < i < |keys| ==> keys[1..][i - 1] == keys[i];
      r
  }

  /** `_name_or_path || model_type || 'Unknown Model'`. */
  function ModelName(json: Value): (r: Value)
    ensures TruthyValue(r)
    ensures Truthy(Get(json, "_name_or_path")) ==> r == Get(json, "_name_or_path").value
    ensures !Truthy(Get(json, "_name_or_path")) && Truthy(Get(json, "model_type")) ==> r == Get(json, "model_type").value
    ensures !Truthy(Get(json, "_name_or_path")) && !Truthy(Get(json, "model_type")) ==> r == Str("Unknown Model")
  {
    var name := Get(json, "_name_or_path");
    var kind := Get(json, "model_type");
    if Truthy(name) then name.value else if Truthy(kind) then kind.value else Str("Unknown Model")
  }

  /** `Math.floor(hidden / heads)` on two truthy values: the integer part
      of the quotient towards minus infinity, or NaN as soon as either value
      is not a number. */
  function FloorDivide(hidden: Value, heads: Value): (r: Value)
    requires TruthyValue(hidden) && TruthyValue(heads)
    ensures r.Num? || r == NaN
    ensures hidden.Num? && heads.Num? ==>
              r.Num? && r.n.Floor as real == r.n && r.n <= hidden.n / heads.n < r.n + 1.0
  {
    match (ToNumber(hidden), ToNumber(heads))
    case (Finite(h), Finite(n)) => Num((h / n).Floor as real)
    case _ => NaN
  }

  /** The head dimension: an explicit truthy `head_dim` wins; otherwise
      `floor(hiddenSize / numAttentionHeads)` when both are truthy;
      otherwise absent. */
  function HeadDim(json: Value, hidden: Option<Value>, heads: Option<Value>): (r: Option<Value>)
    ensures Truthy(Get(json, "head_dim")) ==> r == Get(json, "head_dim")
    ensures !Truthy(Get(json, "head_dim")) && Truthy(hidden) && Truthy(heads) ==>
              r == Some(FloorDivide(hidden.value, heads.value))
    ensures !Truthy(Get(json, "head_dim")) && !(Truthy(hidden) && Truthy(heads)) ==> r.None?
  {
    var explicit := Get(json, "head_dim");
    if Truthy(explicit) then explicit
    else if Truthy(hidden) && Truthy(heads) then Some(FloorDivide(hidden.value, heads.value))
    else None
  }

  /** `parseTransformersConfig`: a fresh record of the recognised fields,
      each read by its synonym list, and the document itself as
      `rawConfig`. Only a `null` document fails. */
  function ParseTransformersConfig(json: Value): (r: Result<ParsedModelConfig, ParseError>)
    ensures r.Failure? <==> json == Null
    ensures r.Success? ==>
              var c := r.value;
              && c.rawConfig == json
              && c.modelName == ModelName(json) && TruthyValue(c.modelName)
              && c.numLayers == OrChain(json, LayerKeys)
              && c.hiddenSize == OrChain(json, HiddenSizeKeys)
              && c.numAttentionHeads == OrChain(json, HeadKeys)
              && c.numKvHeads == OrChain(json, KvHeadKeys)
              && c.architectures == Get(json, "architectures")
              && c.modelType == Get(json, "model_type")
              && (c.totalParameters.Some? ==> Truthy(c.totalParameters))
              && (Truthy(Get(json, "num_parameters")) <==> c.totalParameters.Some?)
              && (c.totalParameters.Some? ==> c.totalParameters == Get(json, "num_parameters"))
              && (Truthy(c.numLayers) <==> exists i :: 0 <= i < |LayerKeys| && Truthy(Get(json, LayerKeys[i])))
              && (Truthy(c.hiddenSize) <==> exists i :: 0 <= i < |HiddenSizeKeys| && Truthy(Get(json, HiddenSizeKeys[i])))
              && (Truthy(c.numAttentionHeads) <==> exists i :: 0 <= i < |HeadKeys| && Truthy(Get(json, HeadKeys[i])))
              && (Truthy(c.numKvHeads) <==> exists i :: 0 <= i < |KvHeadKeys| && Truthy(Get(json, KvHeadKeys[i])))
              && (forall i :: FirstTruthyAt(json, LayerKeys, i) ==> c.numLayers == Get(json, LayerKeys[i]))
              && (forall i :: FirstTruthyAt(json, HiddenSizeKeys, i) ==> c.hiddenSize == Get(json, HiddenSizeKeys[i]))
              && (forall i :: FirstTruthyAt(json, HeadKeys, i) ==> c.numAttentionHeads == Get(json, HeadKeys[i]))
              && (forall i :: FirstTruthyAt(json, KvHeadKeys, i) ==> c.numKvHeads == Get(json, KvHeadKeys[i]))
              && c.headDim == HeadDim(json, c.hiddenSize, c.numAttentionHeads)
  {
    if json == Null then Failure(NullDocument)
    else
      var total := if Truthy(Get(json, "num_parameters")) then Get(json, "num_parameters") else None;
      var hidden := OrChain(json, HiddenSizeKeys);
      var heads := OrChain(json, HeadKeys);
      Success(ParsedModelConfig(
        modelName := ModelName(json),
        totalParameters := total,
        numLayers := OrChain(json, LayerKeys),
        hiddenSize := hidden,
        numAttentionHeads := heads,
        numKvHeads := OrChain(json, KvHeadKeys),
        headDim := HeadDim(json, hidden, heads),
        architectures := Get(json, "architectures"),
        modelType := Get(json, "model_type"),
        rawConfig := json))
  }

  // ---------------------------------------------------------------------------
  // What the parser reads

  /** Two documents give the same value for every key in `keys`. */
  predicate AgreeOn(a: Value, b: Value, keys: seq<string>) {
    forall i :: 0 <= i < |keys| ==> Get(a, keys[i]) == Get(b, keys[i])
  }

  lemma {:induction false} OrChainReadsOnlyItsKeys(a: Value, b: Value, keys: seq<string>)
    requires |keys| > 0 && AgreeOn(a, b, keys)
    ensures OrChain(a, keys) == OrChain(b, keys)
  {
    assert Get(a, keys[0]) == Get(b, keys[0]);
    if |keys| > 1 && !Truthy(Get(a, keys[0])) {
      assert AgreeOn(a, b, keys[1..]) by {
        forall i | 0 <= i < |keys[1..]| ensures Get(a, keys[1..][i]) == Get(b, keys[1..][i]) {
          assert keys[1..][i] == keys[i + 1];
        }
      }
      OrChainReadsOnlyItsKeys(a, b, keys[1..]);
    }
  }

  lemma AgreeOnPart(a: Value, b: Value, keys: seq<string>, lo: nat, hi: nat)
    requires lo <= hi <= |keys| && AgreeOn(a, b, keys)
    ensures AgreeOn(a, b, keys[lo..hi])
  {
    forall i | 0 <= i < hi - lo ensures Get(a, keys[lo..hi][i]) == Get(b, keys[lo..hi][i]) {
      assert keys[lo..hi][i] == keys[lo + i];
    }
  }

  /** The parser reads nothing but the recognised keys: two non-null
      documents that agree on all of them parse to the same record, up to
      `rawConfig`. */
  lemma {:induction false} ParseReadsOnlyRecognizedKeys(a: Value, b: Value)
    requires a != Null && b != Null && AgreeOn(a, b, RecognizedKeys)
    ensures ParseTransformersConfig(a).Success? && ParseTransformersConfig(b).Success?
    ensures ParseTransformersConfig(a).value == ParseTransformersConfig(b).value.(rawConfig := a)
  {
    AgreeOnEachList(a, b);
    OrChainReadsOnlyItsKeys(a, b, LayerKeys);
    OrChainReadsOnlyItsKeys(a, b, HiddenSizeKeys);
    OrChainReadsOnlyItsKeys(a, b, HeadKeys);
    OrChainReadsOnlyItsKeys(a, b, KvHeadKeys);
  }

  lemma AgreeOnEachList(a: Value, b: Value)
    requires AgreeOn(a, b, RecognizedKeys)
    ensures Get(a, "_name_or_path") == Get(b, "_name_or_path")
    ensures Get(a, "model_type") == Get(b, "model_type")
    ensures Get(a, "architectures") == Get(b, "architectures")
    ensures Get(a, "num_parameters") == Get(b, "num_parameters")
    ensures Get(a, "head_dim") == Get(b, "head_dim")
    ensures AgreeOn(a, b, LayerKeys) && AgreeOn(a, b, HiddenSizeKeys)
    ensures AgreeOn(a, b, HeadKeys) && AgreeOn(a, b, KvHeadKeys)
  {
    var k := RecognizedKeys;
    assert k[0] == "_name_or_path" && k[1] == "model_type" && k[2] == "architectures";
    assert k[3] == "num_parameters" && k[4] == "head_dim";
    AgreeOnPart(a, b, k, 5, 9);
    assert k[5..9] == LayerKeys;
    AgreeOnPart(a, b, k, 9, 12);
    assert k[9..12] == HiddenSizeKeys;
    AgreeOnPart(a, b, k, 12, 15);
    assert k[12..15] == HeadKeys;
    AgreeOnPart(a, b, k, 15, 18);
    assert k[15..18] == KvHeadKeys;
  }

  /** A derived head dimension is exact when the hidden size is a whole
      multiple of the head count: `hidden = heads · d` gives `d`, the same as
      stating `head_dim: d` outright. */
  lemma DerivedHeadDimIsExact(heads: nat, d: nat)
    requires heads > 0 && d > 0
    ensures FloorDivide(Num((heads * d) as real), Num(heads as real)) == Num(d as real)
  {
    var h := (heads * d) as real;
    assert h == heads as real * d as real;
    assert h / heads as real == d as real;
  }

  // ---------------------------------------------------------------------------
  // validateConfig

  /** The fields an estimate cannot do without, in the order they are
      reported. */
  const RequiredFields: seq<string> := ["numLayers", "numAttentionHeads", "headDim"]

  /** `config[field]`: `None` is `undefined`. */
  function Field(config: ParsedModelConfig, name: string): Option<Value> {
    match name
    case "modelName" => Some(config.modelName)
    case "totalParameters" => config.totalParameters
    case "numLayers" => config.numLayers
    case "hiddenSize" => config.hiddenSize
    case "numAttentionHeads" => config.numAttentionHeads
    case "numKvHeads" => config.numKvHeads
    case "headDim" => config.headDim
    case "architectures" => config.architectures
    case "modelType" => config.modelType
    case "rawConfig" => Some(config.rawConfig)
    case _ => None
  }

  /** The fields among `names` that are `undefined` or `null`, in order. */
  function MissingAmong(config: ParsedModelConfig, names: seq<string>): (r: seq<string>)
    ensures |r| <= |names|
    ensures forall f :: f in r <==> f in names && Nullish(Field(config, f))
  {
    if names == [] then []
    else
      var rest := MissingAmong(config, names[..|names| - 1]);
      var last := names[|names| - 1];
      assert names == names[..|names| - 1] + [last];
      if Nullish(Field(config, last)) then rest + [last] else rest
  }

  /** `validateConfig`: walks the required fields in order and collects
      those that are `undefined` or `null` (0 and other falsy values count as
      present); the config is valid exactly when none is missing. */
  method ValidateConfig(config: ParsedModelConfig) returns (valid: bool, missingFields: seq<string>)
    ensures missingFields == MissingAmong(config, RequiredFields)
    ensures forall f :: f in missingFields <==> f in RequiredFields && Nullish(Field(config, f))
    ensures valid <==> missingFields == []
  {
    missingFields := [];
    for i := 0 to |RequiredFields|
      invariant missingFields == MissingAmong(config, RequiredFields[..i])
    {
      var field := RequiredFields[i];
      assert RequiredFields[..i + 1][..i] == RequiredFields[..i];
      if Nullish(Field(config, field)) {
        missingFields := missingFields + [field];
      }
    }
    assert RequiredFields[..|RequiredFields|] == RequiredFields;
    valid := |missingFields| == 0;
  }

  /** Validity in the record's own terms: the layer count, the head count
      and the head dimension are all neither `undefined` nor `null`. */
  lemma ValidIffRequiredPresent(config: ParsedModelConfig)
    ensures MissingAmong(config, RequiredFields) == []
        <==> !Nullish(config.numLayers) && !Nullish(config.numAttentionHeads) && !Nullish(config.headDim)
  {
    var one := MissingAmong(config, RequiredFields[..1]);
    var two := MissingAmong(config, RequiredFields[..2]);
    assert RequiredFields[..1][..0] == [];
    assert RequiredFields[..2][..1] == RequiredFields[..1];
    assert RequiredFields[..3] == RequiredFields;
    assert one == [] <==> !Nullish(config.numLayers);
    assert two == [] <==> one == [] && !Nullish(config.numAttentionHeads);
  }

  /** The report lists exactly the missing required fields, in the order
      numLayers, numAttentionHeads, headDim. */
  lemma MissingFieldsInOrder(config: ParsedModelConfig)
    ensures MissingAmong(config, RequiredFields)
         == (if Nullish(config.numLayers) then ["numLayers"] else [])
          + (if Nullish(config.numAttentionHeads) then ["numAttentionHeads"] else [])
          + (if Nullish(config.headDim) then ["headDim"] else [])
  {
    var layers := if Nullish(config.numLayers) then ["numLayers"] else [];
    var heads := if Nullish(config.numAttentionHeads) then ["numAttentionHeads"] else [];
    var headDim := if Nullish(config.headDim) then ["headDim"] else [];
    assert RequiredFields[..1][..0] == [] && RequiredFields[..1][0] == "numLayers";
    assert MissingAmong(config, RequiredFields[..1]) == layers;
    assert RequiredFields[..2][..1] == RequiredFields[..1] && RequiredFields[..2][1] == "numAttentionHeads";
    assert MissingAmong(config, RequiredFields[..2]) == layers + heads;
    assert RequiredFields[..2] == RequiredFields[..|RequiredFields| - 1];
    assert MissingAmong(config, RequiredFields) == layers + heads + headDim;
  }

  // ---------------------------------------------------------------------------
  // estimateTotalParameters

  /** The transformer rule of thumb `12 · layers · hidden²`. */
  function TransformerParameters(layers: real, hidden: real): real {
    12.0 * layers * RealArith.Product(hidden, hidden)
  }

  /** `estimateTotalParameters`: `undefined` unless the layer count and the
      hidden size are both truthy, otherwise `12 · layers · hidden²` (NaN when
      either is not a number). The head count plays no part. */
  function EstimateTotalParameters(config: ParsedModelConfig): (r: Option<Value>)
    ensures r.None? <==> !Truthy(config.numLayers) || !Truthy(config.hiddenSize)
    ensures r.Some? ==> r.value.Num? || r.value == NaN
    ensures r.Some? && config.numLayers.value.Num? && config.hiddenSize.value.Num? ==>
              r.value == Num(TransformerParameters(config.numLayers.value.n, config.hiddenSize.value.n))
  {
    if !Truthy(config.numLayers) || !Truthy(config.hiddenSize) then None
    else
      match (ToNumber(config.numLayers.value), ToNumber(config.hiddenSize.value))
      case (Finite(l), Finite(h)) => Some(Num(TransformerParameters(l, h)))
      case _ => Some(NaN)
  }

  /** The estimate reads the layer count and the hidden size and nothing
      else: the head count in particular plays no part. */
  lemma EstimateReadsLayersAndHiddenSize(a: ParsedModelConfig, b: ParsedModelConfig)
    requires a.numLayers == b.numLayers && a.hiddenSize == b.hiddenSize
    ensures EstimateTotalParameters(a) == EstimateTotalParameters(b)
  {
  }

  /** The estimate is positive, hence truthy, for positive numeric layer
      counts and hidden sizes. */
  lemma EstimatePositive(config: ParsedModelConfig)
    requires config.numLayers.Some? && config.numLayers.value.Num? && config.numLayers.value.n > 0.0
    requires config.hiddenSize.Some? && config.hiddenSize.value.Num? && config.hiddenSize.value.n > 0.0
    ensures var r := EstimateTotalParameters(config); r.Some? && r.value.Num? && r.value.n > 0.0
    ensures Truthy(EstimateTotalParameters(config))
  {
    TransformerParametersPositive(config.numLayers.value.n, config.hiddenSize.value.n);
  }

  lemma TransformerParametersPositive(layers: real, hidden: real)
    requires layers > 0.0 && hidden > 0.0
    ensures TransformerParameters(layers, hidden) > 0.0
  {
    RealArith.ProductPositive(hidden, hidden);
    RealArith.ProductPositive(12.0 * layers, RealArith.Product(hidden, hidden));
  }

  /** Doubling the hidden size quadruples the estimate. */
  lemma EstimateQuadraticInHiddenSize(config: ParsedModelConfig)
    requires Truthy(config.numLayers) && Truthy(config.hiddenSize)
    requires config.numLayers.value.Num? && config.hiddenSize.value.Num?
    ensures var doubled := config.(hiddenSize := Some(Num(2.0 * config.hiddenSize.value.n)));
            EstimateTotalParameters(doubled).value.n == 4.0 * EstimateTotalParameters(config).value.n
  {
    var h := config.hiddenSize.value.n;
    assert RealArith.Product(2.0 * h, 2.0 * h) == 4.0 * RealArith.Product(h, h);
  }
}
