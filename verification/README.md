# VRAM estimator: a Dafny model

This project models the computational core of a GPU memory (VRAM) estimator
for transformer inference, and proves properties of it. The core has three
parts:

- **The estimator** (`shared/vram-calculator.ts`):
  - a quantization-to-bytes table;
  - the parser for parameter counts such as `"70B"` or `"1.5m"`;
  - the priority chain that classifies attention as MHA, GQA, MQA or UNKNOWN, together with its justification;
  - the model-weight and KV-cache formulas;
  - `estimateVRAM`, which adds an overhead percentage and, given a GPU capacity, derives the GPU count and the average load.
- **The config normaliser** (`shared/config-parser.ts`):
  - turns an untyped Hugging Face / ModelScope `config.json` document into canonical fields, trying an ordered synonym list per field;
  - derives the head dimension when it is missing;
  - reports the missing required fields;
  - offers the `12 · layers · hidden²` parameter-count fallback.
- **The pure decisions in the RPC router** (`server/routers.ts`):
  - back-filling a missing parameter count after parsing;
  - rewriting a model repository URL into the URL of its `config.json`.

The console scenarios of `test-calculator.ts` become lemmas that pin down each
estimate they print.

Modules:

| file | module | contents |
|---|---|---|
| `wrappers.dfy` | `Wrappers` | `Option`, `Result` |
| `text.dfy` | `Text` | `trim`, ASCII `toUpperCase`, decimal digits, `includes`, `endsWith` |
| `real_arith.dfy` | `RealArith` | order and positivity facts about products of reals, used by all the proofs that multiply |
| `json.dfy` | `Json` | JSON values with JavaScript truthiness, property reads and number coercion |
| `vram_calculator.dfy` | `VramCalculator` | `shared/vram-calculator.ts` |
| `config_parser.dfy` | `ConfigParser` | `shared/config-parser.ts` |
| `routers.dfy` | `Routers` | the back-fill rule and the URL rewrite of `server/routers.ts` |
| `scenarios.dfy` | `Scenarios` | the four scenarios of `test-calculator.ts` and worked parser / classifier examples |

Modelling choices:

- Numbers are exact `real`s. GiB is 1024³. `Math.ceil` is `-((-x).Floor)`.
- The JSON document is `Obj(map<string, Value>)`. JavaScript truthiness is explicit: `0`, `NaN`, `""`, `null`, `false` and `undefined` (`None`) are falsy.
- Field lookups follow JavaScript's `||`:
  - a synonym chain `a || b || c` yields the first truthy value. When no key is truthy, it yields the value of the LAST key, so `{"n_layers": 0}` gives `numLayers = 0`, and a document without any layer key gives `undefined`;
  - 0 is skipped in a chain just as `null` is;
  - `validateConfig` reports only undefined and null, so a field that came out as 0 counts as present.
- The model-weight formula reads `totalParameters || 0`: an empty string or a count of 0 gives 0 GB.
- The attention chain ends in one catch-all UNKNOWN branch. Besides `kv > heads`, it also catches `kv ≤ 0` and `0 < kv < 1`. Its displayed reason says "kv > heads" in every one of these cases.
- `requiredGPUs` is `Math.ceil(total / capacity)`. It is 0 for any total in (−capacity, 0].
- The model has three failures:
  - `InvalidFormat`: a parameter-count string that does not match `^([\d.]+)([BMK])?$` after upper-casing and trimming. The source throws an `Error` for it.
  - `NotANumber`: a matching string whose number part `parseFloat` cannot read (`"."`, `".."`). The source returns NaN for it; see "## Left out".
  - `NullDocument`: `parseTransformersConfig(null)`. The source throws a `TypeError` on its first property read.
- `parseFloat` is modelled exactly on the strings that regular expression admits: the longest prefix of the form digits, dot, digits.

## Model

| member | source | states |
|---|---|---|
| VramCalculator.BytesPerParameter | shared/vram-calculator.ts:50-59 | 2 bytes exactly for FP16/BF16, 1 exactly for FP8/INT8, 0.5 exactly for INT4; always in (0, 2] |
| VramCalculator.MatchCount | shared/vram-calculator.ts:72 | a match splits the string into a non-empty run of digits and dots followed by an optional B/M/K |
| VramCalculator.MatchCountComplete | shared/vram-calculator.ts:72 | every string of the pattern's language matches, with exactly the split the regular expression gives |
| VramCalculator.LeadingDigits | shared/vram-calculator.ts:77 | the longest run of decimal digits the string starts with |
| VramCalculator.ParseDecimal | shared/vram-calculator.ts:77 | `parseFloat` is NaN exactly for the empty string, or a dot not followed by a digit |
| VramCalculator.ApplyUnit | shared/vram-calculator.ts:80-89 | B multiplies by 10⁹, M by 10⁶, K by 10³, no unit leaves the value as it is; so a non-negative value never decreases |
| VramCalculator.ParseParameterCount | shared/vram-calculator.ts:64-90 | numbers pass through; a string fails with InvalidFormat exactly when its upper-cased, trimmed form does not match; a matching string gives its `parseFloat` value scaled by its unit, or NotANumber when `parseFloat` finds no number; every error names the input |
| VramCalculator.ParseWholeCount | shared/vram-calculator.ts:64-90 | digits followed by an optional unit parse to their decimal value times the unit |
| VramCalculator.ParseFractionalCount | shared/vram-calculator.ts:64-90 | `w.f` followed by an optional unit parses to the decimal `w.f` times the unit |
| VramCalculator.ParseWritten | shared/vram-calculator.ts:69-89 | a matching string whose number part reads as v parses to v times its unit |
| VramCalculator.NormalizeWritten | shared/vram-calculator.ts:69 | upper-casing and trimming leave a string of the pattern's language unchanged |
| VramCalculator.NormalizeLoose | shared/vram-calculator.ts:69 | a count with a unit in either case, surrounded by whitespace, upper-cases and trims to its canonical form |
| VramCalculator.ParseLoose | shared/vram-calculator.ts:64-90 | the parse is case-insensitive and ignores surrounding whitespace: such a count parses to its number part scaled by the upper-cased unit |
| VramCalculator.ParseUnreadable | shared/vram-calculator.ts:72-77 | a matching string whose number part `parseFloat` cannot read is refused as NotANumber, not as InvalidFormat |
| VramCalculator.ParseRenderedCount | shared/vram-calculator.ts:64-90 | round trip: any natural number written in decimal, with any unit, parses back to that number times the unit |
| VramCalculator.DetermineAttentionType | shared/vram-calculator.ts:95-146 | the priority chain: no heads gives UNKNOWN; no KV heads gives MHA; MHA iff kv is absent or equals heads (so 1/1 is MHA); MQA iff kv = 1 ≠ heads; GQA iff 1 < kv < heads; the reason matches each branch |
| VramCalculator.ReasonText | shared/vram-calculator.ts:102-145 | the displayed reason for equal counts, grouped KV heads or an invalid configuration quotes both the KV-head and the head count |
| VramCalculator.ReasonQuotesHeadCounts | shared/vram-calculator.ts:118-145 | outside MQA, with both counts known, the displayed justification quotes both numbers |
| VramCalculator.CalculateModelMemory | shared/vram-calculator.ts:151-160 | a falsy count gives 0; a parse failure is passed on unchanged; otherwise memory × 1024³ = count × 2, × 1 or × 0.5 by precision |
| VramCalculator.WeightBytesIsProduct | shared/vram-calculator.ts:152-156 | the weight bytes are the parameter count times the bytes per parameter |
| VramCalculator.ModelMemoryScalesWithPrecision | shared/vram-calculator.ts:151-160 | all precisions succeed or fail together; FP16 = BF16 = 2 × INT8 = 2 × FP8 = 4 × INT4 |
| VramCalculator.ModelMemoryIgnoresWorkload | shared/vram-calculator.ts:151-160 | model memory depends only on the parameter count and the precision |
| VramCalculator.CalculateKvCache | shared/vram-calculator.ts:165-230 | a falsy layer count or head dimension gives 0 with the explanation and no values; UNKNOWN gives 0 with its explanation; otherwise the symbolic formula of the type, the six substituted numbers with the effective KV heads, and a size × 1024³ equal to what the substitution evaluates to |
| VramCalculator.SubstitutionText | shared/vram-calculator.ts:181-223 | `formulaWithValues` is empty exactly on the paths that compute nothing; otherwise it quotes all six numbers the size is computed from and ends in " bytes" |
| VramCalculator.EvaluateGrowsWithBatchSize | shared/vram-calculator.ts:219 | with the other factors positive, a larger batch gives strictly more bytes |
| VramCalculator.EvaluateGrowsWithSeqLength | shared/vram-calculator.ts:219 | with the other factors positive, a longer sequence gives strictly more bytes |
| VramCalculator.KvCacheGrowsWithBatchSize | shared/vram-calculator.ts:194-220 | a larger batch strictly increases the KV cache when layers, head dimension, sequence length and effective heads are positive |
| VramCalculator.KvCacheGrowsWithSeqLength | shared/vram-calculator.ts:194-220 | a longer sequence strictly increases the KV cache under the same conditions |
| VramCalculator.OverheadPercent | shared/vram-calculator.ts:245 | only an absent percentage defaults to 20; an explicit 0 is kept |
| VramCalculator.Ceil | shared/vram-calculator.ts:255 | `Math.ceil`: x ≤ ceil(x) < x + 1 |
| VramCalculator.GpuRequirements | shared/vram-calculator.ts:250-257 | GPU fields only for a given positive capacity; then (n − 1) · cap < total ≤ n · cap, and load · n · cap = total · 100 whenever n ≠ 0 |
| VramCalculator.SystemOverhead | shared/vram-calculator.ts:246 | overhead × 100 = model memory × percentage |
| VramCalculator.EstimateVram | shared/vram-calculator.ts:235-272 | fails exactly when model memory fails, with the same error; otherwise the classification, model memory, KV cache and formulas of the parts, overhead on model memory only, total = sum of the three, the GPU fields for that total, and the capacity echoed |
| VramCalculator.LoadWithinCapacity | shared/vram-calculator.ts:254-256 | positive total and capacity: at least one GPU, and 0 < load ≤ 100 |
| VramCalculator.EstimateLoadWithinCapacity | shared/vram-calculator.ts:235-272 | an estimate with a positive total and a positive capacity needs at least one GPU, loaded above 0 and at most 100 percent |
| ConfigParser.OrChain | shared/config-parser.ts:48-70 | `a \|\| b \|\| …`: the first truthy synonym's value; the last synonym's value when none is truthy; truthy iff some synonym is |
| ConfigParser.ModelName | shared/config-parser.ts:36 | `_name_or_path`, else `model_type`, else "Unknown Model"; always truthy |
| ConfigParser.FloorDivide | shared/config-parser.ts:77 | `Math.floor(h / n)`: a whole number r with r ≤ h / n < r + 1 when both are numbers; a number or NaN in any case |
| ConfigParser.HeadDim | shared/config-parser.ts:73-78 | an explicit truthy `head_dim` wins; else the floor quotient when hidden size and heads are truthy; else absent |
| ConfigParser.ParseTransformersConfig | shared/config-parser.ts:30-81 | fails only on null; rawConfig is the document; modelName is the `ModelName` choice and truthy; numLayers, hiddenSize, numAttentionHeads and numKvHeads are the `OrChain` of their synonyms, so the last synonym's value (undefined, null, 0, …) when none is truthy; architectures and modelType read as is; totalParameters set exactly from a truthy `num_parameters`; each field truthy iff one of its synonyms is, and equal to the first truthy synonym; headDim by the rule above |
| ConfigParser.OrChainReadsOnlyItsKeys | shared/config-parser.ts:48-70 | a synonym chain depends on its own keys only |
| ConfigParser.ParseReadsOnlyRecognizedKeys | shared/config-parser.ts:30-81 | two documents that agree on the 18 recognised keys parse to the same record, up to rawConfig |
| ConfigParser.DerivedHeadDimIsExact | shared/config-parser.ts:73-78 | for hidden = heads · d, the derived head dimension is exactly d, the same as stating it |
| ConfigParser.MissingAmong | shared/config-parser.ts:98-103 | a name is reported iff it is requested and its field is undefined or null |
| ConfigParser.ValidateConfig | shared/config-parser.ts:86-109 | the loop collects exactly the undefined or null required fields, in order; valid iff none is missing |
| ConfigParser.MissingFieldsInOrder | shared/config-parser.ts:90-103 | the report is numLayers, numAttentionHeads, headDim, each present exactly when that field is undefined or null (0 counts as present) |
| ConfigParser.ValidIffRequiredPresent | shared/config-parser.ts:105-108 | valid iff layers, heads and head dimension are all neither undefined nor null |
| ConfigParser.EstimateTotalParameters | shared/config-parser.ts:115-128 | undefined iff layers or hidden size is falsy; otherwise 12 · layers · hidden² for numbers, and a number or NaN for other values (`true` counts as 1; strings, arrays and objects give NaN) |
| ConfigParser.EstimateReadsLayersAndHiddenSize | shared/config-parser.ts:115-128 | the estimate depends only on the layer count and hidden size; the head count plays no part |
| ConfigParser.EstimatePositive | shared/config-parser.ts:115-128 | positive numeric layers and hidden size give a positive, hence truthy, estimate |
| ConfigParser.EstimateQuadraticInHiddenSize | shared/config-parser.ts:125 | doubling the hidden size quadruples the estimate |
| Routers.BackFillTotalParameters | server/routers.ts:57-59 | only totalParameters may change; a truthy count is never overwritten; the estimate is filled in exactly when the count is falsy and layers and hidden size are truthy |
| Routers.BackFillIdempotent | server/routers.ts:105-107 | back-filling twice is back-filling once |
| Routers.BackFillSupplies | server/routers.ts:57-59 | with positive numeric layers and hidden size, a missing count becomes the positive number 12 · layers · hidden² |
| Routers.ParseConfigData | server/routers.ts:53-59 | parse then back-fill; fails exactly on a null document |
| Routers.ParseEstimatesMissingCount | server/routers.ts:53-59 | a document that gives `num_hidden_layers` and `hidden_size` but no parameter count comes back with 12 · layers · hidden² |
| Routers.StripTrailingSlash | server/routers.ts:86 | `replace(/\/$/, '')`: removes one trailing slash exactly when there is one |
| Routers.RewriteConfigUrl | server/routers.ts:79-94 | no marker: unchanged; ends in config.json: unchanged; ModelScope marker (checked first): strip + `/resolve/master/config.json`; Hugging Face only: strip + `/resolve/main/config.json` |
| Routers.RewriteNamesConfigFile | server/routers.ts:82-93 | a URL of either host always comes out ending in config.json |
| Routers.RewriteIdempotent | server/routers.ts:79-94 | rewriting a rewritten URL changes nothing |
| Routers.RewriteIgnoresOneTrailingSlash | server/routers.ts:86 | a repository URL with and without one trailing slash gives the same config URL |
| Routers.TwoTrailingSlashesKeepOne | server/routers.ts:86 | only one slash is stripped: `base//` gives `base/` + suffix |
| Scenarios.SeventyBillion | shared/vram-calculator.ts:64-90 | "70B" parses to 7 · 10¹⁰ |
| Scenarios.OnePointFiveBillion | shared/vram-calculator.ts:64-90 | "1.5B" parses to 1.5 · 10⁹ |
| Scenarios.PaddedLowerCase | shared/vram-calculator.ts:64-90 | " 1.5b " parses to 1.5 · 10⁹ |
| Scenarios.LettersAreRefused | shared/vram-calculator.ts:72-75 | a count that starts and ends with a lower-case letter, such as "abc", is refused as InvalidFormat |
| Scenarios.LoneDotIsNotANumber | shared/vram-calculator.ts:77 | "." with or without a unit is NotANumber |
| Scenarios.AttentionExamples | shared/vram-calculator.ts:95-146 | 64/8 is GQA, 96/96 MHA, 32/1 MQA, 1/1 MHA, 40/none MHA by default, none/8 UNKNOWN, 8/64 and 8/0 UNKNOWN |
| Scenarios.Case1GroupedQueryAtInt4 | test-calculator.ts:8-31 | GQA with reason (8, 64); weights 35 · 10⁹ bytes; KV cache exactly 10 GB with the GQA formula and values (32, 4096, 80, 8, 128, 0.5); overhead 7 · 10⁹ bytes; one 80 GB GPU |
| Scenarios.Case1AverageLoad | test-calculator.ts:29 | the average load of the one 80 GB GPU in the first scenario is 65921772800 / 1024³ percent, about 61.39 % |
| Scenarios.Case2FullAttentionAtFp16 | test-calculator.ts:36-53 | MHA (96 = 96); weights 350 · 10⁹ bytes; KV cache 72 GB; twelve 40 GB GPUs |
| Scenarios.Case3SingleKvHeadAtBf16 | test-calculator.ts:57-74 | MQA; weights 14 · 10⁹ bytes; KV cache 2 GB; one 24 GB GPU |
| Scenarios.Case4MissingKvHeadsIsFullAttention | test-calculator.ts:78-94 | MHA by default with the 40 query heads as KV heads; KV cache 6.25 GB; no GPU fields without a capacity |
| Scenarios.GpuCountUnique | shared/vram-calculator.ts:255 | the GPU count is the only whole n with (n − 1) · cap < total ≤ n · cap |

## Left out

- Floating point: arithmetic is exact. Rounding, `Infinity` and the `toFixed` display of the scenarios are not modelled. The scenario lemmas state exact values, such as a KV cache of exactly 10 GB.
- VramCalculator.GpuRequirements: when the GPU count is 0, the model leaves the average load undefined (`None`). That happens for any total in (−capacity, 0]. There the source divides by a zero GPU count: a total of 0 gives NaN, and a negative total gives an infinite load. The load bounds assume a positive total.
- VramCalculator.ParseParameterCount: where `parseFloat` of the number part is NaN (`"."`, `"..5"`), the source goes on to return NaN; the model returns the error `NotANumber` instead.
- VramCalculator.ParseParameterCount: `toUpperCase` is modelled on ASCII letters only. No other character upper-cases into `[0-9.BMK]`, so which strings match is unchanged. Trimming uses ECMAScript's full WhiteSpace and LineTerminator set.
- Json.ToNumber: arithmetic on a string, array or object field is modelled as NaN. JavaScript would coerce numeric strings such as `"4096"` to numbers. `true` is 1.
- VramCalculator.ReasonText and VramCalculator.SubstitutionText: the rendering of a JavaScript number inside a template literal is a parameter (`show`), not modelled.
- The `fetch`, `response.json()` and `JSON.parse` calls, the try/catch wrapping and the RPC responses of server/routers.ts: these are network I/O and a foreign parser. Their outputs are inputs to the model.
- The database, authentication, history and GPU procedures of server/routers.ts, the React client, and the GPU import scripts: not part of this model.
- The monotonicity of the KV cache in the batch size and the sequence length is proved for CalculateKvCache, not restated for the whole estimate. EstimateVram's contract gives `kvCacheGB` as the KV cache of the same configuration, and ModelMemoryIgnoresWorkload shows that model memory does not change.
