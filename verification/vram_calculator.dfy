/** The VRAM estimator of shared/vram-calculator.ts: bytes per parameter for
    each quantization, the parser for human-readable parameter counts, the
    attention-type priority chain, the model-weight and KV-cache formulas, and
    the estimate that adds a percentage overhead and sizes a GPU count.
    Numbers are exact reals; 1 GB here is 1024^3 bytes, as in the source. */
module VramCalculator {
  import opened Wrappers
  import Text
  import Json
  import RealArith

  datatype AttentionType = MHA | GQA | MQA | UNKNOWN

  datatype Quantization = FP16 | BF16 | FP8 | INT8 | INT4

  /** `totalParameters: number | string`. */
  datatype ParamCount = Count(n: real) | CountText(s: string)

  /** The estimator's input: model parameters (each may be `undefined` or
      `null`, both `None` here, as every use treats them alike) and the
      inference workload. */
  datatype ModelConfig = ModelConfig(
    totalParameters: Option<ParamCount>,
    numLayers: Option<real>,
    hiddenSize: Option<real>,
    numAttentionHeads: Option<real>,
    numKvHeads: Option<real>,
    headDim: Option<real>,
    quantization: Quantization,
    batchSize: real,
    seqLength: real,
    systemOverheadPercent: Option<real>)

  /** Why a parameter-count string was refused. `InvalidFormat` is the thrown
      "Invalid parameter count format" error; `NotANumber` is the string whose
      number part `parseFloat` cannot read. */
  datatype ParseError = InvalidFormat(input: string) | NotANumber(input: string)

  /** The justification that goes with each attention classification; the
      numbers are the ones the source interpolates into the message. */
  datatype Reason =
    | HeadsMissing
    | KvHeadsMissing
    | KvEqualsHeads(kv: real, heads: real)
    | SingleKvHead
    | GroupedKv(kv: real, heads: real)
    | InvalidKv(kv: real, heads: real)

  datatype Attention = Attention(kind: AttentionType, reason: Reason)

  /** `formulaWithValues`: the six numbers substituted into the KV-cache
      formula, or the empty string of the degraded paths. */
  datatype Substitution =
    | NoValues
    | Values(batchSize: real, seqLength: real, numLayers: real, kvHeads: real, headDim: real, dtypeBytes: real)

  datatype KvCache = KvCache(sizeGB: real, formula: string, formulaWithValues: Substitution)

  datatype Estimation = Estimation(
    modelMemoryGB: real,
    kvCacheGB: real,
    systemOverheadGB: real,
    totalVRAMGB: real,
    attentionType: AttentionType,
    attentionJudgmentReason: Reason,
    kvCacheFormula: string,
    kvCacheFormulaWithValues: Substitution,
    requiredGPUs: Option<int>,
    avgGPULoad: Option<real>,
    gpuVRAMCapacityGB: Option<real>)

  /** Bytes in one GB (1024^3). */
  const GiB: real := 1073741824.0

  const DefaultOverheadPercent: real := 20.0

  const MhaFormula := "2 × batch_size × seq_len × num_layers × (num_attention_heads × head_dim) × dtype_bytes"
  const GqaFormula := "2 × batch_size × seq_len × num_layers × (num_kv_heads × head_dim) × dtype_bytes"
  const MqaFormula := "2 × batch_size × seq_len × num_layers × (1 × head_dim) × dtype_bytes"
  const MissingInputsFormula := "KV Cache 计算需要 num_layers 和 head_dim"
  const UnknownAttentionFormula := "无法计算：Attention类型未知"

  // ---------------------------------------------------------------------------
  // Quantization

  /** Bytes per parameter: 2 for the 16-bit formats, 1 for the 8-bit ones,
      one half for INT4; never zero. */
  function BytesPerParameter(q: Quantization): (b: real)
    ensures 0.0 < b <= 2.0
    ensures b == 2.0 <==> q == FP16 || q == BF16
    ensures b == 1.0 <==> q == FP8 || q == INT8
    ensures b == 0.5 <==> q == INT4
  {
    match q
    case FP16 => 2.0
    case BF16 => 2.0
    case FP8 => 1.0
    case INT8 => 1.0
    case INT4 => 0.5
  }

  // ---------------------------------------------------------------------------
  // Parameter counts

  predicate IsNumberChar(c: char) { Text.IsDigit(c) || c == '.' }

  predicate AllNumberChars(s: string) { forall i :: 0 <= i < |s| ==> IsNumberChar(s[i]) }

  predicate IsUnit(c: char) { c == 'B' || c == 'M' || c == 'K' }

  predicate IsUnitSuffix(u: string) { u == [] || (|u| == 1 && IsUnit(u[0])) }

  /** The string the pattern is matched against: upper-cased, then trimmed. */
  function Normalize(s: string): string {
    Text.Trim(Text.UpperAscii(s))
  }

  /** Matches `t` against `^([\d.]+)([BMK])?$`, giving the two groups (the unit
      group as "" when it did not participate). */
  function MatchCount(t: string): (r: Option<(string, string)>)
    ensures r.Some? ==> t == r.value.0 + r.value.1
    ensures r.Some? ==> |r.value.0| > 0 && AllNumberChars(r.value.0) && IsUnitSuffix(r.value.1)
  {
    if |t| > 1 && IsUnit(t[|t| - 1]) && AllNumberChars(t[..|t| - 1]) then
      Some((t[..|t| - 1], t[|t| - 1..]))
    else if |t| > 0 && AllNumberChars(t) then
      Some((t, ""))
    else
      None
  }

  /** Every string of the pattern's language is matched, with the split that
      the regular expression gives. */
  lemma {:induction false} MatchCountComplete(body: string, unit: string)
    requires |body| > 0 && AllNumberChars(body) && IsUnitSuffix(unit)
    ensures MatchCount(body + unit) == Some((body, unit))
  {
    var t := body + unit;
    if unit == [] {
      assert t == body;
      assert !IsUnit(t[|t| - 1]);
    } else {
      assert t[..|t| - 1] == body;
      assert t[|t| - 1..] == unit;
    }
  }

  /** The number of decimal digits `s` starts with. */
  function LeadingDigits(s: string): (n: nat)
    ensures n <= |s| && Text.AllDigits(s[..n])
    ensures n < |s| ==> !Text.IsDigit(s[n])
  {
    if s != [] && Text.IsDigit(s[0]) then
      var k := LeadingDigits(s[1..]);
      assert s[..1 + k] == [s[0]] + s[1..][..k];
      1 + k
    else 0
  }

  /** `parseFloat` on a string of digits and dots: the longest prefix of the
      form digits [ "." digits ] holding at least one digit, NaN when there is
      none. */
  function ParseDecimal(b: string): (x: Json.Number)
    requires AllNumberChars(b)
    ensures x == Json.NotANumber <==> b == [] || (b[0] == '.' && (|b| == 1 || !Text.IsDigit(b[1])))
  {
    var i := LeadingDigits(b);
    var whole := b[..i];
    var frac := if i < |b| then b[i + 1..][..LeadingDigits(b[i + 1..])] else [];
    if |whole| + |frac| == 0 then Json.NotANumber
    else Json.Finite(DecimalNumber(whole, frac))
  }

  /** The value of the decimal literal `whole.frac`. */
  function DecimalNumber(whole: string, frac: string): real
    requires Text.AllDigits(whole) && Text.AllDigits(frac)
  {
    Text.DecimalValue(whole) as real + FractionValue(frac)
  }

  /** The value of the digits after a decimal point: 0.d1 d2 d3 ... */
  function FractionValue(frac: string): (v: real)
    requires Text.AllDigits(frac)
    ensures 0.0 <= v <= 1.0
  {
    if frac == [] then 0.0 else (Text.DigitValue(frac[0]) as real + FractionValue(frac[1..])) / 10.0
  }

  /** A number part scaled by its unit: billions, millions, thousands, or
      as written when there is no unit. */
  function ApplyUnit(v: real, unit: string): (x: real)
    ensures unit == "B" ==> x == v * 1000000000.0
    ensures unit == "M" ==> x == v * 1000000.0
    ensures unit == "K" ==> x == v * 1000.0
    ensures 0.0 <= v ==> v <= x
    ensures unit == "" ==> x == v
  {
    if unit == "B" then v * 1000000000.0
    else if unit == "M" then v * 1000000.0
    else if unit == "K" then v * 1000.0
    else v
  }

  /** `parseParameterCount`: a number is passed through; a string is
      upper-cased and trimmed, must match `^([\d.]+)([BMK])?$`, and its number
      part is scaled by the unit. */
  function ParseParameterCount(p: ParamCount): (r: Result<real, ParseError>)
    ensures p.Count? ==> r == Success(p.n)
    ensures p.CountText? ==> (r == Failure(InvalidFormat(p.s)) <==> MatchCount(Normalize(p.s)).None?)
    ensures r.Failure? ==> p.CountText? && r.error.input == p.s
    ensures p.CountText? && MatchCount(Normalize(p.s)).Some? ==>
              var (body, unit) := MatchCount(Normalize(p.s)).value;
              match ParseDecimal(body)
              case NotANumber => r == Failure(NotANumber(p.s))
              case Finite(v) => r == Success(ApplyUnit(v, unit))
  {
    match p
    case Count(n) => Success(n)
    case CountText(s) =>
      var m := MatchCount(Normalize(s));
      if m.None? then Failure(InvalidFormat(s))
      else Scaled(ParseDecimal(m.value.0), m.value.1, s)
  }

  /** The value of a matched count: the number part times the unit, or the
      error for a number part `parseFloat` cannot read. */
  function Scaled(x: Json.Number, unit: string, s: string): Result<real, ParseError> {
    if x.NotANumber? then Failure(NotANumber(s)) else Success(ApplyUnit(x.r, unit))
  }

  lemma {:induction false} TrimUnchanged(s: string)
    requires |s| > 0 && !Text.IsJsWhitespace(s[0]) && !Text.IsJsWhitespace(s[|s| - 1])
    ensures Text.Trim(s) == s
  {
  }

  lemma {:induction false} UpperUnchanged(s: string)
    requires forall i :: 0 <= i < |s| ==> !('a' <= s[i] <= 'z')
    ensures Text.UpperAscii(s) == s
  {
  }

  lemma {:induction false} ParseDecimalOfWhole(w: string)
    requires |w| > 0 && Text.AllDigits(w)
    ensures AllNumberChars(w)
    ensures ParseDecimal(w) == Json.Finite(Text.DecimalValue(w) as real)
  {
    LeadingDigitsOfDigits(w, "");
    assert w + "" == w;
    assert w[..|w|] == w;
  }

  lemma {:induction false} ParseDecimalOfFraction(w: string, f: string)
    requires |w| > 0 && Text.AllDigits(w) && Text.AllDigits(f)
    ensures AllNumberChars(w + "." + f)
    ensures ParseDecimal(w + "." + f) == Json.Finite(DecimalNumber(w, f))
  {
    var b := w + "." + f;
    assert forall i | 0 <= i < |b| :: IsNumberChar(b[i]) by {
      forall i | 0 <= i < |b| ensures IsNumberChar(b[i]) {
        if i < |w| { assert b[i] == w[i]; } else if i > |w| { assert b[i] == f[i - |w| - 1]; }
      }
    }
    LeadingDigitsOfDigits(w, "." + f);
    assert b == w + ("." + f);
    var i := LeadingDigits(b);
    assert i == |w|;
    assert b[..i] == w;
    assert b[i + 1..] == f;
    LeadingDigitsOfDigits(f, "");
    assert f + "" == f;
    assert f[..LeadingDigits(f)] == f;
  }

  lemma {:induction false} LeadingDigitsOfDigits(d: string, rest: string)
    requires Text.AllDigits(d)
    requires rest == [] || !Text.IsDigit(rest[0])
    ensures LeadingDigits(d + rest) == |d|
  {
    if d != [] {
      assert (d + rest)[1..] == d[1..] + rest;
      LeadingDigitsOfDigits(d[1..], rest);
    } else {
      assert d + rest == rest;
    }
  }

  /** A count written as digits and a unit parses to its value times the
      unit's multiplier. */
  lemma {:induction false} ParseWholeCount(w: string, unit: string)
    requires |w| > 0 && Text.AllDigits(w) && IsUnitSuffix(unit)
    ensures ParseParameterCount(CountText(w + unit))
         == Success(ApplyUnit(Text.DecimalValue(w) as real, unit))
  {
    ParseDecimalOfWhole(w);
    ParseWritten(w, unit, Text.DecimalValue(w) as real);
  }

  /** A count written as digits, a dot, digits and a unit parses to its
      decimal value times the unit's multiplier. */
  lemma {:induction false} ParseFractionalCount(w: string, f: string, unit: string, v: real)
    requires |w| > 0 && Text.AllDigits(w) && Text.AllDigits(f) && IsUnitSuffix(unit)
    requires v == DecimalNumber(w, f)
    ensures ParseParameterCount(CountText(w + "." + f + unit)) == Success(ApplyUnit(v, unit))
  {
    ParseDecimalOfFraction(w, f);
    ParseWritten(w + "." + f, unit, v);
  }

  /** A matching string that needs no upper-casing or trimming parses as its
      number part scaled by its unit. */
  lemma {:induction false} ParseWritten(body: string, unit: string, v: real)
    requires |body| > 0 && AllNumberChars(body) && IsUnitSuffix(unit)
    requires ParseDecimal(body) == Json.Finite(v)
    ensures ParseParameterCount(CountText(body + unit)) == Success(ApplyUnit(v, unit))
  {
    NormalizeWritten(body, unit);
    MatchCountComplete(body, unit);
    ParseMatched(body + unit, body, unit, v);
  }

  lemma {:induction false} NormalizeWritten(body: string, unit: string)
    requires |body| > 0 && AllNumberChars(body) && IsUnitSuffix(unit)
    ensures Normalize(body + unit) == body + unit
  {
    var t := body + unit;
    assert forall i | 0 <= i < |t| :: !('a' <= t[i] <= 'z') by {
      forall i | 0 <= i < |t| ensures !('a' <= t[i] <= 'z') {
        if i < |body| { assert t[i] == body[i]; } else { assert t[i] == unit[0]; }
      }
    }
    UpperUnchanged(t);
    assert t[0] == body[0];
    assert !Text.IsJsWhitespace(t[|t| - 1]) by {
      if unit == [] { assert t[|t| - 1] == body[|body| - 1]; } else { assert t[|t| - 1] == unit[0]; }
    }
    TrimUnchanged(t);
  }

  /** Upper-casing and trimming turn a count written with a lower-case unit
      and surrounded by whitespace into the canonical form the pattern
      matches. */
  lemma {:induction false} NormalizeLoose(pre: string, body: string, u: string, post: string)
    requires forall i :: 0 <= i < |pre| ==> Text.IsJsWhitespace(pre[i])
    requires forall i :: 0 <= i < |post| ==> Text.IsJsWhitespace(post[i])
    requires |body| > 0 && AllNumberChars(body) && IsUnitSuffix(Text.UpperAscii(u))
    ensures Normalize(pre + body + u + post) == body + Text.UpperAscii(u)
  {
    var unit := Text.UpperAscii(u);
    var t := pre + body + u + post;
    var mid := body + unit;
    var up := Text.UpperAscii(t);
    forall i | 0 <= i < |t| ensures up[i] == (pre + mid + post)[i] {
      if i < |pre| {
        assert t[i] == pre[i];
      } else if i < |pre| + |body| {
        assert t[i] == body[i - |pre|];
      } else if i < |pre| + |body| + |u| {
        assert t[i] == u[i - |pre| - |body|];
      } else {
        assert t[i] == post[i - |pre| - |body| - |u|];
      }
    }
    assert up == pre + mid + post;
    assert mid[0] == body[0];
    assert !Text.IsJsWhitespace(mid[|mid| - 1]) by {
      if unit == [] { assert mid[|mid| - 1] == body[|body| - 1]; } else { assert mid[|mid| - 1] == unit[0]; }
    }
    Text.TrimSurrounded(pre, mid, post);
  }

  /** The parse is case-insensitive and ignores surrounding whitespace: a
      number part with a unit in either case, padded with whitespace, parses
      to the number part scaled by the upper-cased unit. */
  lemma {:induction false} ParseLoose(pre: string, body: string, u: string, post: string, v: real)
    requires forall i :: 0 <= i < |pre| ==> Text.IsJsWhitespace(pre[i])
    requires forall i :: 0 <= i < |post| ==> Text.IsJsWhitespace(post[i])
    requires |body| > 0 && AllNumberChars(body) && IsUnitSuffix(Text.UpperAscii(u))
    requires ParseDecimal(body) == Json.Finite(v)
    ensures ParseParameterCount(CountText(pre + body + u + post)) == Success(ApplyUnit(v, Text.UpperAscii(u)))
  {
    NormalizeLoose(pre, body, u, post);
    MatchCountComplete(body, Text.UpperAscii(u));
  }

  /** A string of the pattern's language whose number part `parseFloat`
      cannot read (a lone dot, or a dot followed by a dot) is refused as not
      a number, not as malformed. */
  lemma {:induction false} ParseUnreadable(body: string, unit: string)
    requires |body| > 0 && AllNumberChars(body) && IsUnitSuffix(unit)
    requires ParseDecimal(body) == Json.NotANumber
    ensures ParseParameterCount(CountText(body + unit)) == Failure(NotANumber(body + unit))
  {
    NormalizeWritten(body, unit);
    MatchCountComplete(body, unit);
  }

  lemma {:induction false} ParseMatched(t: string, body: string, unit: string, v: real)
    requires Normalize(t) == t && MatchCount(t) == Some((body, unit))
    requires ParseDecimal(body) == Json.Finite(v)
    ensures ParseParameterCount(CountText(t)) == Success(ApplyUnit(v, unit))
  {
  }

  /** Round trip: rendering a whole count in decimal with any unit suffix and
      parsing it back gives the count times the unit. */
  lemma {:induction false} ParseRenderedCount(n: nat, unit: string)
    requires IsUnitSuffix(unit)
    ensures ParseParameterCount(CountText(Text.NatToDecimal(n) + unit)) == Success(ApplyUnit(n as real, unit))
  {
    ParseWholeCount(Text.NatToDecimal(n), unit);
  }

  // ---------------------------------------------------------------------------
  // Attention classification

  /** `determineAttentionType`: a priority chain. No head count gives UNKNOWN;
      then no KV-head count gives MHA by assumption; then equal counts give MHA
      (so one head and one KV head is MHA, not MQA); then one KV head gives
      MQA; then 1 < kv < heads gives GQA; everything left (kv above heads, kv
      at or below zero, kv strictly between 0 and 1) is UNKNOWN. */
  function DetermineAttentionType(heads: Option<real>, kv: Option<real>): (r: Attention)
    ensures heads.None? ==> r == Attention(UNKNOWN, HeadsMissing)
    ensures heads.Some? && kv.None? ==> r == Attention(MHA, KvHeadsMissing)
    ensures r.kind == MHA <==> heads.Some? && (kv.None? || kv.value == heads.value)
    ensures r.kind == MQA <==> heads.Some? && kv == Some(1.0) && heads.value != 1.0
    ensures r.kind == GQA <==> heads.Some? && kv.Some? && 1.0 < kv.value < heads.value
    ensures r.kind == UNKNOWN <==>
              heads.None?
              || (kv.Some? && kv.value != heads.value && kv.value != 1.0 && !(1.0 < kv.value < heads.value))
    ensures heads.Some? && kv.Some? ==>
              r.reason == match r.kind
                          case MHA => KvEqualsHeads(kv.value, heads.value)
                          case MQA => SingleKvHead
                          case GQA => GroupedKv(kv.value, heads.value)
                          case UNKNOWN => InvalidKv(kv.value, heads.value)
  {
    if heads.None? then Attention(UNKNOWN, HeadsMissing)
    else if kv.None? then Attention(MHA, KvHeadsMissing)
    else if kv.value == heads.value then Attention(MHA, KvEqualsHeads(kv.value, heads.value))
    else if kv.value == 1.0 then Attention(MQA, SingleKvHead)
    else if kv.value > 1.0 && kv.value < heads.value then Attention(GQA, GroupedKv(kv.value, heads.value))
    else Attention(UNKNOWN, InvalidKv(kv.value, heads.value))
  }

  /** The justification as displayed; `show` renders a JavaScript number in a
      template literal. */
  function ReasonText(r: Reason, show: real -> string): (t: string)
    ensures r.KvEqualsHeads? || r.GroupedKv? || r.InvalidKv? ==>
              Text.Contains(t, show(r.kv)) && Text.Contains(t, show(r.heads))
  {
    match r
    case HeadsMissing => "num_attention_heads 未提供，无法判断Attention类型"
    case KvHeadsMissing => "num_kv_heads 未提供，默认按 MHA 计算（num_kv_heads = num_attention_heads）"
    case KvEqualsHeads(kv, heads) => Quoting("num_kv_heads (", kv, ") == num_attention_heads (", heads, ")", show)
    case SingleKvHead => "num_kv_heads == 1（所有Q头共享单个KV头）"
    case GroupedKv(kv, heads) => Quoting("1 < num_kv_heads (", kv, ") < num_attention_heads (", heads, ")", show)
    case InvalidKv(kv, heads) => Quoting("无效的配置：num_kv_heads (", kv, ") > num_attention_heads (", heads, ")", show)
  }

  /** A template literal with two numbers in it quotes both. */
  function Quoting(prefix: string, kv: real, middle: string, heads: real, suffix: string, show: real -> string): (t: string)
    ensures Text.Contains(t, show(kv)) && Text.Contains(t, show(heads))
  {
    var t := prefix + show(kv) + middle + show(heads) + suffix;
    Text.ContainsInfix(prefix, show(kv), middle + show(heads) + suffix);
    assert prefix + show(kv) + (middle + show(heads) + suffix) == t;
    Text.ContainsInfix(prefix + show(kv) + middle, show(heads), suffix);
    t
  }

  /** Whenever both head counts are known, the displayed justification quotes
      both of them, whatever the classification except MQA. */
  lemma ReasonQuotesHeadCounts(heads: real, kv: real, show: real -> string)
    requires DetermineAttentionType(Some(heads), Some(kv)).kind != MQA
    ensures var text := ReasonText(DetermineAttentionType(Some(heads), Some(kv)).reason, show);
            Text.Contains(text, show(kv)) && Text.Contains(text, show(heads))
  {
  }

  // ---------------------------------------------------------------------------
  // Model weights

  /** JavaScript truthiness of an optional number: absent and 0 are falsy. */
  predicate Present(o: Option<real>) {
    o.Some? && o.value != 0.0
  }

  predicate TruthyCount(o: Option<ParamCount>) {
    o.Some? && match o.value
               case Count(n) => n != 0.0
               case CountText(s) => s != ""
  }

  /** `config.totalParameters || 0`. */
  function CountOrZero(o: Option<ParamCount>): ParamCount {
    if TruthyCount(o) then o.value else Count(0.0)
  }

  /** `calculateModelMemory`: parameters times bytes per parameter, in GB. A
      falsy parameter count gives 0; a malformed count string is an error. */
  function CalculateModelMemory(config: ModelConfig): (r: Result<real, ParseError>)
    ensures !TruthyCount(config.totalParameters) ==> r == Success(0.0)
    ensures var parsed := ParseParameterCount(CountOrZero(config.totalParameters));
            var q := config.quantization;
            && (r.Failure? <==> parsed.Failure?)
            && (r.Failure? ==> r.error == parsed.error)
            && (r.Success? && (q == FP16 || q == BF16) ==> r.value * GiB == 2.0 * parsed.value)
            && (r.Success? && (q == FP8 || q == INT8) ==> r.value * GiB == parsed.value)
            && (r.Success? && q == INT4 ==> r.value * GiB == 0.5 * parsed.value)
  {
    var parsed := ParseParameterCount(CountOrZero(config.totalParameters));
    if parsed.Failure? then Failure(parsed.error)
    else Success(WeightBytes(parsed.value, config.quantization) / GiB)
  }

  /** `paramCount * bytesPerParam`, written out per precision. */
  function WeightBytes(count: real, q: Quantization): real {
    match q
    case FP16 => 2.0 * count
    case BF16 => 2.0 * count
    case FP8 => count
    case INT8 => count
    case INT4 => 0.5 * count
  }

  /** The weights take the parameter count times the bytes per parameter. */
  lemma WeightBytesIsProduct(count: real, q: Quantization)
    ensures WeightBytes(count, q) == count * BytesPerParameter(q)
  {
  }

  /** Model memory is proportional to the bytes per parameter: at FP16 it is
      the same as at BF16, twice that at INT8 or FP8 and four times that at
      INT4; and a count that fails to parse fails at every precision. */
  lemma {:induction false} ModelMemoryScalesWithPrecision(config: ModelConfig)
    ensures var fp16 := CalculateModelMemory(config.(quantization := FP16));
            var bf16 := CalculateModelMemory(config.(quantization := BF16));
            var fp8 := CalculateModelMemory(config.(quantization := FP8));
            var int8 := CalculateModelMemory(config.(quantization := INT8));
            var int4 := CalculateModelMemory(config.(quantization := INT4));
            && fp16.Success? == bf16.Success? == fp8.Success? == int8.Success? == int4.Success?
            && (fp16.Success? ==>
                  fp16.value == bf16.value == 2.0 * int8.value == 2.0 * fp8.value == 4.0 * int4.value)
  {
    var parsed := ParseParameterCount(CountOrZero(config.totalParameters));
    if parsed.Success? {
      var p := parsed.value;
      assert CalculateModelMemory(config.(quantization := FP16)).value * GiB == 2.0 * p;
      assert CalculateModelMemory(config.(quantization := BF16)).value * GiB == 2.0 * p;
      assert CalculateModelMemory(config.(quantization := FP8)).value * GiB == p;
      assert CalculateModelMemory(config.(quantization := INT8)).value * GiB == p;
      assert CalculateModelMemory(config.(quantization := INT4)).value * GiB == 0.5 * p;
    }
  }

  /** The workload plays no part in the weights: batch size, sequence length,
      the layer and head counts and the overhead leave model memory as it is. */
  lemma ModelMemoryIgnoresWorkload(config: ModelConfig, other: ModelConfig)
    requires other.totalParameters == config.totalParameters && other.quantization == config.quantization
    ensures CalculateModelMemory(other) == CalculateModelMemory(config)
  {
  }

  // ---------------------------------------------------------------------------
  // KV cache

  /** The KV heads the cache holds per layer: the query-head count for MHA
      (0 when absent), the KV-head count for GQA (0 when absent), 1 for MQA. */
  function EffectiveKvHeads(config: ModelConfig, kind: AttentionType): real
    requires kind != UNKNOWN
  {
    match kind
    case MHA => config.numAttentionHeads.GetOr(0.0)
    case GQA => config.numKvHeads.GetOr(0.0)
    case MQA => 1.0
  }

  function SymbolicFormula(kind: AttentionType): string
    requires kind != UNKNOWN
  {
    match kind
    case MHA => MhaFormula
    case GQA => GqaFormula
    case MQA => MqaFormula
  }

  /** The byte count the substituted formula denotes:
      2 × batch × seq × layers × (kvHeads × headDim) × dtypeBytes. */
  function Evaluate(v: Substitution): real {
    match v
    case NoValues => 0.0
    case Values(batch, seqLen, layers, kvHeads, headDim, dtypeBytes) =>
      2.0 * batch * seqLen * layers * (kvHeads * headDim) * dtypeBytes
  }

  /** `formulaWithValues` as displayed; `show` renders a JavaScript number.
      It is empty exactly when there is nothing substituted, and otherwise
      quotes every one of the six numbers the size is computed from. */
  function SubstitutionText(v: Substitution, show: real -> string): (t: string)
    ensures t == [] <==> v.NoValues?
    ensures v.Values? ==>
              && Text.Contains(t, show(v.batchSize)) && Text.Contains(t, show(v.seqLength))
              && Text.Contains(t, show(v.numLayers)) && Text.Contains(t, show(v.kvHeads))
              && Text.Contains(t, show(v.headDim)) && Text.Contains(t, show(v.dtypeBytes))
              && Text.EndsWith(t, " bytes")
  {
    match v
    case NoValues => ""
    case Values(batch, seqLen, layers, kvHeads, headDim, dtypeBytes) =>
      var s0 := "2 × " + show(batch);
      Text.ContainsInfix("2 × ", show(batch), []);
      assert "2 × " + show(batch) + [] == s0;
      var s1 := s0 + " × " + show(seqLen);
      Text.ContainsExtended(s0, " × ", show(seqLen));
      var s2 := s1 + " × " + show(layers);
      Text.ContainsExtended(s1, " × ", show(layers));
      var s3 := s2 + " × (" + show(kvHeads);
      Text.ContainsExtended(s2, " × (", show(kvHeads));
      var s4 := s3 + " × " + show(headDim);
      Text.ContainsExtended(s3, " × ", show(headDim));
      var s5 := s4 + ") × " + show(dtypeBytes);
      Text.ContainsExtended(s4, ") × ", show(dtypeBytes));
      Text.ContainsExtended(s5, " bytes", []);
      assert s5 + " bytes" + [] == s5 + " bytes";
      Text.EndsWithAppended(s5, " bytes");
      s5 + " bytes"
  }

  /** `calculateKVCache`: 0 with an explanation when the layer count or head
      dimension is falsy, 0 when the attention type is unknown, otherwise the
      formula with the effective KV-head count, in GB. The size reported is
      always what the displayed substitution evaluates to. */
  function CalculateKvCache(config: ModelConfig, kind: AttentionType): (r: KvCache)
    ensures !Present(config.numLayers) || !Present(config.headDim) ==>
              r == KvCache(0.0, MissingInputsFormula, NoValues)
    ensures Present(config.numLayers) && Present(config.headDim) && kind == UNKNOWN ==>
              r == KvCache(0.0, UnknownAttentionFormula, NoValues)
    ensures r.formulaWithValues.Values? <==> Present(config.numLayers) && Present(config.headDim) && kind != UNKNOWN
    ensures r.formulaWithValues.Values? ==>
              && r.formula == SymbolicFormula(kind)
              && r.formulaWithValues == Values(config.batchSize, config.seqLength, config.numLayers.value,
                                               EffectiveKvHeads(config, kind), config.headDim.value,
                                               BytesPerParameter(config.quantization))
    ensures r.sizeGB * GiB == Evaluate(r.formulaWithValues)
  {
    if !Present(config.numLayers) || !Present(config.headDim) then
      KvCache(0.0, MissingInputsFormula, NoValues)
    else if kind == UNKNOWN then
      KvCache(0.0, UnknownAttentionFormula, NoValues)
    else
      var values := Values(config.batchSize, config.seqLength, config.numLayers.value,
                           EffectiveKvHeads(config, kind), config.headDim.value,
                           BytesPerParameter(config.quantization));
      KvCache(Evaluate(values) / GiB, SymbolicFormula(kind), values)
  }

  /** Every factor of the substitution other than the one that grows is
      positive. */
  predicate PositiveExceptBatch(v: Substitution) {
    v.Values? && v.seqLength > 0.0 && v.numLayers > 0.0 && v.kvHeads > 0.0 && v.headDim > 0.0 && v.dtypeBytes > 0.0
  }

  predicate PositiveExceptSeqLength(v: Substitution) {
    v.Values? && v.batchSize > 0.0 && v.numLayers > 0.0 && v.kvHeads > 0.0 && v.headDim > 0.0 && v.dtypeBytes > 0.0
  }

  lemma {:induction false} EvaluateGrowsWithBatchSize(v: Substitution, larger: real)
    requires PositiveExceptBatch(v) && v.batchSize < larger
    ensures Evaluate(v) < Evaluate(v.(batchSize := larger))
  {
    var rest := 2.0 * v.seqLength * v.numLayers * (v.kvHeads * v.headDim) * v.dtypeBytes;
    RealArith.DoubledProductPositive(v.seqLength, v.numLayers, v.kvHeads, v.headDim, v.dtypeBytes);
    RealArith.ProductGrows(v.batchSize, larger, rest);
    assert Evaluate(v) == v.batchSize * rest;
    assert Evaluate(v.(batchSize := larger)) == larger * rest;
  }

  lemma {:induction false} EvaluateGrowsWithSeqLength(v: Substitution, longer: real)
    requires PositiveExceptSeqLength(v) && v.seqLength < longer
    ensures Evaluate(v) < Evaluate(v.(seqLength := longer))
  {
    var rest := 2.0 * v.batchSize * v.numLayers * (v.kvHeads * v.headDim) * v.dtypeBytes;
    RealArith.DoubledProductPositive(v.batchSize, v.numLayers, v.kvHeads, v.headDim, v.dtypeBytes);
    RealArith.ProductGrows(v.seqLength, longer, rest);
    assert Evaluate(v) == v.seqLength * rest;
    assert Evaluate(v.(seqLength := longer)) == longer * rest;
  }

  /** A larger batch needs strictly more KV cache, whenever the cache is
      computed and its other factors are positive. */
  lemma {:induction false} KvCacheGrowsWithBatchSize(config: ModelConfig, kind: AttentionType, larger: real)
    requires Present(config.numLayers) && Present(config.headDim) && kind != UNKNOWN
    requires config.numLayers.value > 0.0 && config.headDim.value > 0.0 && config.seqLength > 0.0
    requires EffectiveKvHeads(config, kind) > 0.0
    requires config.batchSize < larger
    ensures CalculateKvCache(config, kind).sizeGB < CalculateKvCache(config.(batchSize := larger), kind).sizeGB
  {
    var bigger := config.(batchSize := larger);
    var before := CalculateKvCache(config, kind);
    var after := CalculateKvCache(bigger, kind);
    assert EffectiveKvHeads(bigger, kind) == EffectiveKvHeads(config, kind);
    assert after.formulaWithValues == before.formulaWithValues.(batchSize := larger);
    EvaluateGrowsWithBatchSize(before.formulaWithValues, larger);
    RealArith.ProductShrinks(before.sizeGB, after.sizeGB, GiB);
  }

  /** A longer sequence needs strictly more KV cache, under the same
      conditions. */
  lemma {:induction false} KvCacheGrowsWithSeqLength(config: ModelConfig, kind: AttentionType, longer: real)
    requires Present(config.numLayers) && Present(config.headDim) && kind != UNKNOWN
    requires config.numLayers.value > 0.0 && config.headDim.value > 0.0 && config.batchSize > 0.0
    requires EffectiveKvHeads(config, kind) > 0.0
    requires config.seqLength < longer
    ensures CalculateKvCache(config, kind).sizeGB < CalculateKvCache(config.(seqLength := longer), kind).sizeGB
  {
    var bigger := config.(seqLength := longer);
    var before := CalculateKvCache(config, kind);
    var after := CalculateKvCache(bigger, kind);
    assert EffectiveKvHeads(bigger, kind) == EffectiveKvHeads(config, kind);
    assert after.formulaWithValues == before.formulaWithValues.(seqLength := longer);
    EvaluateGrowsWithSeqLength(before.formulaWithValues, longer);
    RealArith.ProductShrinks(before.sizeGB, after.sizeGB, GiB);
  }

  // ---------------------------------------------------------------------------
  // The estimate

  /** `systemOverheadPercent ?? 20`: only an absent percentage is defaulted;
      an explicit 0 is kept. */
  function OverheadPercent(config: ModelConfig): (p: real)
    ensures config.systemOverheadPercent.Some? ==> p == config.systemOverheadPercent.value
    ensures config.systemOverheadPercent.None? ==> p == DefaultOverheadPercent
  {
    config.systemOverheadPercent.GetOr(DefaultOverheadPercent)
  }

  /** `Math.ceil`: the least integer at or above `x`. */
  function Ceil(x: real): (n: int)
    ensures x <= n as real < x + 1.0
  {
    -((-x).Floor)
  }

  lemma CeilTimesCapacity(total: real, capacity: real, n: int)
    requires capacity > 0.0
    requires total / capacity <= n as real < total / capacity + 1.0
    ensures total <= n as real * capacity
    ensures (n - 1) as real * capacity < total
  {
    RealArith.QuotientTimesDivisor(total, capacity);
    var m := (n - 1) as real;
    assert m == n as real - 1.0;
    CeilBounds(total / capacity, capacity, n as real, m, total);
  }

  lemma CeilBounds(q: real, capacity: real, n: real, m: real, total: real)
    requires capacity > 0.0 && q * capacity == total
    requires q <= n && m < q
    ensures total <= n * capacity
    ensures m * capacity < total
  {
    RealArith.ProductAtLeast(q, n, capacity);
    RealArith.ProductGrows(m, q, capacity);
  }

  /** The GPU fields: only for a capacity that is given and positive, the
      fewest GPUs whose combined capacity holds the total, and the average
      fill of those GPUs in percent (left undefined when no GPU is needed,
      where the source divides by zero). */
  function GpuRequirements(total: real, capacity: Option<real>): (r: (Option<int>, Option<real>))
    ensures r.0.Some? <==> capacity.Some? && capacity.value > 0.0
    ensures r.0.Some? ==>
              total <= r.0.value as real * capacity.value && (r.0.value - 1) as real * capacity.value < total
    ensures r.1.Some? <==> r.0.Some? && r.0.value != 0
    ensures r.1.Some? ==> r.1.value * (r.0.value as real * capacity.value) == total * 100.0
  {
    if capacity.Some? && capacity.value > 0.0 then
      var n := Ceil(total / capacity.value);
      CeilTimesCapacity(total, capacity.value, n);
      if n != 0 then
        var load := total / n as real / capacity.value * 100.0;
        LoadTimesCapacity(total, n as real, capacity.value);
        (Some(n), Some(load))
      else (Some(n), None)
    else (None, None)
  }

  lemma LoadTimesCapacity(total: real, n: real, capacity: real)
    requires n != 0.0 && capacity != 0.0
    ensures total / n / capacity * 100.0 * (n * capacity) == total * 100.0
  {
    var q := total / n / capacity;
    assert q * capacity == total / n;
    assert total / n * n == total;
    assert q * (n * capacity) == total;
  }

  /** The system overhead: the given percentage of the model memory. */
  function SystemOverhead(modelMemory: real, percent: real): (o: real)
    ensures o * 100.0 == modelMemory * percent
  {
    modelMemory * (percent / 100.0)
  }

  /** `estimateVRAM`: classify the attention, compute model memory (the one
      step that can fail), the KV cache for that classification, an overhead
      that is a percentage of model memory only, their sum, and the GPU
      fields for that sum. */
  function EstimateVram(config: ModelConfig, gpuCapacity: Option<real>): (r: Result<Estimation, ParseError>)
    ensures r.Failure? <==> CalculateModelMemory(config).Failure?
    ensures r.Failure? ==> r.error == CalculateModelMemory(config).error
    ensures r.Success? ==>
              var e := r.value;
              var attention := DetermineAttentionType(config.numAttentionHeads, config.numKvHeads);
              var kv := CalculateKvCache(config, attention.kind);
              && e.attentionType == attention.kind
              && e.attentionJudgmentReason == attention.reason
              && e.modelMemoryGB == CalculateModelMemory(config).value
              && e.kvCacheGB == kv.sizeGB
              && e.kvCacheFormula == kv.formula
              && e.kvCacheFormulaWithValues == kv.formulaWithValues
              && e.systemOverheadGB == SystemOverhead(e.modelMemoryGB, OverheadPercent(config))
              && e.totalVRAMGB == e.modelMemoryGB + e.kvCacheGB + e.systemOverheadGB
              && (e.requiredGPUs, e.avgGPULoad) == GpuRequirements(e.totalVRAMGB, gpuCapacity)
              && e.gpuVRAMCapacityGB == gpuCapacity
  {
    var attention := DetermineAttentionType(config.numAttentionHeads, config.numKvHeads);
    var model := CalculateModelMemory(config);
    if model.Failure? then Failure(model.error)
    else
      var kv := CalculateKvCache(config, attention.kind);
      var overhead := SystemOverhead(model.value, OverheadPercent(config));
      var total := model.value + kv.sizeGB + overhead;
      var gpu := GpuRequirements(total, gpuCapacity);
      Success(Estimation(model.value, kv.sizeGB, overhead, total, attention.kind, attention.reason,
                         kv.formula, kv.formulaWithValues, gpu.0, gpu.1, gpuCapacity))
  }

  /** With a positive capacity and a positive total, at least one GPU is
      required and the average load is above 0 and at most 100 percent. */
  lemma {:induction false} LoadWithinCapacity(total: real, capacity: real)
    requires capacity > 0.0 && total > 0.0
    ensures var (gpus, load) := GpuRequirements(total, Some(capacity));
            && gpus.Some? && gpus.value >= 1
            && load.Some? && 0.0 < load.value <= 100.0
  {
    var (gpus, load) := GpuRequirements(total, Some(capacity));
    var n := gpus.value;
    assert total <= n as real * capacity;
    assert n >= 1 by {
      if n <= 0 {
        RealArith.ProductAtLeast(n as real, 0.0, capacity);
      }
    }
    var room := n as real * capacity;
    assert load.value * room == total * 100.0;
    LoadBounds(load.value, room, total);
  }

  /** The estimate's GPU fields with a positive capacity and a positive
      total: at least one GPU, loaded above 0 and at most 100 percent. */
  lemma {:induction false} EstimateLoadWithinCapacity(config: ModelConfig, capacity: real)
    requires capacity > 0.0
    requires EstimateVram(config, Some(capacity)).Success?
    requires EstimateVram(config, Some(capacity)).value.totalVRAMGB > 0.0
    ensures var e := EstimateVram(config, Some(capacity)).value;
            && e.requiredGPUs.Some? && e.requiredGPUs.value >= 1
            && e.avgGPULoad.Some? && 0.0 < e.avgGPULoad.value <= 100.0
  {
    LoadWithinCapacity(EstimateVram(config, Some(capacity)).value.totalVRAMGB, capacity);
  }

  lemma LoadBounds(load: real, room: real, total: real)
    requires room > 0.0 && 0.0 < total <= room
    requires load * room == total * 100.0
    ensures 0.0 < load <= 100.0
  {
    if load <= 0.0 {
      RealArith.ProductAtLeast(load, 0.0, room);
    }
    if load > 100.0 {
      RealArith.ProductGrows(100.0, load, room);
    }
  }
}
