/** The four console scenarios of test-calculator.ts, and the worked examples
    of the parameter-count parser and the attention classification, as
    statements about the model. */
module Scenarios {
  import opened Wrappers
  import Text
  import RealArith
  import opened VramCalculator

  // ---------------------------------------------------------------------------
  // Parameter counts

  lemma SeventyBillion()
    ensures ParseParameterCount(CountText("70B")) == Success(70000000000.0)
  {
    assert Text.DecimalValue("70") == 70 by {
      assert "70"[..1] == "7";
    }
    assert "70B" == "70" + "B";
    ParseWholeCount("70", "B");
  }

  lemma OneHundredSeventyFiveBillion()
    ensures ParseParameterCount(CountText("175B")) == Success(175000000000.0)
  {
    assert Text.DecimalValue("175") == 175 by {
      assert "175"[..2] == "17" && "17"[..1] == "1";
    }
    assert "175B" == "175" + "B";
    ParseWholeCount("175", "B");
  }

  lemma SevenBillion()
    ensures ParseParameterCount(CountText("7B")) == Success(7000000000.0)
  {
    assert Text.DecimalValue("7") == 7 by {
      assert "7"[..0] == [];
    }
    assert "7B" == "7" + "B";
    ParseWholeCount("7", "B");
  }

  lemma ThirteenBillion()
    ensures ParseParameterCount(CountText("13B")) == Success(13000000000.0)
  {
    assert Text.DecimalValue("13") == 13 by {
      assert "13"[..1] == "1";
    }
    assert "13B" == "13" + "B";
    ParseWholeCount("13", "B");
  }

  lemma OnePointFiveBillion()
    ensures ParseParameterCount(CountText("1.5B")) == Success(1500000000.0)
  {
    assert "1.5B" == "1" + "." + "5" + "B";
    OneAndAHalf();
    ParseFractionalCount("1", "5", "B", 1.5);
  }

  lemma OneAndAHalf()
    ensures Text.AllDigits("1") && Text.AllDigits("5")
    ensures DecimalNumber("1", "5") == 1.5
  {
    assert Text.DecimalValue("1") == 1 by {
      assert "1"[..0] == [];
    }
    assert FractionValue("5") == 0.5 by {
      assert "5"[1..] == [];
    }
  }

  /** A lower-case unit and surrounding spaces, as typed into a form, are
      accepted: " 1.5b " is 1.5 billion. */
  lemma PaddedLowerCase()
    ensures ParseParameterCount(CountText(" 1.5b ")) == Success(1500000000.0)
  {
    assert " 1.5b " == " " + ("1" + "." + "5") + "b" + " ";
    OneAndAHalf();
    ParseDecimalOfFraction("1", "5");
    assert Text.UpperAscii("b") == "B";
    ParseLoose(" ", "1" + "." + "5", "b", " ", 1.5);
  }

  lemma PlainNumberPassesThrough()
    ensures ParseParameterCount(Count(7000000000.0)) == Success(7000000000.0)
  {
  }

  /** A count that starts and ends with a letter is refused as malformed. */
  lemma {:induction false} LettersAreRefused(s: string)
    requires |s| > 0 && 'a' <= s[0] <= 'z' && 'a' <= s[|s| - 1] <= 'z'
    ensures ParseParameterCount(CountText(s)) == Failure(InvalidFormat(s))
  {
    var upper := Text.UpperAscii(s);
    assert 'A' <= upper[0] <= 'Z';
    assert 'A' <= upper[|upper| - 1] <= 'Z';
    TrimUnchanged(upper);
    assert !IsNumberChar(upper[0]);
    assert !AllNumberChars(upper);
    assert |upper| > 1 ==> !AllNumberChars(upper[..|upper| - 1]) by {
      if |upper| > 1 {
        assert upper[..|upper| - 1][0] == upper[0];
      }
    }
  }

  lemma LettersAbc()
    ensures ParseParameterCount(CountText("abc")) == Failure(InvalidFormat("abc"))
  {
    LettersAreRefused("abc");
  }

  /** A dot with no digits, with or without a unit, is not a number. */
  lemma LoneDotIsNotANumber(unit: string)
    requires IsUnitSuffix(unit)
    ensures ParseParameterCount(CountText("." + unit)) == Failure(NotANumber("." + unit))
  {
    assert AllNumberChars(".");
    ParseUnreadable(".", unit);
  }

  // ---------------------------------------------------------------------------
  // Attention classification

  lemma AttentionExamples()
    ensures DetermineAttentionType(Some(64.0), Some(8.0)) == Attention(GQA, GroupedKv(8.0, 64.0))
    ensures DetermineAttentionType(Some(96.0), Some(96.0)) == Attention(MHA, KvEqualsHeads(96.0, 96.0))
    ensures DetermineAttentionType(Some(32.0), Some(1.0)) == Attention(MQA, SingleKvHead)
    ensures DetermineAttentionType(Some(1.0), Some(1.0)).kind == MHA
    ensures DetermineAttentionType(Some(40.0), None) == Attention(MHA, KvHeadsMissing)
    ensures DetermineAttentionType(None, Some(8.0)) == Attention(UNKNOWN, HeadsMissing)
    ensures DetermineAttentionType(Some(8.0), Some(64.0)) == Attention(UNKNOWN, InvalidKv(64.0, 8.0))
    ensures DetermineAttentionType(Some(8.0), Some(0.0)).kind == UNKNOWN
  {
  }

  // ---------------------------------------------------------------------------
  // The four estimates

  /** GQA at INT4: 70B parameters, 80 layers, 64 heads over 8 KV heads of
      dimension 128, batch 32 at 4096 tokens, on 80 GB GPUs. */
  const Case1 := ModelConfig(Some(CountText("70B")), Some(80.0), Some(8192.0), Some(64.0), Some(8.0), Some(128.0),
                             INT4, 32.0, 4096.0, Some(20.0))

  lemma Case1GroupedQueryAtInt4()
    ensures var r := EstimateVram(Case1, Some(80.0));
            && r.Success?
            && r.value.attentionType == GQA
            && r.value.attentionJudgmentReason == GroupedKv(8.0, 64.0)
            && r.value.modelMemoryGB * GiB == 35000000000.0
            && r.value.kvCacheGB == 10.0
            && r.value.kvCacheFormula == GqaFormula
            && r.value.kvCacheFormulaWithValues == Values(32.0, 4096.0, 80.0, 8.0, 128.0, 0.5)
            && r.value.systemOverheadGB * GiB == 7000000000.0
            && r.value.totalVRAMGB * GiB == 52737418240.0
            && r.value.requiredGPUs == Some(1)
  {
    assert DetermineAttentionType(Some(64.0), Some(8.0)) == Attention(GQA, GroupedKv(8.0, 64.0));
    SeventyBillion();
    Case1ModelMemory(CountText("70B"));
    Case1KvCache();
    var e := EstimateVram(Case1, Some(80.0)).value;
    TotalBytes(e.modelMemoryGB, e.kvCacheGB, e.systemOverheadGB, e.totalVRAMGB, 35000000000.0, 10.0 * GiB);
    GpuCountUnique(e.totalVRAMGB, 80.0, e.requiredGPUs.value, 1);
  }

  /** The average load printed for the first scenario: 65921772800 / 1024³,
      about 61.39 percent of the one 80 GB GPU. */
  lemma Case1AverageLoad()
    ensures var r := EstimateVram(Case1, Some(80.0));
            && r.Success?
            && r.value.avgGPULoad.Some? && r.value.avgGPULoad.value * GiB == 65921772800.0
  {
    Case1GroupedQueryAtInt4();
    LoadOfEstimate(EstimateVram(Case1, Some(80.0)).value, 80.0, 52737418240.0, 65921772800.0);
  }

  /** An estimate that fits on one GPU loads it with the total over the
      capacity, in percent. */
  lemma LoadOfEstimate(e: Estimation, capacity: real, totalBytes: real, loadBytes: real)
    requires capacity > 0.0
    requires (e.requiredGPUs, e.avgGPULoad) == GpuRequirements(e.totalVRAMGB, Some(capacity))
    requires e.requiredGPUs == Some(1)
    requires e.totalVRAMGB * GiB == totalBytes
    requires loadBytes * capacity == totalBytes * 100.0
    ensures e.avgGPULoad.Some? && e.avgGPULoad.value * GiB == loadBytes
  {
    LoadOnOneGpu(e.avgGPULoad.value, e.totalVRAMGB, capacity, totalBytes, loadBytes);
  }

  /** MHA at FP16: 175B parameters, 96 layers, 96 query and 96 KV heads of
      dimension 128, batch 8 at 2048 tokens, on 40 GB GPUs. */
  const Case2 := ModelConfig(Some(CountText("175B")), Some(96.0), Some(12288.0), Some(96.0), Some(96.0), Some(128.0),
                             FP16, 8.0, 2048.0, None)

  lemma Case2FullAttentionAtFp16()
    ensures var r := EstimateVram(Case2, Some(40.0));
            && r.Success?
            && r.value.attentionType == MHA
            && r.value.attentionJudgmentReason == KvEqualsHeads(96.0, 96.0)
            && r.value.modelMemoryGB * GiB == 350000000000.0
            && r.value.kvCacheGB == 72.0
            && r.value.totalVRAMGB * GiB == 497309411328.0
            && r.value.requiredGPUs == Some(12)
  {
    assert DetermineAttentionType(Some(96.0), Some(96.0)) == Attention(MHA, KvEqualsHeads(96.0, 96.0));
    OneHundredSeventyFiveBillion();
    Case2ModelMemory(CountText("175B"));
    Case2KvCache();
    var e := EstimateVram(Case2, Some(40.0)).value;
    TotalBytes(e.modelMemoryGB, e.kvCacheGB, e.systemOverheadGB, e.totalVRAMGB, 350000000000.0, 72.0 * GiB);
    GpuCountUnique(e.totalVRAMGB, 40.0, e.requiredGPUs.value, 12);
  }

  /** MQA at BF16: 7B parameters, 32 layers, 32 query heads over a single KV
      head of dimension 128, batch 16 at 8192 tokens, on 24 GB GPUs. */
  const Case3 := ModelConfig(Some(CountText("7B")), Some(32.0), Some(4096.0), Some(32.0), Some(1.0), Some(128.0),
                             BF16, 16.0, 8192.0, None)

  lemma Case3SingleKvHeadAtBf16()
    ensures var r := EstimateVram(Case3, Some(24.0));
            && r.Success?
            && r.value.attentionType == MQA
            && r.value.attentionJudgmentReason == SingleKvHead
            && r.value.modelMemoryGB * GiB == 14000000000.0
            && r.value.kvCacheGB == 2.0
            && r.value.totalVRAMGB * GiB == 18947483648.0
            && r.value.requiredGPUs == Some(1)
  {
    assert DetermineAttentionType(Some(32.0), Some(1.0)) == Attention(MQA, SingleKvHead);
    SevenBillion();
    Case3ModelMemory(CountText("7B"));
    Case3KvCache();
    var e := EstimateVram(Case3, Some(24.0)).value;
    TotalBytes(e.modelMemoryGB, e.kvCacheGB, e.systemOverheadGB, e.totalVRAMGB, 14000000000.0, 2.0 * GiB);
    GpuCountUnique(e.totalVRAMGB, 24.0, e.requiredGPUs.value, 1);
  }

  /** No KV-head count: 13B parameters at INT8, 40 layers, 40 heads of
      dimension 128, batch 4 at 4096 tokens, no GPU capacity given. */
  const Case4 := ModelConfig(Some(CountText("13B")), Some(40.0), Some(5120.0), Some(40.0), None, Some(128.0),
                             INT8, 4.0, 4096.0, None)

  lemma Case4MissingKvHeadsIsFullAttention()
    ensures var r := EstimateVram(Case4, None);
            && r.Success?
            && r.value.attentionType == MHA
            && r.value.attentionJudgmentReason == KvHeadsMissing
            && r.value.modelMemoryGB * GiB == 13000000000.0
            && r.value.kvCacheGB == 6.25
            && r.value.totalVRAMGB * GiB == 22310886400.0
            && r.value.requiredGPUs == None && r.value.avgGPULoad == None
  {
    assert DetermineAttentionType(Some(40.0), None) == Attention(MHA, KvHeadsMissing);
    ThirteenBillion();
    Case4ModelMemory(CountText("13B"));
    Case4KvCache();
    var e := EstimateVram(Case4, None).value;
    TotalBytes(e.modelMemoryGB, e.kvCacheGB, e.systemOverheadGB, e.totalVRAMGB, 13000000000.0, 6.25 * GiB);
  }

  /** The weights of Case1, for any count that parses like "70B". */
  lemma Case1ModelMemory(count: ParamCount)
    requires count.CountText? && count.s != "" && ParseParameterCount(count) == Success(70000000000.0)
    ensures var config := Case1.(totalParameters := Some(count));
            && CalculateModelMemory(config).Success?
            && CalculateModelMemory(config).value * GiB == 35000000000.0
  {
    var config := Case1.(totalParameters := Some(count));
    assert CountOrZero(config.totalParameters) == count;
    assert BytesPerParameter(config.quantization) == 0.5;
  }

  lemma Case1KvCache()
    ensures CalculateKvCache(Case1, GQA) == KvCache(10.0, GqaFormula, Values(32.0, 4096.0, 80.0, 8.0, 128.0, 0.5))
  {
    assert Evaluate(Values(32.0, 4096.0, 80.0, 8.0, 128.0, 0.5)) == 10.0 * GiB;
  }

  /** The weights of Case2, for any count that parses like "175B". */
  lemma Case2ModelMemory(count: ParamCount)
    requires count.CountText? && count.s != "" && ParseParameterCount(count) == Success(175000000000.0)
    ensures var config := Case2.(totalParameters := Some(count));
            && CalculateModelMemory(config).Success?
            && CalculateModelMemory(config).value * GiB == 350000000000.0
  {
    var config := Case2.(totalParameters := Some(count));
    assert CountOrZero(config.totalParameters) == count;
    assert BytesPerParameter(config.quantization) == 2.0;
  }

  lemma Case2KvCache()
    ensures CalculateKvCache(Case2, MHA).sizeGB == 72.0
  {
    assert Evaluate(Values(8.0, 2048.0, 96.0, 96.0, 128.0, 2.0)) == 72.0 * GiB;
  }

  /** The weights of Case3, for any count that parses like "7B". */
  lemma Case3ModelMemory(count: ParamCount)
    requires count.CountText? && count.s != "" && ParseParameterCount(count) == Success(7000000000.0)
    ensures var config := Case3.(totalParameters := Some(count));
            && CalculateModelMemory(config).Success?
            && CalculateModelMemory(config).value * GiB == 14000000000.0
  {
    var config := Case3.(totalParameters := Some(count));
    assert CountOrZero(config.totalParameters) == count;
    assert BytesPerParameter(config.quantization) == 2.0;
  }

  lemma Case3KvCache()
    ensures CalculateKvCache(Case3, MQA).sizeGB == 2.0
  {
    assert Evaluate(Values(16.0, 8192.0, 32.0, 1.0, 128.0, 2.0)) == 2.0 * GiB;
  }

  /** The weights of Case4, for any count that parses like "13B". */
  lemma Case4ModelMemory(count: ParamCount)
    requires count.CountText? && count.s != "" && ParseParameterCount(count) == Success(13000000000.0)
    ensures var config := Case4.(totalParameters := Some(count));
            && CalculateModelMemory(config).Success?
            && CalculateModelMemory(config).value * GiB == 13000000000.0
  {
    var config := Case4.(totalParameters := Some(count));
    assert CountOrZero(config.totalParameters) == count;
    assert BytesPerParameter(config.quantization) == 1.0;
    assert CalculateModelMemory(config) == Success(13000000000.0 / GiB);
  }

  lemma Case4KvCache()
    ensures CalculateKvCache(Case4, MHA).sizeGB == 6.25
  {
    assert Evaluate(Values(4.0, 4096.0, 40.0, 40.0, 128.0, 1.0)) == 6.25 * GiB;
  }

  /** The total of an estimate with the default 20 percent overhead, in
      bytes: 1.2 times the weights plus the KV cache. */
  lemma TotalBytes(model: real, kv: real, overhead: real, total: real, bytes: real, kvBytes: real)
    requires model * GiB == bytes && kv * GiB == kvBytes && overhead * 100.0 == model * 20.0
    requires total == model + kv + overhead
    ensures overhead * GiB == bytes / 5.0
    ensures total * GiB == 1.2 * bytes + kvBytes
  {
    assert overhead == model / 5.0;
  }

  /** Whole GPU counts are determined by the total: two counts `g` and `n`
      whose capacity both hold the total, while one GPU fewer does not, are
      the same count. */
  /** The average load on a single GPU is the total over its capacity, in
      percent. */
  lemma LoadOnOneGpu(load: real, total: real, capacity: real, totalBytes: real, loadBytes: real)
    requires capacity > 0.0
    requires load * (1 as real * capacity) == total * 100.0
    requires total * GiB == totalBytes
    requires loadBytes * capacity == totalBytes * 100.0
    ensures load * GiB == loadBytes
  {
    assert load * capacity == total * 100.0;
    calc {
      (load * GiB) * capacity;
      (load * capacity) * GiB;
      (total * GiB) * 100.0;
      loadBytes * capacity;
    }
    if load * GiB < loadBytes {
      RealArith.ProductGrows(load * GiB, loadBytes, capacity);
    } else if loadBytes < load * GiB {
      RealArith.ProductGrows(loadBytes, load * GiB, capacity);
    }
  }

  lemma GpuCountUnique(total: real, capacity: real, g: int, n: int)
    requires capacity > 0.0
    requires (g - 1) as real * capacity < total <= g as real * capacity
    requires (n - 1) as real * capacity < total <= n as real * capacity
    ensures g == n
  {
    WholeOrder(g, n);
    SameCount(g as real, n as real, (g - 1) as real, (n - 1) as real, capacity, total);
  }

  lemma WholeOrder(g: int, n: int)
    ensures g as real == n as real || g as real <= (n - 1) as real || n as real <= (g - 1) as real
  {
    if g < n {
      RealArith.IntAtMost(g, n - 1);
    } else if n < g {
      RealArith.IntAtMost(n, g - 1);
    }
  }

  lemma SameCount(g: real, n: real, gBelow: real, nBelow: real, capacity: real, total: real)
    requires capacity > 0.0
    requires gBelow * capacity < total <= g * capacity
    requires nBelow * capacity < total <= n * capacity
    requires g == n || g <= nBelow || n <= gBelow
    ensures g == n
  {
    if g <= nBelow {
      RealArith.ProductAtLeast(g, nBelow, capacity);
    } else if n <= gBelow {
      RealArith.ProductAtLeast(n, gBelow, capacity);
    }
  }
}
