/**
  The two `Linear` variants of max/nn/linear.py that guard their arguments:
  ColumnParallelLinear, which shards its weight row-wise over a list of devices,
  and GPTQLinear, which declares GPTQ-packed weights instead of a plain weight.
 */
module ParallelLinear {
  import opened Wrappers
  import opened Graph
  import Float8
  import opened LinearLayer

  // ---------------------------------------------------------------------------
  // ColumnParallelLinear
  // ---------------------------------------------------------------------------

  /**
    The argument checks of ColumnParallelLinear.__init__: a non-empty device
    list, and no float8 config and no has_bias argument beside a tied weight.
    `hasBias` is the has_bias keyword argument, None when it was not passed.
   */
  function ColumnParallelGuard(devices: seq<Device>, tiedWeight: Option<Weight>,
                               float8Config: Option<Float8.Float8Config>, hasBias: Option<bool>): (o: Outcome<LinearError>)
    ensures o.Pass? <==> |devices| > 0 && (tiedWeight.None? || (float8Config.None? && hasBias.None?))
    ensures |devices| == 0 ==> o == Fail(EmptyDevices)
    ensures o.Fail? && |devices| > 0 ==> o == Fail(TiedWeightUnsupported)
  {
    if |devices| == 0 then Fail(EmptyDevices)
    else if tiedWeight.Some? && (float8Config.Some? || hasBias.Some?) then Fail(TiedWeightUnsupported)
    else Pass
  }

  /** The guard looks at whether has_bias was passed, not at its value: has_bias=False is rejected too. */
  lemma TiedWeightRejectsExplicitNoBias(devices: seq<Device>, tiedWeight: Weight)
    requires |devices| > 0
    ensures ColumnParallelGuard(devices, Some(tiedWeight), None, Some(false)) == Fail(TiedWeightUnsupported)
  {
  }

  /**
    The fields of the layer itself: a Linear on the first device, its weight
    replaced by the tied weight if one is given, then sharded row-wise over all
    the devices.
   */
  function ColumnParallelBase(inDim: nat, outDim: nat, dtype: DType, devices: seq<Device>, tiedWeight: Option<Weight>,
                              hasBias: Option<bool>, encoding: Option<QuantizationEncoding>,
                              config: Option<Float8.Float8Config>, name: Option<string>, clipWeight: Option<real>): (r: LinearState)
    requires |devices| > 0 && ConfigSupported(config)
    ensures WellFormed(r) && r.device == devices[0]
    ensures r.weight.strategy == Some(Rowwise(|devices|))
    ensures tiedWeight.Some? ==> r.weight == tiedWeight.value.(strategy := Some(Rowwise(|devices|)))
    ensures tiedWeight.None? ==> r.weight.shape == [outDim, inDim] && r.weight.device == devices[0]
    ensures r.bias.Some? <==> hasBias == Some(true)
    ensures r.bias.Some? ==> r.bias.value.strategy == Some(Rowwise(|devices|)) && r.bias.value.shape == [outDim]
  {
    var init := InitState(inDim, outDim, dtype, devices[0], hasBias == Some(true), encoding, config, name, clipWeight);
    assert InitSpec(inDim, outDim, dtype, devices[0], hasBias == Some(true), encoding, config, name, clipWeight) == Ok(init);
    StrategySet(if tiedWeight.Some? then init.(weight := tiedWeight.value) else init, Rowwise(|devices|))
  }

  /** The per-device layer `n`: a Linear on `devices[n]` holding piece `n` of the weight and of the bias. */
  function ColumnParallelShard(base: LinearState, inDim: nat, outDim: nat, dtype: DType, devices: seq<Device>,
                               hasBias: Option<bool>, encoding: Option<QuantizationEncoding>,
                               config: Option<Float8.Float8Config>, name: Option<string>, clipWeight: Option<real>,
                               split: Splitter, n: nat): LinearState
    requires n < |devices| && ConfigSupported(config)
  {
    var layer := InitState(inDim, outDim, dtype, devices[n], hasBias == Some(true), encoding, config, name, clipWeight);
    layer.(weight := split(base.weight, devices, n),
           bias := if base.bias.Some? then Some(split(base.bias.value, devices, n)) else layer.bias)
  }

  /**
    Every per-device layer holds piece `n` of the layer's own weight (the tied
    one when given) and bias, both already marked row-wise over all devices.
   */
  lemma ColumnParallelShardsAreRowwisePieces(inDim: nat, outDim: nat, dtype: DType, devices: seq<Device>,
                                             tiedWeight: Option<Weight>, hasBias: Option<bool>,
                                             encoding: Option<QuantizationEncoding>, config: Option<Float8.Float8Config>,
                                             name: Option<string>, clipWeight: Option<real>, split: Splitter, n: nat)
    requires n < |devices| && ConfigSupported(config)
    ensures var base := ColumnParallelBase(inDim, outDim, dtype, devices, tiedWeight, hasBias, encoding, config, name, clipWeight);
            var layer := ColumnParallelShard(base, inDim, outDim, dtype, devices, hasBias, encoding, config, name, clipWeight, split, n);
            && layer.device == devices[n]
            && base.weight.strategy == Some(Rowwise(|devices|))
            && layer.weight == split(base.weight, devices, n)
            && (tiedWeight.Some? ==> layer.weight == split(tiedWeight.value.(strategy := Some(Rowwise(|devices|))), devices, n))
            && (hasBias == Some(true) ==>
                  && base.bias.Some? && base.bias.value.strategy == Some(Rowwise(|devices|))
                  && layer.bias == Some(split(base.bias.value, devices, n)))
            && (hasBias != Some(true) ==> layer.bias.None?)
  {
    var base := ColumnParallelBase(inDim, outDim, dtype, devices, tiedWeight, hasBias, encoding, config, name, clipWeight);
    var init := InitState(inDim, outDim, dtype, devices[n], hasBias == Some(true), encoding, config, name, clipWeight);
    assert InitSpec(inDim, outDim, dtype, devices[n], hasBias == Some(true), encoding, config, name, clipWeight) == Ok(init);
    if hasBias == Some(true) {
      assert base.bias.value.strategy == Some(Rowwise(|devices|));
    }
  }

  class ColumnParallelLinear {
    /** The Linear that ColumnParallelLinear extends. */
    var linear: Linear
    var devices: seq<Device>
    var numDevices: nat
    var distributedLinearLayers: seq<Linear>

    constructor (linear: Linear, devices: seq<Device>, layers: seq<Linear>)
      ensures this.linear == linear && this.devices == devices && numDevices == |devices|
      ensures distributedLinearLayers == layers
    {
      this.linear := linear;
      this.devices := devices;
      numDevices := |devices|;
      distributedLinearLayers := layers;
    }

    /** The per-device layer `n`: a new Linear on `devices[n]` given piece `n` of the weight and bias. */
    static method DistributedLayer(base: Linear, inDim: nat, outDim: nat, dtype: DType, devices: seq<Device>,
                                   hasBias: Option<bool>, encoding: Option<QuantizationEncoding>,
                                   config: Option<Float8.Float8Config>, name: Option<string>, clipWeight: Option<real>,
                                   split: Splitter, n: nat) returns (layer: Linear)
      requires n < |devices| && ConfigSupported(config)
      ensures fresh(layer) && layer.Valid()
      ensures layer.State() == ColumnParallelShard(base.State(), inDim, outDim, dtype, devices, hasBias, encoding, config,
                                                   name, clipWeight, split, n)
    {
      // The same config was accepted for the layer itself, so this construction succeeds.
      var created := Linear.Create(inDim, outDim, dtype, devices[n], hasBias == Some(true), encoding, config, name, clipWeight);
      layer := created.value;
      layer.device := devices[n];
      layer.weight := split(base.weight, devices, n);
      if base.bias.Some? {
        layer.bias := Some(split(base.bias.value, devices, n));
      }
    }

    /** The loop of ColumnParallelLinear.__init__ that builds one Linear per device. */
    static method DistributedLayers(base: Linear, inDim: nat, outDim: nat, dtype: DType, devices: seq<Device>,
                                    hasBias: Option<bool>, encoding: Option<QuantizationEncoding>,
                                    config: Option<Float8.Float8Config>, name: Option<string>, clipWeight: Option<real>,
                                    split: Splitter) returns (layers: seq<Linear>)
      requires ConfigSupported(config)
      ensures |layers| == |devices|
      ensures forall k :: 0 <= k < |devices| ==>
                && fresh(layers[k]) && layers[k].Valid()
                && layers[k].State() == ColumnParallelShard(base.State(), inDim, outDim, dtype, devices, hasBias, encoding,
                                                            config, name, clipWeight, split, k)
      ensures forall i, j :: 0 <= i < j < |layers| ==> layers[i] != layers[j]
    {
      layers := [];
      var n := 0;
      while n < |devices|
        invariant 0 <= n <= |devices| && |layers| == n
        invariant forall k :: 0 <= k < n ==> fresh(layers[k]) && layers[k].Valid()
        invariant forall i, j :: 0 <= i < j < n ==> layers[i] != layers[j]
        invariant forall k :: 0 <= k < n ==>
                    layers[k].State() == ColumnParallelShard(base.State(), inDim, outDim, dtype, devices, hasBias, encoding,
                                                             config, name, clipWeight, split, k)
      {
        var layer := DistributedLayer(base, inDim, outDim, dtype, devices, hasBias, encoding, config, name, clipWeight, split, n);
        assert forall k :: 0 <= k < n ==> layers[k] != layer;
        layers := layers + [layer];
        n := n + 1;
      }
    }

    /** ColumnParallelLinear.__init__: the layer and its per-device layers, or the error raised. */
    static method Create(inDim: nat, outDim: nat, dtype: DType, devices: seq<Device>, tiedWeight: Option<Weight>,
                         hasBias: Option<bool>, encoding: Option<QuantizationEncoding>,
                         config: Option<Float8.Float8Config>, name: Option<string>, clipWeight: Option<real>,
                         split: Splitter) returns (r: Result<ColumnParallelLinear, LinearError>)
      ensures r.Ok? <==> ColumnParallelGuard(devices, tiedWeight, config, hasBias).Pass? && ConfigSupported(config)
      ensures r.Err? && ColumnParallelGuard(devices, tiedWeight, config, hasBias).Fail? ==>
                r.error == ColumnParallelGuard(devices, tiedWeight, config, hasBias).error
      ensures r.Err? && ColumnParallelGuard(devices, tiedWeight, config, hasBias).Pass? ==>
                r.error == Float8Check(config).error
      ensures r.Ok? ==> && fresh(r.value) && fresh(r.value.linear) && r.value.linear.Valid()
                        && r.value.linear.State()
                           == ColumnParallelBase(inDim, outDim, dtype, devices, tiedWeight, hasBias, encoding, config, name, clipWeight)
                        && r.value.devices == devices && r.value.numDevices == |devices|
                        && |r.value.distributedLinearLayers| == |devices|
      ensures r.Ok? ==> forall n :: 0 <= n < |devices| ==>
                && fresh(r.value.distributedLinearLayers[n]) && r.value.distributedLinearLayers[n].Valid()
                && r.value.distributedLinearLayers[n] != r.value.linear
                && r.value.distributedLinearLayers[n].State()
                   == ColumnParallelShard(r.value.linear.State(), inDim, outDim, dtype, devices, hasBias, encoding, config,
                                          name, clipWeight, split, n)
      ensures r.Ok? ==> forall i, j :: 0 <= i < j < |r.value.distributedLinearLayers| ==>
                          r.value.distributedLinearLayers[i] != r.value.distributedLinearLayers[j]
    {
      var guard := ColumnParallelGuard(devices, tiedWeight, config, hasBias);
      if guard.Fail? {
        return Err(guard.error);
      }
      var created := Linear.Create(inDim, outDim, dtype, devices[0], hasBias == Some(true), encoding, config, name, clipWeight);
      if created.Err? {
        return Err(created.error);
      }
      var base := created.value;
      if tiedWeight.Some? {
        base.weight := tiedWeight.value;
      }
      base.SetShardingStrategy(Rowwise(|devices|));
      var layers := DistributedLayers(base, inDim, outDim, dtype, devices, hasBias, encoding, config, name, clipWeight, split);
      var cpl := new ColumnParallelLinear(base, devices, layers);
      r := Ok(cpl);
    }
  }

  // ---------------------------------------------------------------------------
  // GPTQLinear
  // ---------------------------------------------------------------------------

  /** The GPTQ settings the layer reads. */
  datatype QuantizationConfig = QuantizationConfig(quantMethod: string, bits: nat, groupSize: int, descAct: bool, sym: bool)

  /** The fields GPTQLinear.__init__ sets. */
  datatype GptqLinearState = GptqLinearState(
    device: Device,
    qweight: Weight,
    scales: Weight,
    quantizationConfig: QuantizationConfig,
    permIdx: Option<Weight>)

  /** GPTQLinear.__init__: the new layer's fields, or the ValueError or AssertionError it raises. */
  function GptqLinearInit(inDim: nat, outDim: nat, dtype: DType, device: Device, hasBias: bool,
                          encoding: Option<QuantizationEncoding>, quantizationConfig: Option<QuantizationConfig>,
                          float8Config: Option<Float8.Float8Config>): (r: Result<GptqLinearState, LinearError>)
    ensures r.Ok? <==> !hasBias && float8Config.None? && quantizationConfig.Some? && quantizationConfig.value.sym
    // The checks, in the order the code makes them.
    ensures hasBias ==> r == Err(GptqBiasUnsupported)
    ensures !hasBias && float8Config.Some? ==> r == Err(GptqFloat8Unsupported)
    ensures !hasBias && float8Config.None? && quantizationConfig.None? ==> r == Err(GptqMissingConfig)
    ensures !hasBias && float8Config.None? && quantizationConfig.Some? && !quantizationConfig.value.sym ==> r == Err(GptqAsymmetric)
    // Placeholder (1, 1) uint8 packed weights on the layer's device.
    ensures r.Ok? ==> && r.value.device == device
                      && r.value.qweight.shape == [1, 1] && r.value.qweight.dtype == UInt8 && r.value.qweight.device == device
                      && r.value.scales.shape == [1, 1] && r.value.scales.dtype == UInt8 && r.value.scales.device == device
                      && r.value.quantizationConfig == quantizationConfig.value
                      && r.value.qweight.name == "qweight" && r.value.qweight.encoding == encoding
                      && r.value.scales.name == "scales" && r.value.scales.encoding == encoding
    // A permutation index of in_dim int32 entries exactly with desc_act.
    ensures r.Ok? ==> (r.value.permIdx.Some? <==> quantizationConfig.value.descAct)
    ensures r.Ok? && r.value.permIdx.Some? ==>
              && r.value.permIdx.value.shape == [inDim] && r.value.permIdx.value.dtype == Int32
              && r.value.permIdx.value.device == device && r.value.permIdx.value.encoding.None?
              && r.value.permIdx.value.name == "perm_idx"
  {
    if hasBias then Err(GptqBiasUnsupported)
    else if float8Config.Some? then Err(GptqFloat8Unsupported)
    else
      var qweight := NewWeight("qweight", UInt8, [1, 1], device, encoding);
      var scales := NewWeight("scales", UInt8, [1, 1], device, encoding);
      if quantizationConfig.None? then Err(GptqMissingConfig)
      else if !quantizationConfig.value.sym then Err(GptqAsymmetric)
      else
        var permIdx := if quantizationConfig.value.descAct then Some(NewWeight("perm_idx", Int32, [inDim], device, None)) else None;
        Ok(GptqLinearState(device, qweight, scales, quantizationConfig.value, permIdx))
  }

  /** out_dim and dtype are discarded: the layer depends on neither. */
  lemma GptqIgnoresOutDimAndDtype(inDim: nat, outDim1: nat, outDim2: nat, dtype1: DType, dtype2: DType, device: Device,
                                  hasBias: bool, encoding: Option<QuantizationEncoding>,
                                  quantizationConfig: Option<QuantizationConfig>, float8Config: Option<Float8.Float8Config>)
    ensures GptqLinearInit(inDim, outDim1, dtype1, device, hasBias, encoding, quantizationConfig, float8Config)
            == GptqLinearInit(inDim, outDim2, dtype2, device, hasBias, encoding, quantizationConfig, float8Config)
  {
  }
}
