/**
  The `Linear` layer of max/nn/linear.py: how its weights, bias and float8
  scales are declared, how a sharding strategy is propagated from the weight to
  the scale and the bias, and how the layer is split into one layer per device.
 */
module LinearLayer {
  import opened Wrappers
  import opened Graph
  import Float8

  /** The exceptions raised by the layers of max/nn/linear.py. */
  datatype LinearError =
    // ValueError: the input scale is neither per-tensor nor column-wise.
    | UnsupportedInputScaleGranularity(granularity: Float8.Float8ScaleGranularity)
    // ValueError: the weight scale is neither row-wise nor per-tensor.
    | UnsupportedWeightScaleGranularity(granularity: Float8.Float8ScaleGranularity)
    // ValueError: `shard` was called before a sharding strategy was set.
    | NoShardingStrategy
    // IndexError: a shape or a device list is shorter than the code indexes.
    | IndexOutOfRange
    // ZeroDivisionError: a row-wise strategy over zero devices.
    | DivisionByZero
    // ValueError: ColumnParallelLinear was given no devices.
    | EmptyDevices
    // ValueError: ColumnParallelLinear with a tied weight and a float8 config or a bias argument.
    | TiedWeightUnsupported
    // ValueError: GPTQLinear with has_bias.
    | GptqBiasUnsupported
    // ValueError: GPTQLinear with a float8 config.
    | GptqFloat8Unsupported
    // AssertionError: GPTQLinear without a quantization config.
    | GptqMissingConfig
    // AssertionError: GPTQLinear with sym=False.
    | GptqAsymmetric
    // ValueError: MLP given a strategy other than replicate or tensor parallel.
    | UnsupportedShardingStrategy(strategy: ShardingStrategy)
    // AssertionError: MLP given an unknown activation function name.
    | UnknownActivation(name: string)

  /** The fields of a `Linear` layer, as a value. */
  datatype LinearState = LinearState(
    device: Device,
    clipWeight: Option<real>,
    float8Config: Option<Float8.Float8Config>,
    weight: Weight,
    bias: Option<Weight>,
    inputScale: Option<Weight>,
    weightScale: Option<Weight>)

  /**
    The two facts the layer's code asserts about itself: a weight scale exists
    only with a float8 config, and the input scale of a float8 layer is a scalar.
   */
  predicate WellFormed(st: LinearState) {
    && (st.weightScale.Some? ==> st.float8Config.Some?)
    && (st.float8Config.Some? && st.inputScale.Some? ==> |st.inputScale.value.shape| == 0)
  }

  /** `f"{name}.{suffix}" if name else suffix`: an absent or empty base name is dropped. */
  function QualifiedName(name: Option<string>, suffix: string): (r: string)
    ensures name.None? || name == Some("") ==> r == suffix
    ensures name.Some? && name.value != "" ==>
              && |r| == |name.value| + 1 + |suffix|
              && r[..|name.value|] == name.value
              && r[|name.value|] == '.'
              && r[|name.value| + 1..] == suffix
  {
    if name.Some? && name.value != "" then name.value + "." + suffix else suffix
  }

  // ---------------------------------------------------------------------------
  // Construction (Linear.__init__)
  // ---------------------------------------------------------------------------

  predicate InputGranularitySupported(c: Float8.Float8Config) {
    c.inputScale.granularity == Float8.Tensor || c.inputScale.granularity == Float8.Colwise
  }

  predicate WeightGranularitySupported(c: Float8.Float8Config) {
    c.weightScale.IsRowwise() || c.weightScale.IsTensor()
  }

  /** The granularity checks of the float8 branch, in the order the code makes them. */
  function Float8Check(config: Option<Float8.Float8Config>): (o: Outcome<LinearError>)
    ensures o.Pass? <==> config.None? || (InputGranularitySupported(config.value) && WeightGranularitySupported(config.value))
  {
    if config.None? then Pass
    else if !InputGranularitySupported(config.value) then
      Fail(UnsupportedInputScaleGranularity(config.value.inputScale.granularity))
    else if !WeightGranularitySupported(config.value) then
      Fail(UnsupportedWeightScaleGranularity(config.value.weightScale.granularity))
    else Pass
  }

  predicate ConfigSupported(config: Option<Float8.Float8Config>) {
    Float8Check(config).Pass?
  }

  /** The fields set before the float8 branch: device, clip threshold, config, weight and bias. */
  function InitBase(inDim: nat, outDim: nat, dtype: DType, device: Device, hasBias: bool,
                    encoding: Option<QuantizationEncoding>, config: Option<Float8.Float8Config>,
                    name: Option<string>, clipWeight: Option<real>): LinearState
  {
    var weight := NewWeight(QualifiedName(name, "weight"), dtype, [outDim, inDim], device, encoding);
    var bias := if hasBias then Some(NewWeight(QualifiedName(name, "bias"), dtype, [outDim], device, encoding)) else None;
    LinearState(device, clipWeight, config, weight, bias, None, None)
  }

  /** The shape of the weight scale: one entry per output row, or a scalar. */
  function WeightScaleShape(rows: nat, spec: Float8.Float8WeightScaleSpec): seq<nat>
    requires spec.IsRowwise() || spec.IsTensor()
  {
    if spec.IsRowwise() then [rows, 1] else []
  }

  /** The float8 branch: a static input scale and a weight scale, both on the host CPU. */
  function WithFloat8Scales(st: LinearState, encoding: Option<QuantizationEncoding>, name: Option<string>): LinearState
    requires ConfigSupported(st.float8Config) && |st.weight.shape| > 0
  {
    if st.float8Config.None? then st
    else
      var c := st.float8Config.value;
      var inputScale := if c.IsStatic() then Some(NewWeight(QualifiedName(name, "input_scale"), c.inputScale.dtype, [], HostCpu, encoding)) else None;
      var weightScale := NewWeight(QualifiedName(name, "weight_scale"), c.weightScale.dtype,
                                   WeightScaleShape(st.weight.shape[0], c.weightScale), HostCpu, encoding);
      st.(inputScale := inputScale, weightScale := Some(weightScale))
  }

  /** The fields of a layer whose construction succeeded. */
  function InitState(inDim: nat, outDim: nat, dtype: DType, device: Device, hasBias: bool,
                     encoding: Option<QuantizationEncoding>, config: Option<Float8.Float8Config>,
                     name: Option<string>, clipWeight: Option<real>): LinearState
    requires ConfigSupported(config)
  {
    WithFloat8Scales(InitBase(inDim, outDim, dtype, device, hasBias, encoding, config, name, clipWeight), encoding, name)
  }

  /** Linear.__init__: the new layer's fields, or the ValueError it raises. */
  function InitSpec(inDim: nat, outDim: nat, dtype: DType, device: Device, hasBias: bool,
                    encoding: Option<QuantizationEncoding>, config: Option<Float8.Float8Config>,
                    name: Option<string>, clipWeight: Option<real>): (r: Result<LinearState, LinearError>)
    // Errors: only unsupported float8 granularities fail, and the input scale is checked first.
    ensures r.Err? <==> config.Some? && (config.value.inputScale.granularity !in {Float8.Tensor, Float8.Colwise}
                                         || config.value.weightScale.granularity !in {Float8.Rowwise, Float8.Tensor})
    ensures config.Some? && config.value.inputScale.granularity !in {Float8.Tensor, Float8.Colwise} ==>
              r == Err(UnsupportedInputScaleGranularity(config.value.inputScale.granularity))
    ensures config.Some? && config.value.inputScale.granularity in {Float8.Tensor, Float8.Colwise}
            && config.value.weightScale.granularity !in {Float8.Rowwise, Float8.Tensor} ==>
              r == Err(UnsupportedWeightScaleGranularity(config.value.weightScale.granularity))
    // The weight is (out_dim, in_dim) on the requested device, without a strategy.
    ensures r.Ok? ==> r.value.weight.shape == [outDim, inDim] && r.value.weight.device == device
                      && r.value.weight.dtype == dtype && r.value.weight.strategy.None?
    // A bias of shape (out_dim,) exists exactly when has_bias, on the weight's device.
    ensures r.Ok? ==> (r.value.bias.Some? <==> hasBias)
    ensures r.Ok? && hasBias ==> r.value.bias.value.shape == [outDim] && r.value.bias.value.device == r.value.weight.device
    // A scalar input scale on the host CPU exists exactly for a static float8 config.
    ensures r.Ok? ==> (r.value.inputScale.Some? <==> config.Some? && config.value.IsStatic())
    ensures r.Ok? && r.value.inputScale.Some? ==>
              r.value.inputScale.value.shape == [] && r.value.inputScale.value.device == HostCpu
              && r.value.inputScale.value.dtype == config.value.inputScale.dtype
    // A weight scale on the host CPU exists exactly with a float8 config: (out_dim, 1) row-wise, () per-tensor.
    ensures r.Ok? ==> (r.value.weightScale.Some? <==> config.Some?)
    ensures r.Ok? && config.Some? ==> r.value.weightScale.value.device == HostCpu
                                      && r.value.weightScale.value.dtype == config.value.weightScale.dtype
    ensures r.Ok? && config.Some? && config.value.weightScale.IsRowwise() ==> r.value.weightScale.value.shape == [outDim, 1]
    ensures r.Ok? && config.Some? && config.value.weightScale.IsTensor() ==> r.value.weightScale.value.shape == []
    // No weight of a new layer has a sharding strategy yet.
    ensures r.Ok? && hasBias ==> r.value.bias.value.strategy.None?
    ensures r.Ok? && r.value.inputScale.Some? ==> r.value.inputScale.value.strategy.None?
    ensures r.Ok? && config.Some? ==> r.value.weightScale.value.strategy.None?
    // Every weight is named after the layer and carries the layer's quantization encoding; the bias has the weight's dtype.
    ensures r.Ok? ==> r.value.weight.name == QualifiedName(name, "weight") && r.value.weight.encoding == encoding
    ensures r.Ok? && hasBias ==> && r.value.bias.value.name == QualifiedName(name, "bias")
                                 && r.value.bias.value.dtype == dtype && r.value.bias.value.encoding == encoding
    ensures r.Ok? && r.value.inputScale.Some? ==> r.value.inputScale.value.name == QualifiedName(name, "input_scale")
                                                  && r.value.inputScale.value.encoding == encoding
    ensures r.Ok? && config.Some? ==> r.value.weightScale.value.name == QualifiedName(name, "weight_scale")
                                      && r.value.weightScale.value.encoding == encoding
    ensures r.Ok? ==> WellFormed(r.value) && r.value.device == device && r.value.float8Config == config
                      && r.value.clipWeight == clipWeight
  {
    match Float8Check(config)
    case Fail(e) => Err(e)
    case Pass => Ok(InitState(inDim, outDim, dtype, device, hasBias, encoding, config, name, clipWeight))
  }

  // ---------------------------------------------------------------------------
  // The sharding_strategy setter
  // ---------------------------------------------------------------------------

  /**
    The strategy given to the weight scale: a per-tensor scale, and a row-wise
    scale of a column-split weight, are replicated; otherwise the scale follows
    the weight.
   */
  function WeightScaleStrategy(spec: Float8.Float8WeightScaleSpec, s: ShardingStrategy): (r: ShardingStrategy)
    ensures r.numDevices == s.numDevices
    ensures r == s || r == Replicate(s.numDevices)
    ensures r.Replicate? <==> spec.IsTensor() || (spec.IsRowwise() && s.SplitsColumns()) || s.Replicate?
    ensures spec.IsRowwise() ==> !r.SplitsColumns()
    ensures !spec.IsTensor() && !(spec.IsRowwise() && s.SplitsColumns()) ==> r == s
  {
    var shouldReplicate := spec.IsTensor() || (s.SplitsColumns() && spec.IsRowwise());
    if shouldReplicate then Replicate(s.numDevices) else s
  }

  /** The strategy given to the bias: split only alongside a row-wise weight, replicated otherwise. */
  function BiasStrategy(s: ShardingStrategy): (r: ShardingStrategy)
    ensures r.numDevices == s.numDevices
    ensures r.Rowwise? <==> s.Rowwise?
    ensures r.Rowwise? || r.Replicate?
    ensures s.Rowwise? ==> r == s
  {
    if s.Rowwise? then s else Replicate(s.numDevices)
  }

  /** Linear.sharding_strategy = s, as a function of the layer's fields. */
  function StrategySet(st: LinearState, s: ShardingStrategy): (r: LinearState)
    requires WellFormed(st)
    ensures WellFormed(r)
    // The getter then returns s.
    ensures r.weight == st.weight.(strategy := Some(s))
    // Only the strategies change.
    ensures r.(weight := st.weight, bias := st.bias, weightScale := st.weightScale) == st
    ensures r.bias.Some? <==> st.bias.Some?
    ensures st.bias.Some? ==> r.bias.value == st.bias.value.(strategy := Some(BiasStrategy(s)))
    ensures r.weightScale.Some? <==> st.weightScale.Some?
    ensures st.weightScale.Some? ==>
              r.weightScale.value == st.weightScale.value.(strategy := Some(WeightScaleStrategy(st.float8Config.value.weightScale, s)))
  {
    var weightScale := if st.weightScale.Some? then
                         Some(st.weightScale.value.(strategy := Some(WeightScaleStrategy(st.float8Config.value.weightScale, s))))
                       else None;
    var bias := if st.bias.Some? then Some(st.bias.value.(strategy := Some(BiasStrategy(s)))) else None;
    st.(weight := st.weight.(strategy := Some(s)), weightScale := weightScale, bias := bias)
  }

  /** Setting a strategy twice keeps only the second. */
  lemma StrategySetLastWins(st: LinearState, s1: ShardingStrategy, s2: ShardingStrategy)
    requires WellFormed(st)
    ensures StrategySet(StrategySet(st, s1), s2) == StrategySet(st, s2)
  {
  }

  // ---------------------------------------------------------------------------
  // Linear.shard
  // ---------------------------------------------------------------------------

  /** The out_dim of each shard: the weight's rows divided among the devices when row-wise, all of them otherwise. */
  function ShardOutDim(w: Weight): (r: Result<nat, LinearError>)
    ensures w.strategy.None? ==> r == Err(NoShardingStrategy)
    ensures r.Ok? <==> w.strategy.Some? && |w.shape| > 0 && !(w.strategy.value.Rowwise? && w.strategy.value.numDevices == 0)
    ensures w.strategy.Some? && |w.shape| == 0 ==> r == Err(IndexOutOfRange)
    ensures r.Err? && w.strategy.Some? && |w.shape| > 0 ==> r == Err(DivisionByZero)
    ensures r.Ok? && w.strategy.value.Rowwise? ==>
              r.value * w.strategy.value.numDevices <= w.shape[0] < (r.value + 1) * w.strategy.value.numDevices
    ensures r.Ok? && !w.strategy.value.Rowwise? ==> r.value == w.shape[0]
  {
    if w.strategy.None? then Err(NoShardingStrategy)
    else if |w.shape| == 0 then Err(IndexOutOfRange)
    else if w.strategy.value.Rowwise? then
      if w.strategy.value.numDevices == 0 then Err(DivisionByZero)
      else Ok(w.shape[0] / w.strategy.value.numDevices)
    else Ok(w.shape[0])
  }

  /** The bias of shard `i`: on column-split layers only shard 0 keeps one, otherwise shard `i` takes bias piece `i`. */
  function ShardBias(st: LinearState, devices: seq<Device>, split: Splitter, i: nat, fallback: Option<Weight>): Option<Weight>
    requires st.weight.strategy.Some?
  {
    if st.bias.None? then fallback
    else if st.weight.strategy.value.SplitsColumns() && i > 0 then None
    else Some(split(st.bias.value, devices, i))
  }

  /** The weight scale of shard `i`: a scalar scale is shared, any other is replaced by its piece `i`. */
  function ShardWeightScale(st: LinearState, devices: seq<Device>, split: Splitter, i: nat, fallback: Option<Weight>): Option<Weight>
  {
    if st.float8Config.None? || st.weightScale.None? then fallback
    else if |st.weightScale.value.shape| == 0 then st.weightScale
    else Some(split(st.weightScale.value, devices, i))
  }

  /** The input scale of shard `i`: shared unchanged. */
  function ShardInputScale(st: LinearState, fallback: Option<Weight>): Option<Weight>
  {
    if st.float8Config.Some? && st.inputScale.Some? then st.inputScale else fallback
  }

  /**
    Shard `i`: a layer freshly constructed for `devices[i]` with the shard's
    out_dim, whose weight, bias and scales are then replaced.
   */
  function ShardAt(st: LinearState, devices: seq<Device>, split: Splitter, outDim: nat, i: nat): LinearState
    requires i < |devices| && |st.weight.shape| >= 2 && ConfigSupported(st.float8Config) && st.weight.strategy.Some?
  {
    var base := InitState(st.weight.shape[1], outDim, st.weight.dtype, devices[i], st.bias.Some?, None,
                          st.float8Config, None, st.clipWeight);
    base.(weight := split(st.weight, devices, i),
          bias := ShardBias(st, devices, split, i, base.bias),
          inputScale := ShardInputScale(st, base.inputScale),
          weightScale := ShardWeightScale(st, devices, split, i, base.weightScale))
  }

  /** Linear.shard(devices): one layer per device, or the error raised on the way. */
  function ShardSpec(st: LinearState, devices: seq<Device>, split: Splitter): (r: Result<seq<LinearState>, LinearError>)
    requires WellFormed(st)
    ensures st.weight.strategy.None? ==> r == Err(NoShardingStrategy)
    // The errors, in the order the code meets them: the out_dim computation, then the shard constructor.
    ensures ShardOutDim(st.weight).Err? ==> r == Err(ShardOutDim(st.weight).error)
    ensures ShardOutDim(st.weight).Ok? && |devices| > 0 && |st.weight.shape| < 2 ==> r == Err(IndexOutOfRange)
    ensures ShardOutDim(st.weight).Ok? && |devices| > 0 && |st.weight.shape| >= 2 && !ConfigSupported(st.float8Config) ==>
              r == Err(Float8Check(st.float8Config).error)
    ensures r.Err? <==> || st.weight.strategy.None?
                        || |st.weight.shape| == 0
                        || (st.weight.strategy.value.Rowwise? && st.weight.strategy.value.numDevices == 0)
                        || (|devices| > 0 && (|st.weight.shape| < 2 || !ConfigSupported(st.float8Config)))
    ensures r.Ok? ==> |r.value| == |devices|
    ensures r.Ok? ==> forall i :: 0 <= i < |r.value| ==>
              && r.value[i].device == devices[i]
              && r.value[i].weight == split(st.weight, devices, i)
              && r.value[i].float8Config == st.float8Config
              && r.value[i].clipWeight == st.clipWeight
              && WellFormed(r.value[i])
    // Bias: column-split layers keep it on shard 0 only; others give shard i bias piece i.
    ensures r.Ok? && st.bias.None? ==> forall i :: 0 <= i < |r.value| ==> r.value[i].bias.None?
    ensures r.Ok? && st.bias.Some? && st.weight.strategy.value.SplitsColumns() ==>
              forall i :: 0 <= i < |r.value| ==>
                r.value[i].bias == if i == 0 then Some(split(st.bias.value, devices, 0)) else None
    ensures r.Ok? && st.bias.Some? && !st.weight.strategy.value.SplitsColumns() ==>
              forall i :: 0 <= i < |r.value| ==> r.value[i].bias == Some(split(st.bias.value, devices, i))
    // Scales: the input scale and a scalar weight scale are shared; any other weight scale is split.
    ensures r.Ok? && st.float8Config.Some? && st.inputScale.Some? ==>
              forall i :: 0 <= i < |r.value| ==> r.value[i].inputScale == st.inputScale
    ensures r.Ok? && st.float8Config.Some? && st.weightScale.Some? && |st.weightScale.value.shape| == 0 ==>
              forall i :: 0 <= i < |r.value| ==> r.value[i].weightScale == st.weightScale
    ensures r.Ok? && st.float8Config.Some? && st.weightScale.Some? && |st.weightScale.value.shape| > 0 ==>
              forall i :: 0 <= i < |r.value| ==> r.value[i].weightScale == Some(split(st.weightScale.value, devices, i))
    ensures r.Ok? && st.float8Config.None? ==>
              forall i :: 0 <= i < |r.value| ==> r.value[i].inputScale.None? && r.value[i].weightScale.None?
    // A float8 layer without a scale of its own keeps the one its shard was constructed with.
    ensures r.Ok? && st.float8Config.Some? && st.inputScale.None? ==>
              forall i :: 0 <= i < |r.value| ==>
                && (r.value[i].inputScale.Some? <==> st.float8Config.value.IsStatic())
                && (r.value[i].inputScale.Some? ==>
                      r.value[i].inputScale.value.shape == [] && r.value[i].inputScale.value.device == HostCpu)
    ensures r.Ok? && st.float8Config.Some? && st.weightScale.None? ==>
              forall i :: 0 <= i < |r.value| ==>
                && r.value[i].weightScale.Some? && r.value[i].weightScale.value.device == HostCpu
                && r.value[i].weightScale.value.shape
                   == (if st.float8Config.value.weightScale.IsRowwise() then [ShardOutDim(st.weight).value, 1] else [])
  {
    match ShardOutDim(st.weight)
    case Err(e) => Err(e)
    case Ok(outDim) =>
      if |devices| == 0 then Ok([])
      else if |st.weight.shape| < 2 then Err(IndexOutOfRange)
      else if !ConfigSupported(st.float8Config) then Err(Float8Check(st.float8Config).error)
      else Ok(seq(|devices|, i requires 0 <= i < |devices| => ShardAt(st, devices, split, outDim, i)))
  }

  /** The number of layers in `shards` that carry a bias. */
  function CountBiased(shards: seq<LinearState>): (n: nat)
    ensures n <= |shards|
  {
    if shards == [] then 0 else (if shards[0].bias.Some? then 1 else 0) + CountBiased(shards[1..])
  }

  lemma {:induction false} CountBiasedAll(shards: seq<LinearState>)
    requires forall i :: 0 <= i < |shards| ==> shards[i].bias.Some?
    ensures CountBiased(shards) == |shards|
  {
    if shards != [] {
      CountBiasedAll(shards[1..]);
    }
  }

  lemma {:induction false} CountBiasedNone(shards: seq<LinearState>)
    requires forall i :: 0 <= i < |shards| ==> shards[i].bias.None?
    ensures CountBiased(shards) == 0
  {
    if shards != [] {
      CountBiasedNone(shards[1..]);
    }
  }

  /**
    The bias is added exactly once: a column-split layer's shards are summed, so
    only one of them carries the bias; a row-wise (or replicated) layer's shards
    each carry their own piece.
   */
  lemma BiasCarriedOnce(st: LinearState, devices: seq<Device>, split: Splitter)
    requires WellFormed(st) && ShardSpec(st, devices, split).Ok? && st.bias.Some? && |devices| > 0
    ensures st.weight.strategy.value.SplitsColumns() ==> CountBiased(ShardSpec(st, devices, split).value) == 1
    ensures !st.weight.strategy.value.SplitsColumns() ==> CountBiased(ShardSpec(st, devices, split).value) == |devices|
  {
    var shards := ShardSpec(st, devices, split).value;
    if st.weight.strategy.value.SplitsColumns() {
      CountBiasedNone(shards[1..]);
    } else {
      CountBiasedAll(shards);
    }
  }

  /**
    After a column-split strategy is set, the bias is replicated and shard 0
    receives the piece of that replicated bias; no other shard has a bias.
   */
  lemma ColumnSplitBiasOnFirstShard(st: LinearState, s: ShardingStrategy, devices: seq<Device>, split: Splitter)
    requires WellFormed(st) && st.bias.Some? && s.SplitsColumns()
    requires ShardSpec(StrategySet(st, s), devices, split).Ok? && |devices| > 0
    ensures ShardSpec(StrategySet(st, s), devices, split).value[0].bias
            == Some(split(st.bias.value.(strategy := Some(Replicate(s.numDevices))), devices, 0))
    ensures forall i :: 1 <= i < |devices| ==> ShardSpec(StrategySet(st, s), devices, split).value[i].bias.None?
  {
  }

  // ---------------------------------------------------------------------------
  // The Linear class
  // ---------------------------------------------------------------------------

  class Linear {
    var device: Device
    var clipWeight: Option<real>
    var float8Config: Option<Float8.Float8Config>
    var weight: Weight
    var bias: Option<Weight>
    var inputScale: Option<Weight>
    var weightScale: Option<Weight>

    function State(): LinearState
      reads this
    {
      LinearState(device, clipWeight, float8Config, weight, bias, inputScale, weightScale)
    }

    predicate Valid()
      reads this
    {
      WellFormed(State())
    }

    /** The fields set before the float8 branch of Linear.__init__. */
    constructor (inDim: nat, outDim: nat, dtype: DType, device: Device, hasBias: bool,
                 encoding: Option<QuantizationEncoding>, config: Option<Float8.Float8Config>,
                 name: Option<string>, clipWeight: Option<real>)
      ensures State() == InitBase(inDim, outDim, dtype, device, hasBias, encoding, config, name, clipWeight)
    {
      this.device := device;
      this.clipWeight := clipWeight;
      this.float8Config := config;
      weight := NewWeight(QualifiedName(name, "weight"), dtype, [outDim, inDim], device, encoding);
      if hasBias {
        bias := Some(NewWeight(QualifiedName(name, "bias"), dtype, [outDim], device, encoding));
      } else {
        bias := None;
      }
      inputScale := None;
      weightScale := None;
    }

    /** Linear.__init__: a new layer, or the ValueError raised for an unsupported float8 config. */
    static method Create(inDim: nat, outDim: nat, dtype: DType, device: Device, hasBias: bool,
                         encoding: Option<QuantizationEncoding>, config: Option<Float8.Float8Config>,
                         name: Option<string>, clipWeight: Option<real>) returns (r: Result<Linear, LinearError>)
      ensures r.Ok? <==> InitSpec(inDim, outDim, dtype, device, hasBias, encoding, config, name, clipWeight).Ok?
      ensures r.Err? ==> r.error == InitSpec(inDim, outDim, dtype, device, hasBias, encoding, config, name, clipWeight).error
      ensures r.Ok? ==> fresh(r.value) && r.value.Valid()
                        && r.value.State() == InitSpec(inDim, outDim, dtype, device, hasBias, encoding, config, name, clipWeight).value
    {
      var l := new Linear(inDim, outDim, dtype, device, hasBias, encoding, config, name, clipWeight);
      if config.Some? {
        var c := config.value;
        if c.IsStatic() {
          l.inputScale := Some(NewWeight(QualifiedName(name, "input_scale"), c.inputScale.dtype, [], HostCpu, encoding));
        }
        if !InputGranularitySupported(c) {
          return Err(UnsupportedInputScaleGranularity(c.inputScale.granularity));
        }
        var weightScaleShape: seq<nat>;
        if c.weightScale.IsRowwise() {
          weightScaleShape := [l.weight.shape[0], 1];
        } else if c.weightScale.IsTensor() {
          weightScaleShape := [];
        } else {
          return Err(UnsupportedWeightScaleGranularity(c.weightScale.granularity));
        }
        l.weightScale := Some(NewWeight(QualifiedName(name, "weight_scale"), c.weightScale.dtype, weightScaleShape, HostCpu, encoding));
      }
      r := Ok(l);
    }

    /** The sharding_strategy getter. */
    function Strategy(): Option<ShardingStrategy>
      reads this
    {
      weight.strategy
    }

    /** The sharding_strategy setter. */
    method SetShardingStrategy(strategy: Graph.ShardingStrategy)
      requires Valid()
      modifies this
      ensures Valid()
      ensures State() == StrategySet(old(State()), strategy)
      ensures Strategy() == Some(strategy)
    {
      weight := weight.(strategy := Some(strategy));
      if weightScale.Some? {
        var shouldReplicate := float8Config.value.weightScale.IsTensor()
                               || ((strategy.Colwise? || strategy.HeadAwareColwise?) && float8Config.value.weightScale.IsRowwise());
        weightScale := Some(weightScale.value.(strategy := Some(if shouldReplicate then Replicate(strategy.numDevices) else strategy)));
      }
      if bias.Some? {
        bias := Some(bias.value.(strategy := Some(if strategy.Rowwise? then strategy else Replicate(strategy.numDevices))));
      }
    }

    /** Shard `i` of Linear.shard: replaces the weight, bias and scales of a freshly constructed layer. */
    method ReplaceShardFields(sharded: Linear, devices: seq<Device>, split: Splitter, outDim: nat, i: nat)
      requires Valid() && i < |devices| && |weight.shape| >= 2 && ConfigSupported(float8Config) && weight.strategy.Some?
      requires sharded != this
      requires sharded.State() == InitState(weight.shape[1], outDim, weight.dtype, devices[i], bias.Some?, None,
                                            float8Config, None, clipWeight)
      modifies sharded
      ensures sharded.Valid() && sharded.State() == ShardAt(State(), devices, split, outDim, i)
    {
      sharded.weight := split(weight, devices, i);
      if bias.Some? {
        var isColwise := weight.strategy.value.Colwise? || weight.strategy.value.HeadAwareColwise?;
        if isColwise && i > 0 {
          sharded.bias := None;
        } else {
          sharded.bias := Some(split(bias.value, devices, i));
        }
      }
      if float8Config.Some? {
        if inputScale.Some? {
          sharded.inputScale := inputScale;
        }
        if weightScale.Some? {
          sharded.weightScale := if |weightScale.value.shape| == 0 then weightScale else Some(split(weightScale.value, devices, i));
        }
      }
    }

    /** Linear.shard(devices): one new layer per device, or the error raised. */
    method Shard(devices: seq<Device>, split: Splitter) returns (r: Result<seq<Linear>, LinearError>)
      requires Valid()
      ensures r.Ok? <==> ShardSpec(State(), devices, split).Ok?
      ensures r.Err? ==> r.error == ShardSpec(State(), devices, split).error
      ensures r.Ok? ==> |r.value| == |devices|
      ensures r.Ok? ==> forall i :: 0 <= i < |r.value| ==>
                fresh(r.value[i]) && r.value[i].Valid() && r.value[i].State() == ShardSpec(State(), devices, split).value[i]
      ensures r.Ok? ==> forall i, j :: 0 <= i < j < |r.value| ==> r.value[i] != r.value[j]
    {
      if weight.strategy.None? {
        return Err(NoShardingStrategy);
      }
      if |weight.shape| == 0 {
        return Err(IndexOutOfRange);
      }
      var outDim: nat;
      if weight.strategy.value.Rowwise? {
        if weight.strategy.value.numDevices == 0 {
          return Err(DivisionByZero);
        }
        outDim := weight.shape[0] / weight.strategy.value.numDevices;
      } else {
        outDim := weight.shape[0];
      }
      ghost var st := State();
      var shards: seq<Linear> := [];
      var i := 0;
      while i < |devices|
        invariant 0 <= i <= |devices| && |shards| == i
        invariant i > 0 ==> |st.weight.shape| >= 2 && ConfigSupported(st.float8Config)
        invariant forall k :: 0 <= k < i ==> fresh(shards[k]) && shards[k].Valid()
        invariant forall k :: 0 <= k < i ==> shards[k].State() == ShardAt(st, devices, split, outDim, k)
        invariant forall k, m :: 0 <= k < m < i ==> shards[k] != shards[m]
      {
        if |weight.shape| < 2 {
          return Err(IndexOutOfRange);
        }
        var created := Create(weight.shape[1], outDim, weight.dtype, devices[i], bias.Some?, None,
                              float8Config, None, clipWeight);
        if created.Err? {
          return Err(created.error);
        }
        var sharded := created.value;
        ReplaceShardFields(sharded, devices, split, outDim, i);
        shards := shards + [sharded];
        i := i + 1;
      }
      r := Ok(shards);
    }
  }
}
