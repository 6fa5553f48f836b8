/**
  The multi-layer perceptron of max/nn/linear.py: three Linear projections
  (gate, down and up) and the mapping of one MLP-level sharding strategy onto
  them; and the distributed GEMM option it carries.
 */
module Mlp {
  import opened Wrappers
  import opened Graph
  import Float8
  import opened LinearLayer

  // ---------------------------------------------------------------------------
  // DistributedGemmConfig
  // ---------------------------------------------------------------------------

  datatype DistributedGemmConfig = DistributedGemmConfig(enableMatmulAllreduce: bool)

  /**
    DistributedGemmConfig.generate, given the value of the environment variable
    LLAMA_ENABLE_DIST_GEMM_KERNELS (None when unset): matmul + all-reduce is
    enabled unless the variable is set to the empty string.
   */
  function GenerateDistributedGemmConfig(env: Option<string>): (r: DistributedGemmConfig)
    ensures !r.enableMatmulAllreduce <==> env == Some("")
  {
    if env.None? then DistributedGemmConfig(true)
    else DistributedGemmConfig(env.value != "")
  }

  /** Python's bool() of a string tests only emptiness: setting the variable to "0" still enables it. */
  lemma ZeroStringEnablesAllreduce()
    ensures GenerateDistributedGemmConfig(Some("0")).enableMatmulAllreduce
  {
  }

  // ---------------------------------------------------------------------------
  // The projection strategies
  // ---------------------------------------------------------------------------

  datatype ProjectionStrategies = ProjectionStrategies(gate: ShardingStrategy, down: ShardingStrategy, up: ShardingStrategy)

  /**
    How MLP.sharding_strategy distributes a strategy over the projections:
    replicate copies every projection; tensor parallel splits gate and up by
    rows and down by columns over the same devices; anything else is rejected.
   */
  function MlpProjectionStrategies(s: ShardingStrategy): (r: Result<ProjectionStrategies, LinearError>)
    ensures r.Ok? <==> s.Replicate? || s.TensorParallel?
    ensures r.Err? ==> r.error == UnsupportedShardingStrategy(s)
    ensures r.Ok? ==> && r.value.gate.numDevices == s.numDevices
                      && r.value.down.numDevices == s.numDevices
                      && r.value.up.numDevices == s.numDevices
    ensures s.Replicate? ==> r == Ok(ProjectionStrategies(s, s, s))
    ensures s.TensorParallel? ==>
              r == Ok(ProjectionStrategies(Rowwise(s.numDevices), Colwise(s.numDevices), Rowwise(s.numDevices)))
    ensures s.TensorParallel? ==> r.value.gate.Rowwise? && r.value.up.Rowwise? && r.value.down.SplitsColumns()
  {
    if s.Replicate? then Ok(ProjectionStrategies(s, s, s))
    else if s.TensorParallel? then
      Ok(ProjectionStrategies(Rowwise(s.numDevices), Colwise(s.numDevices), Rowwise(s.numDevices)))
    else Err(UnsupportedShardingStrategy(s))
  }

  /**
    Under tensor parallelism the gate and up biases are split with their rows
    and the down bias is replicated, so that after sharding it is added on the
    first device only.
   */
  lemma TensorParallelBiasPlacement(gate: LinearState, down: LinearState, up: LinearState, n: nat,
                                    devices: seq<Device>, split: Splitter)
    requires WellFormed(gate) && WellFormed(down) && WellFormed(up)
    requires gate.bias.Some? && down.bias.Some? && up.bias.Some?
    ensures var plan := MlpProjectionStrategies(TensorParallel(n)).value;
            && StrategySet(gate, plan.gate).bias.value.strategy == Some(Rowwise(n))
            && StrategySet(up, plan.up).bias.value.strategy == Some(Rowwise(n))
            && StrategySet(down, plan.down).bias.value.strategy == Some(Replicate(n))
    ensures var downShards := ShardSpec(StrategySet(down, MlpProjectionStrategies(TensorParallel(n)).value.down), devices, split);
            downShards.Ok? && |devices| > 0 ==> CountBiased(downShards.value) == 1
  {
    var downSet := StrategySet(down, MlpProjectionStrategies(TensorParallel(n)).value.down);
    if ShardSpec(downSet, devices, split).Ok? && |devices| > 0 {
      BiasCarriedOnce(downSet, devices, split);
    }
  }

  // ---------------------------------------------------------------------------
  // The MLP class
  // ---------------------------------------------------------------------------

  /** The activation function names the layer accepts. */
  const ActivationFunctions: set<string> := {"silu", "gelu", "gelu_tanh", "relu", "tanh", "sigmoid"}

  /** The errors MLP.__init__ raises, in the order it meets them. */
  function MlpInitCheck(devices: seq<Device>, config: Option<Float8.Float8Config>, activationFunction: string): (o: Outcome<LinearError>)
    ensures o.Pass? <==> |devices| > 0 && ConfigSupported(config) && activationFunction in ActivationFunctions
    ensures |devices| == 0 ==> o == Fail(IndexOutOfRange)
    ensures |devices| > 0 && !ConfigSupported(config) ==> o == Float8Check(config)
    ensures |devices| > 0 && ConfigSupported(config) && activationFunction !in ActivationFunctions ==>
              o == Fail(UnknownActivation(activationFunction))
  {
    if |devices| == 0 then Fail(IndexOutOfRange)
    else if !ConfigSupported(config) then Float8Check(config)
    else if activationFunction !in ActivationFunctions then Fail(UnknownActivation(activationFunction))
    else Pass
  }

  class MLP {
    var devices: seq<Device>
    var numDevices: nat
    var distGemmConfig: Option<DistributedGemmConfig>
    var hiddenDim: nat
    var feedForwardLength: nat
    var gateProj: Linear
    var downProj: Linear
    var upProj: Linear
    var quantizationEncoding: Option<QuantizationEncoding>
    var float8Config: Option<Float8.Float8Config>
    var activationFunction: string
    var shardingStrategy: Option<ShardingStrategy>

    /** Three distinct, well-formed projections. */
    predicate Valid()
      reads this, gateProj, downProj, upProj
    {
      && gateProj != downProj && gateProj != upProj && downProj != upProj
      && gateProj.Valid() && downProj.Valid() && upProj.Valid()
    }

    constructor (devices: seq<Device>, distGemmConfig: Option<DistributedGemmConfig>, hiddenDim: nat,
                 feedForwardLength: nat, gateProj: Linear, downProj: Linear, upProj: Linear,
                 quantizationEncoding: Option<QuantizationEncoding>, float8Config: Option<Float8.Float8Config>,
                 activationFunction: string)
      ensures this.devices == devices && numDevices == |devices| && this.distGemmConfig == distGemmConfig
      ensures this.hiddenDim == hiddenDim && this.feedForwardLength == feedForwardLength
      ensures this.gateProj == gateProj && this.downProj == downProj && this.upProj == upProj
      ensures this.quantizationEncoding == quantizationEncoding && this.float8Config == float8Config
      ensures this.activationFunction == activationFunction && shardingStrategy.None?
    {
      this.devices := devices;
      numDevices := |devices|;
      this.distGemmConfig := distGemmConfig;
      this.hiddenDim := hiddenDim;
      this.feedForwardLength := feedForwardLength;
      this.gateProj := gateProj;
      this.downProj := downProj;
      this.upProj := upProj;
      this.quantizationEncoding := quantizationEncoding;
      this.float8Config := float8Config;
      this.activationFunction := activationFunction;
      shardingStrategy := None;
    }

    /**
      MLP.__init__ with the default Linear projections: gate and up map
      hidden_dim to feed_forward_length, down maps it back, all on the first device.
     */
    static method Create(dtype: DType, encoding: Option<QuantizationEncoding>, hiddenDim: nat, feedForwardLength: nat,
                         devices: seq<Device>, hasBias: bool, activationFunction: string,
                         config: Option<Float8.Float8Config>, distGemmConfig: Option<DistributedGemmConfig>)
      returns (r: Result<MLP, LinearError>)
      ensures r.Ok? <==> MlpInitCheck(devices, config, activationFunction).Pass?
      ensures r.Err? ==> r.error == MlpInitCheck(devices, config, activationFunction).error
      ensures r.Ok? ==> && fresh(r.value) && fresh(r.value.gateProj) && fresh(r.value.downProj) && fresh(r.value.upProj)
                        && r.value.Valid() && r.value.shardingStrategy.None?
                        && r.value.devices == devices && r.value.hiddenDim == hiddenDim
                        && r.value.feedForwardLength == feedForwardLength
                        && r.value.numDevices == |devices| && r.value.distGemmConfig == distGemmConfig
                        && r.value.quantizationEncoding == encoding && r.value.float8Config == config
                        && r.value.activationFunction == activationFunction
      ensures r.Ok? ==>
                && r.value.gateProj.State()
                   == InitSpec(hiddenDim, feedForwardLength, dtype, devices[0], hasBias, encoding, config, None, None).value
                && r.value.downProj.State()
                   == InitSpec(feedForwardLength, hiddenDim, dtype, devices[0], hasBias, encoding, config, None, None).value
                && r.value.upProj.State()
                   == InitSpec(hiddenDim, feedForwardLength, dtype, devices[0], hasBias, encoding, config, None, None).value
    {
      if |devices| == 0 {
        return Err(IndexOutOfRange);
      }
      var gate := Linear.Create(hiddenDim, feedForwardLength, dtype, devices[0], hasBias, encoding, config, None, None);
      if gate.Err? {
        return Err(gate.error);
      }
      // The same config was just accepted, so the other two projections are built too.
      var down := Linear.Create(feedForwardLength, hiddenDim, dtype, devices[0], hasBias, encoding, config, None, None);
      var up := Linear.Create(hiddenDim, feedForwardLength, dtype, devices[0], hasBias, encoding, config, None, None);
      if activationFunction !in ActivationFunctions {
        return Err(UnknownActivation(activationFunction));
      }
      var mlp := new MLP(devices, distGemmConfig, hiddenDim, feedForwardLength, gate.value, down.value, up.value,
                         encoding, config, activationFunction);
      r := Ok(mlp);
    }

    /** The sharding_strategy setter; the strategy is recorded even when it is then rejected. */
    method SetShardingStrategy(strategy: ShardingStrategy) returns (o: Outcome<LinearError>)
      requires Valid()
      modifies this, gateProj, downProj, upProj
      ensures Valid() && shardingStrategy == Some(strategy)
      ensures gateProj == old(gateProj) && downProj == old(downProj) && upProj == old(upProj)
      ensures o.Pass? <==> MlpProjectionStrategies(strategy).Ok?
      ensures o.Fail? ==> && o.error == UnsupportedShardingStrategy(strategy)
                          && gateProj.State() == old(gateProj.State())
                          && downProj.State() == old(downProj.State())
                          && upProj.State() == old(upProj.State())
      ensures o.Pass? ==> var plan := MlpProjectionStrategies(strategy).value;
                          && gateProj.State() == StrategySet(old(gateProj.State()), plan.gate)
                          && downProj.State() == StrategySet(old(downProj.State()), plan.down)
                          && upProj.State() == StrategySet(old(upProj.State()), plan.up)
      ensures devices == old(devices) && hiddenDim == old(hiddenDim) && feedForwardLength == old(feedForwardLength)
      ensures float8Config == old(float8Config) && distGemmConfig == old(distGemmConfig)
      ensures numDevices == old(numDevices) && quantizationEncoding == old(quantizationEncoding)
      ensures activationFunction == old(activationFunction)
    {
      shardingStrategy := Some(strategy);
      if strategy.Replicate? {
        gateProj.SetShardingStrategy(strategy);
        downProj.SetShardingStrategy(strategy);
        upProj.SetShardingStrategy(strategy);
        o := Pass;
      } else if strategy.TensorParallel? {
        gateProj.SetShardingStrategy(Rowwise(strategy.numDevices));
        downProj.SetShardingStrategy(Colwise(strategy.numDevices));
        upProj.SetShardingStrategy(Rowwise(strategy.numDevices));
        o := Pass;
      } else {
        o := Fail(UnsupportedShardingStrategy(strategy));
      }
    }
  }
}
