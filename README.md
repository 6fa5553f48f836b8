# Linear layers of MAX: configuration and sharding rules

This project models the decision logic of `max/nn/linear.py`, the Python file
that defines MAX's linear layers. The matrix arithmetic itself is done by graph
ops and kernels outside this file. What the file decides for itself is modelled:

- **Float8 configuration.** The scale granularities (tensor, row-wise,
  column-wise, block) and origins (static, dynamic), and the predicates that
  classify a config (module `Float8`, file `float8.dfy`).
- **`Linear.__init__`.** The weight is `(out_dim, in_dim)`. A bias `(out_dim,)`
  exists only with `has_bias`. A scalar input scale on the host CPU exists only
  for a static float8 config. The weight scale is `(out_dim, 1)` or `()`, and
  the constructor raises `ValueError` for an unsupported granularity. The pure
  specification is `InitSpec`; the imperative constructor is
  `Linear.Create`.
- **The `sharding_strategy` setter.** It copies the strategy onto the weight.
  It replicates a per-tensor weight scale, and a row-wise scale of a
  column-split weight. The bias is split only with a row-wise weight and is
  replicated otherwise. Specified by `StrategySet`; implemented by
  `Linear.SetShardingStrategy`.
- **`Linear.shard`.** It computes each shard's out_dim and keeps the bias on
  shard 0 only for column-split layers. It shares scalar scales and splits the
  other scales. Specified by `ShardSpec`; implemented by `Linear.Shard`. The
  lemma `BiasCarriedOnce` shows that a column-split layer's bias is added
  exactly once over all shards.
- **The guards of `ColumnParallelLinear.__init__` and `GPTQLinear.__init__`**,
  together with what these constructors then build (module `ParallelLinear`).
- **`DistributedGemmConfig.generate`, `MLP.__init__` and the MLP
  `sharding_strategy` setter.** Replicate is copied to all three projections.
  Tensor parallel splits gate and up by rows and down by columns (module `Mlp`).

The collaborators from `max.graph` are modelled as values in module `Graph`:
`DeviceRef`, `DType`, `QuantizationEncoding`, `ShardingStrategy` and `Weight`.
`Weight.shard(devices)` is foreign code. It stands as a parameter
`split(w, devices, i)` that gives the piece for device `i`, so there is
exactly one piece per device. The Python exceptions are the `LinearError`
values of a `Result` or `Outcome`. Where a layer object's fields are assigned
in place, the layer is a Dafny `class`. Each method of that class is tied to a
pure function of the old fields. The properties are proved about those
functions.

## Model

| member | source | states |
|---|---|---|
| `Float8.Float8WeightScaleSpec.IsBlock` | max/nn/linear.py:90-108 | exactly one of the four granularity predicates holds; block means none of tensor, row-wise, column-wise |
| `Float8.Float8Config.IsDynamic` | max/nn/linear.py:160-168 | a config is dynamic exactly when it is not static, so never both and never neither |
| `LinearLayer.QualifiedName` | max/nn/linear.py:252 | a missing or empty base name gives the bare suffix; otherwise the name is the base name, a dot, then the suffix |
| `LinearLayer.Float8Check` | max/nn/linear.py:283-302 | the float8 checks pass exactly when there is no config, or the input scale is tensor or column-wise and the weight scale is row-wise or tensor |
| `LinearLayer.InitSpec` | max/nn/linear.py:247-312 | fails exactly for an unsupported input granularity (reported first) or weight granularity; weight is (out_dim, in_dim) on the device; bias (out_dim,) iff has_bias; scalar CPU input scale iff static; CPU weight scale iff float8, (out_dim, 1) row-wise and () per-tensor; the bias has the layer's dtype; no weight has a sharding strategy yet; every weight is named by QualifiedName from the layer name (weight, bias, input_scale, weight_scale) and carries the layer's quantization encoding |
| `LinearLayer.Linear.constructor` | max/nn/linear.py:247-266 | sets device, clip threshold, config, the (out_dim, in_dim) weight and the optional bias, and no scales |
| `LinearLayer.Linear.Create` | max/nn/linear.py:217-312 | fails or succeeds exactly as InitSpec, with its error; on success a fresh well-formed layer whose fields are InitSpec's |
| `LinearLayer.WeightScaleStrategy` | max/nn/linear.py:328-343 | the weight scale keeps the device count and either follows the weight or is replicated; replicated iff per-tensor, or row-wise under a column split, or the strategy is itself replicate; a row-wise scale is never column-split |
| `LinearLayer.BiasStrategy` | max/nn/linear.py:345-356 | the bias keeps the device count; it is row-wise (the weight's own strategy) iff the weight is row-wise, and is replicated otherwise |
| `LinearLayer.StrategySet` | max/nn/linear.py:319-356 | the weight gets the strategy; the bias and weight scale get BiasStrategy and WeightScaleStrategy when present; nothing else changes and well-formedness is kept |
| `LinearLayer.StrategySetLastWins` | max/nn/linear.py:319-356 | setting a strategy twice leaves the layer as if only the second were set |
| `LinearLayer.Linear.SetShardingStrategy` | max/nn/linear.py:314-356 | the new fields are StrategySet of the old ones, and the getter `Strategy` (linear.py:314-317) then returns the strategy |
| `LinearLayer.ShardOutDim` | max/nn/linear.py:367-378 | no strategy raises ValueError; an empty shape raises IndexError; a row-wise split over zero devices divides by zero; otherwise the floor of rows over devices for row-wise, and all rows for the other strategies |
| `LinearLayer.ShardSpec` | max/nn/linear.py:358-446 | fails exactly without a strategy, on a short shape, on a division by zero, or on a float8 config the constructor rejects, with ShardOutDim's error first, then IndexError for a missing second dimension, then the constructor's float8 error; gives one shard per device, each holding weight piece i; on column splits only shard 0 keeps a bias; the input scale and a scalar weight scale are shared; any other weight scale is split; a float8 layer with no scale of its own gives each shard the scales its constructor builds (a scalar CPU input scale iff static, and a CPU weight scale of the shard's row count) |
| `LinearLayer.CountBiasedAll` | max/nn/linear.py:413-424 | when every shard has a bias, the count of biased shards is the number of shards |
| `LinearLayer.CountBiasedNone` | max/nn/linear.py:413-424 | when no shard has a bias, the count of biased shards is zero |
| `LinearLayer.BiasCarriedOnce` | max/nn/linear.py:413-424 | the shards of a column-split layer with a bias carry exactly one bias; those of any other layer carry one each |
| `LinearLayer.ColumnSplitBiasOnFirstShard` | max/nn/linear.py:345-351 | after a column-split strategy is set, shard 0 gets piece 0 of the replicated bias and no other shard has a bias |
| `LinearLayer.Linear.ReplaceShardFields` | max/nn/linear.py:410-442 | the freshly built layer for device i gets weight piece i, the shard's bias and the shared or split scales |
| `LinearLayer.Linear.Shard` | max/nn/linear.py:358-446 | fails or succeeds exactly as ShardSpec, with its error; on success one fresh, distinct, well-formed layer per device whose fields are ShardSpec's |
| `ParallelLinear.ColumnParallelGuard` | max/nn/linear.py:570-582 | passes exactly with at least one device and, given a tied weight, neither a float8 config nor a has_bias argument; no devices is reported first |
| `ParallelLinear.TiedWeightRejectsExplicitNoBias` | max/nn/linear.py:575-578 | a tied weight with has_bias=False passed explicitly is rejected too |
| `ParallelLinear.ColumnParallelBase` | max/nn/linear.py:584-596 | the layer is on the first device, its weight (the tied one if given) is row-wise over all devices, and it has a row-wise bias of shape (out_dim,) iff has_bias is true |
| `ParallelLinear.ColumnParallelShardsAreRowwisePieces` | max/nn/linear.py:598-612 | per-device layer n is on device n and holds piece n of the layer's own weight (of the tied weight, marked row-wise, when one is given) and, exactly when has_bias is true, piece n of the layer's own bias; both are marked row-wise over all devices before they are split |
| `ParallelLinear.ColumnParallelLinear.constructor` | max/nn/linear.py:593-594 | records the devices, their number and the per-device layers |
| `ParallelLinear.ColumnParallelLinear.DistributedLayer` | max/nn/linear.py:606-612 | a fresh well-formed Linear on device n with weight piece n and bias piece n |
| `ParallelLinear.ColumnParallelLinear.DistributedLayers` | max/nn/linear.py:598-612 | one fresh (so not the already allocated base layer), well-formed per-device layer per device, pairwise distinct |
| `ParallelLinear.ColumnParallelLinear.Create` | max/nn/linear.py:551-612 | fails exactly when the guard fails or the float8 config is rejected, with that error; otherwise the layer's fields are ColumnParallelBase, and each per-device layer is a distinct fresh layer, other than the base layer, whose fields are ColumnParallelShard |
| `ParallelLinear.GptqLinearInit` | max/nn/linear.py:899-961 | rejects has_bias, then a float8 config, then a missing config, then sym=False, in that order; otherwise (1, 1) uint8 qweight and scales on the device, named qweight and scales and carrying the quantization encoding, and an int32 (in_dim,) perm_idx without encoding iff desc_act |
| `ParallelLinear.GptqIgnoresOutDimAndDtype` | max/nn/linear.py:925 | out_dim and dtype do not affect the result |
| `Mlp.GenerateDistributedGemmConfig` | max/nn/linear.py:1055-1066 | matmul + all-reduce is disabled exactly when the variable is set to the empty string |
| `Mlp.ZeroStringEnablesAllreduce` | max/nn/linear.py:1065 | the value "0" still enables matmul + all-reduce |
| `Mlp.MlpProjectionStrategies` | max/nn/linear.py:1228-1244 | only replicate and tensor parallel are accepted; replicate goes to all three projections; tensor parallel gives exactly Rowwise(n) to gate and up and Colwise(n) to down, over the same device count n |
| `Mlp.TensorParallelBiasPlacement` | max/nn/linear.py:1233-1242 | under tensor parallelism the gate and up biases are row-wise, the down bias is replicated, and the down projection's shards carry its bias exactly once |
| `Mlp.MlpInitCheck` | max/nn/linear.py:1089-1147 | MLP construction fails on an empty device list (IndexError), then on a rejected float8 config, then on an unknown activation name |
| `Mlp.MLP.constructor` | max/nn/linear.py:1089-1150 | records the fields and no sharding strategy |
| `Mlp.MLP.Create` | max/nn/linear.py:1075-1150 | fails exactly as MlpInitCheck; otherwise three fresh distinct projections on the first device, gate and up (hidden -> feed-forward) and down (feed-forward -> hidden); every other field is recorded from the arguments, with no sharding strategy |
| `Mlp.MLP.SetShardingStrategy` | max/nn/linear.py:1219-1244 | records the strategy even when it rejects it; on rejection no projection changes; otherwise each projection's fields are StrategySet with its MlpProjectionStrategies entry; the MLP's other fields do not change |

## Left out

- Every forward `__call__` (max/nn/linear.py:448-497, 614-636, 660-670, 767-775, 874-892, 963-999, 1021-1034, 1152-1212). These wrap graph ops and kernels whose meaning is outside this file: matmul, allgather, concat, split, qmatmul and the float8 quantize and matmul kernels.
- Floating-point behaviour. `clip_weight` and `activation_scale_ub` are carried as values but never used in arithmetic.
- `LinearV1.create`, `QLinearV1._create`, `GPTQLinearV1._create` and `_allocate_if_needed` (max/nn/linear.py:639-872). These are deprecated factories that load tensors and call numpy (`argsort`) and byte reshaping.
- `MLPV1` (max/nn/linear.py:1003-1035) and `MLP.shard` (max/nn/linear.py:1246-1287).
- `Weight.shard`, `.to(device)` and `set_shared_weight`. These belong to `max.graph`. `Weight.shard` is the `split` parameter, with one piece per device.
- Aliasing of weights. A `Weight` is a value here. In the source, a scalar scale and the input scale are shared by reference between shards. A tied weight given to `ColumnParallelLinear` is also shared by reference, and setting the strategy changes it for its other owner too. The model keeps equal copies.
- The read of the environment variable in `DistributedGemmConfig.generate`. Its value is a parameter (`None` when unset).
- The device check of `Linear.__init__` (max/nn/linear.py:268-271). It is not a branch of `InitSpec`: the weight and the bias are both declared on `device`, so the check cannot fire. `InitSpec` proves the bias is on the weight's device.
- Python truthiness. `if float8_config`, `if self.weight_scale`, `if self.bias`, `if tied_weight` and `if not self.weight.sharding_strategy` are read as presence tests, because these classes define no truth value of their own in this file.
- `MLP.__init__` with a `linear_cls` other than `Linear`. The projections are always `Linear` layers.
- `devices` as a one-shot iterable. Device lists are sequences.
- Shape entries are natural numbers. Symbolic and negative dimensions are not modelled. Device counts of strategies are natural numbers.
- `ShardingStrategy` kinds other than row-wise, column-wise, head-aware column-wise, replicate and tensor parallel.
- `GPTQLinear` is a record returned by `GptqLinearInit`, not a class. Its fields are only set during construction. It has no `weight` field, as in the source.
- max/diagnostics/gpu/_types.py, which holds data structs without behaviour, and max/nn/sampling/__init__.py, which only re-exports imports.
