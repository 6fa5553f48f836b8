/**
  The graph-level collaborators that the linear layers use: devices, dtypes,
  quantization encodings, sharding strategies and weights. Only the parts the
  layers read or assign are modelled.
 */
module Graph {
  import opened Wrappers

  /** A device reference (DeviceRef): the host CPU or an accelerator. */
  datatype Device = CPU(id: nat) | GPU(id: nat)

  /** DeviceRef.CPU(), the device on which scalar scales are kept. */
  const HostCpu: Device := CPU(0)

  datatype DType = Float32 | Float16 | BFloat16 | Float8E4M3FN | UInt8 | Int32

  datatype QuantizationEncoding = Q4_0 | Q4_K | Q5_K | Q6_K | GPTQ

  /** How a weight is split (or copied) across `numDevices` devices. */
  datatype ShardingStrategy =
    | Rowwise(numDevices: nat)
    | Colwise(numDevices: nat)
    | HeadAwareColwise(numDevices: nat)
    | Replicate(numDevices: nat)
    | TensorParallel(numDevices: nat)
  {
    /** The column-splitting strategies, whose partial results are summed. */
    predicate SplitsColumns() {
      Colwise? || HeadAwareColwise?
    }
  }

  /** A named, typed, shaped weight placed on a device, with an optional sharding strategy. */
  datatype Weight = Weight(
    name: string,
    dtype: DType,
    shape: seq<nat>,
    device: Device,
    encoding: Option<QuantizationEncoding>,
    strategy: Option<ShardingStrategy>)

  /** A freshly declared weight: no sharding strategy yet. */
  function NewWeight(name: string, dtype: DType, shape: seq<nat>, device: Device,
                     encoding: Option<QuantizationEncoding>): Weight
  {
    Weight(name, dtype, shape, device, encoding, None)
  }

  /**
    `Weight.shard(devices)`, which is not part of this model, returns one piece
    per device; `split(w, devices, i)` stands for the piece at index `i`.
   */
  type Splitter = (Weight, seq<Device>, nat) -> Weight
}
