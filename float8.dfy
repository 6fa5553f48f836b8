/** Float8 quantization settings and the predicates that classify them (max/nn/linear.py:50-168). */
module Float8 {
  import opened Wrappers
  import Graph

  /** The granularity at which a quantization scale factor applies. */
  datatype Float8ScaleGranularity = Tensor | Rowwise | Colwise | Block

  /** Whether a scale is loaded with the weights or computed from the input at run time. */
  datatype Float8ScaleOrigin = Static | Dynamic

  datatype Float8WeightScaleSpec = Float8WeightScaleSpec(granularity: Float8ScaleGranularity, dtype: Graph.DType)
  {
    predicate IsTensor() {
      granularity == Tensor
    }

    predicate IsRowwise() {
      granularity == Rowwise
    }

    predicate IsColwise() {
      granularity == Colwise
    }

    /** Exactly one of the four granularity predicates holds. */
    predicate IsBlock()
      ensures IsBlock() <==> !IsTensor() && !IsRowwise() && !IsColwise()
      ensures !(IsTensor() && IsRowwise()) && !(IsTensor() && IsColwise()) && !(IsRowwise() && IsColwise())
    {
      granularity == Block
    }
  }

  datatype Float8InputScaleSpec = Float8InputScaleSpec(
    granularity: Float8ScaleGranularity,
    origin: Float8ScaleOrigin,
    dtype: Graph.DType,
    activationScaleUb: Option<real>)

  datatype Float8Config = Float8Config(
    inputScale: Float8InputScaleSpec,
    weightScale: Float8WeightScaleSpec,
    mlpInFloat8: set<int>,
    attnQkvInFloat8: set<int>,
    embeddingOutputDtype: Option<Graph.DType>,
    quantMethod: Option<string>)
  {
    predicate IsStatic() {
      inputScale.origin == Static
    }

    /** A config is dynamic exactly when it is not static. */
    predicate IsDynamic()
      ensures IsDynamic() <==> !IsStatic()
    {
      inputScale.origin == Dynamic
    }
  }
}
