/**
 The differentiable resize operator and its two convenience wrappers.

 `ResizeFunction` is the custom-gradient function object: its forward call
 records the input's spatial size and the interpolation parameters, and its
 gradient call resamples the incoming gradient back to the recorded size with
 the recorded parameters. `Resize` is the `resize` wrapper: an advisory
 align-corners check, integer truncation of `size`, then the interpolation.
 `Upsample` is the module that stores a size and delegates to `Resize`.
 */
module Wrappers {
  import opened Tensors

  // ---------------------------------------------------------------------
  // Python's int() on a number, and Python truthiness of align_corners
  // ---------------------------------------------------------------------

  /** `int(x)`: truncation toward zero. */
  function Trunc(x: real): (n: int)
    ensures x >= 0.0 ==> n >= 0 && n as real <= x < n as real + 1.0
    ensures x < 0.0 ==> n <= 0 && n as real - 1.0 < x <= n as real
  {
    if x >= 0.0 then x.Floor else -((-x).Floor)
  }

  /** `tuple(int(x) for x in size)`. */
  function TruncAll(size: seq<real>): (r: seq<int>)
    ensures |r| == |size|
    ensures forall i :: 0 <= i < |size| ==> r[i] == Trunc(size[i])
  {
    seq(|size|, i requires 0 <= i < |size| => Trunc(size[i]))
  }

  /** Whole numbers as Python numbers. */
  function AsReals(dims: seq<nat>): (r: seq<real>)
    ensures |r| == |dims|
    ensures forall i :: 0 <= i < |dims| ==> r[i] == dims[i] as real
  {
    seq(|dims|, i requires 0 <= i < |dims| => dims[i] as real)
  }

  /** Truncating a sequence of whole numbers gives them back. */
  lemma TruncAllWhole(dims: seq<nat>)
    ensures TruncAll(AsReals(dims)) == dims
  {
  }

  /** `align_corners` is None, False or True; only True is truthy. */
  predicate Truthy(alignCorners: Option<bool>)
  {
    alignCorners == Some(true)
  }

  // ---------------------------------------------------------------------
  // The align-corners advisory
  // ---------------------------------------------------------------------

  /**
   The condition under which `resize` warns, exactly as written: the first test
   compares the output width with the output HEIGHT, and the warning needs both
   remainders to be non-zero.
   */
  predicate AlignWarning(inputH: int, inputW: int, outputH: int, outputW: int)
    ensures AlignWarning(inputH, inputW, outputH, outputW) ==>
              inputH > 1 && inputW > 1 && outputH > 1 && outputW > 1 &&
              (outputH > inputH || outputW > outputH)
  {
    (outputH > inputH || outputW > outputH) &&
    (outputH > 1 && outputW > 1 && inputH > 1 && inputW > 1) &&
    (outputH - 1) % (inputH - 1) != 0 &&
    (outputW - 1) % (inputW - 1) != 0
  }

  /** `output - 1` is `n` times `input - 1`: the output is `n x + 1` for an input of `x + 1`. */
  ghost predicate StretchedBy(n: int, input: int, output: int)
  {
    output - 1 == n * (input - 1)
  }

  /** The sizes the advisory message recommends: corners align on a whole stretch factor. */
  ghost predicate CornerAligned(input: int, output: int)
  {
    exists n :: StretchedBy(n, input, output)
  }

  lemma ProductBelowFactor(k: int, d: int)
    requires d > 0 && 0 <= k * d < d
    ensures k == 0
  {
  }

  lemma MultipleHasZeroRemainder(n: int, d: int)
    requires d > 0
    ensures (n * d) % d == 0
  {
    var a := n * d;
    var q, r := a / d, a % d;
    assert (n - q) * d == r;
    ProductBelowFactor(n - q, d);
  }

  lemma ZeroRemainderIffAligned(input: int, output: int)
    requires input > 1
    ensures (output - 1) % (input - 1) == 0 <==> CornerAligned(input, output)
  {
    var d := input - 1;
    if (output - 1) % d == 0 {
      assert StretchedBy((output - 1) / d, input, output);
    }
    if CornerAligned(input, output) {
      var n :| StretchedBy(n, input, output);
      MultipleHasZeroRemainder(n, d);
    }
  }

  /**
   For sizes above 1, the advisory fires exactly when the (literal) growth test
   holds and neither axis is corner-aligned.
   */
  lemma AlignWarningMeaning(inputH: int, inputW: int, outputH: int, outputW: int)
    requires inputH > 1 && inputW > 1 && outputH > 1 && outputW > 1
    ensures AlignWarning(inputH, inputW, outputH, outputW) <==>
              (outputH > inputH || outputW > outputH) &&
              !CornerAligned(inputH, outputH) && !CornerAligned(inputW, outputW)
  {
    ZeroRemainderIffAligned(inputH, outputH);
    ZeroRemainderIffAligned(inputW, outputW);
  }

  /** Sizes of 1 or less never warn. */
  lemma NoWarningForUnitSizes(inputH: int, inputW: int, outputH: int, outputW: int)
    requires inputH <= 1 || inputW <= 1 || outputH <= 1 || outputW <= 1
    ensures !AlignWarning(inputH, inputW, outputH, outputW)
  {
  }

  /** 10x10 to 15x15 warns (14 is not a multiple of 9); 9x9 to 17x17 does not (16 is twice 8). */
  lemma AlignWarningExamples()
    ensures AlignWarning(10, 10, 15, 15)
    ensures !AlignWarning(9, 9, 17, 17)
  {
  }

  /**
   The advisory needs BOTH remainders to be non-zero: 10x10 to 19x15 grows and
   its width is not corner-aligned (14 is not a multiple of 9), but its height
   is (18 is twice 9), so it does not warn.
   */
  lemma BothRemaindersNeeded()
    ensures !AlignWarning(10, 10, 19, 15)
    ensures CornerAligned(10, 19) && !CornerAligned(10, 15)
  {
    assert StretchedBy(2, 10, 19);
    ZeroRemainderIffAligned(10, 15);
  }

  /**
   Consequences of the literal `output_w > output_h` test: shrinking 10x10 to
   5x8 warns, while growing the width of 10x3 to 8x6 does not, although 5 is
   not a multiple of 2 and 7 is not a multiple of 9.
   */
  lemma LiteralGrowthTest()
    ensures AlignWarning(10, 10, 5, 8)
    ensures !AlignWarning(10, 3, 8, 6)
    ensures !CornerAligned(10, 8) && !CornerAligned(3, 6)
  {
  }

  // ---------------------------------------------------------------------
  // The resize wrapper
  // ---------------------------------------------------------------------

  /** What a call of `resize` does: whether it warned, and what it returned or raised. */
  datatype ResizeOutcome = ResizeOutcome(warned: bool, result: Result<Tensor>)

  /** The gate of the advisory check: asked for, a size given, and align_corners truthy. */
  predicate ChecksAlignment(size: Option<seq<real>>, alignCorners: Option<bool>, warning: bool)
    ensures ChecksAlignment(size, alignCorners, warning) <==> warning && size.Some? && alignCorners == Some(true)
  {
    warning && size.Some? && Truthy(alignCorners)
  }

  /** The advisory fires for this input shape and requested size (both must unpack into two values). */
  predicate WarnsFor(inShape: Shape, size: seq<real>)
  {
    |inShape| == 4 && |size| == 2 &&
    AlignWarning(inShape[2], inShape[3], Trunc(size[0]), Trunc(size[1]))
  }

  /** The delegation at the end of `resize`: iterate and truncate `size`, then interpolate. */
  function ResizeResult(input: Tensor, size: Option<seq<real>>, scaleFactor: Option<ScaleFactor>,
                        mode: Mode, alignCorners: Option<bool>): (r: Result<Tensor>)
    ensures size.None? ==> r == Err(NotIterable)
    ensures size.Some? ==> r == Interpolate(input, TruncAll(size.value), scaleFactor, mode, alignCorners)
  {
    if size.None? then Err(NotIterable)
    else Interpolate(input, TruncAll(size.value), scaleFactor, mode, alignCorners)
  }

  function Resize(input: Tensor, size: Option<seq<real>>, scaleFactor: Option<ScaleFactor>,
                  mode: Mode, alignCorners: Option<bool>, warning: bool): (o: ResizeOutcome)
    requires ShapeOf(input).Ok?
    ensures o.warned <==> ChecksAlignment(size, alignCorners, warning) && WarnsFor(ShapeOf(input).value, size.value)
    ensures size.None? ==> o.result == Err(NotIterable)
    ensures o.result.Ok? ==>
              o.result.value == Interpolated(input, TruncAll(size.value), scaleFactor, mode, alignCorners) &&
              ShapeOf(o.result.value).Ok?
    ensures (ChecksAlignment(size, alignCorners, warning) &&
             (|ShapeOf(input).value| != 4 || |size.value| != 2)) ==> o.result == Err(UnpackMismatch)
  {
    var inShape := ShapeOf(input).value;
    if ChecksAlignment(size, alignCorners, warning) then
      if |inShape| != 4 || |size.value| != 2 then
        ResizeOutcome(false, Err(UnpackMismatch))
      else
        var warned := AlignWarning(inShape[2], inShape[3], Trunc(size.value[0]), Trunc(size.value[1]));
        ResizeOutcome(warned, ResizeResult(input, size, scaleFactor, mode, alignCorners))
    else
      ResizeOutcome(false, ResizeResult(input, size, scaleFactor, mode, alignCorners))
  }

  /**
   The advisory never changes what `resize` returns: whenever the checked call
   returns, it returns what the unchecked call returns, and when the shape and
   size unpack into two values each, the two calls agree outright. Outside the
   gate the two calls are the same call, and the results can differ only under
   the gate with a failed unpacking.
   */
  lemma WarningNeverChangesResult(input: Tensor, size: Option<seq<real>>, scaleFactor: Option<ScaleFactor>,
                                  mode: Mode, alignCorners: Option<bool>)
    requires ShapeOf(input).Ok?
    ensures !Resize(input, size, scaleFactor, mode, alignCorners, false).warned
    ensures Resize(input, size, scaleFactor, mode, alignCorners, false).result ==
            ResizeResult(input, size, scaleFactor, mode, alignCorners)
    ensures Resize(input, size, scaleFactor, mode, alignCorners, true).result.Ok? ==>
              Resize(input, size, scaleFactor, mode, alignCorners, true).result ==
              Resize(input, size, scaleFactor, mode, alignCorners, false).result
    ensures |ShapeOf(input).value| == 4 && (size.Some? ==> |size.value| == 2) ==>
              Resize(input, size, scaleFactor, mode, alignCorners, true).result ==
              Resize(input, size, scaleFactor, mode, alignCorners, false).result
    ensures !ChecksAlignment(size, alignCorners, true) ==>
              Resize(input, size, scaleFactor, mode, alignCorners, true) ==
              Resize(input, size, scaleFactor, mode, alignCorners, false)
    ensures Resize(input, size, scaleFactor, mode, alignCorners, true).result !=
            Resize(input, size, scaleFactor, mode, alignCorners, false).result ==>
              ChecksAlignment(size, alignCorners, true) &&
              (|ShapeOf(input).value| != 4 || |size.value| != 2)
  {
  }

  /**
   The checked call can raise where the unchecked one returns: a 5-D input
   resized to a 3-entry size with `align_corners=True` fails to unpack under
   the advisory check, while the plain delegation interpolates.
   */
  lemma WarningCanRaise()
    ensures Resize(Input(0, [1, 2, 3, 4, 5]), Some([6.0, 7.0, 8.0]), None, Bilinear, Some(true), true).result ==
            Err(UnpackMismatch)
    ensures Resize(Input(0, [1, 2, 3, 4, 5]), Some([6.0, 7.0, 8.0]), None, Bilinear, Some(true), false).result ==
            Ok(Interpolated(Input(0, [1, 2, 3, 4, 5]), [6, 7, 8], None, Bilinear, Some(true)))
  {
    var size := [6.0, 7.0, 8.0];
    assert TruncAll(size) == [6, 7, 8];
  }

  /**
   The output of `resize` keeps the batch and channel dimensions and has the
   truncated `size` as its spatial dimensions.
   */
  lemma ResizeOutputShape(input: Tensor, size: seq<real>, scaleFactor: Option<ScaleFactor>,
                          mode: Mode, alignCorners: Option<bool>, warning: bool)
    requires ShapeOf(input).Ok?
    requires Resize(input, Some(size), scaleFactor, mode, alignCorners, warning).result.Ok?
    ensures ShapeOf(Resize(input, Some(size), scaleFactor, mode, alignCorners, warning).result.value) ==
            Ok(ShapeOf(input).value[..2] + TruncAll(size))
  {
  }

  // ---------------------------------------------------------------------
  // The custom-gradient function object
  // ---------------------------------------------------------------------

  /**
   The gradient resample of a forward interpolation takes a gradient shaped like
   the forward output back to the forward input's shape.
   */
  lemma AdjointRestoresInputShape(input: Tensor, size: seq<int>, scaleFactor: Option<ScaleFactor>,
                                  mode: Mode, alignCorners: Option<bool>, gradOutput: Tensor)
    requires Interpolate(input, size, scaleFactor, mode, alignCorners).Ok?
    requires ShapeOf(gradOutput) == ShapeOf(Interpolate(input, size, scaleFactor, mode, alignCorners).value)
    ensures Interpolate(gradOutput, Spatial(ShapeOf(input).value), scaleFactor, mode, alignCorners).Ok?
    ensures ShapeOf(Interpolate(gradOutput, Spatial(ShapeOf(input).value), scaleFactor, mode, alignCorners).value) ==
            ShapeOf(input)
  {
  }

  class ResizeFunction {
    /** Whether a forward call has recorded its context (the attributes exist). */
    var recorded: bool
    var inputSize: Shape
    var scaleFactor: Option<ScaleFactor>
    var mode: Mode
    var alignCorners: Option<bool>

    constructor ()
      ensures !recorded
    {
      recorded := false;
      inputSize := [];
      scaleFactor := None;
      mode := Nearest;
      alignCorners := None;
    }

    /** Forward: record the context, then interpolate. */
    method Execute(input: Tensor, size: seq<int>, scaleFactor: Option<ScaleFactor>,
                   mode: Mode, alignCorners: Option<bool>) returns (out: Result<Tensor>)
      requires ShapeOf(input).Ok?
      modifies this
      ensures recorded && inputSize == Spatial(ShapeOf(input).value)
      ensures this.scaleFactor == scaleFactor && this.mode == mode && this.alignCorners == alignCorners
      ensures out == Interpolate(input, size, scaleFactor, mode, alignCorners)
      ensures out.Ok? ==> ShapeOf(out.value) == Ok(ShapeOf(input).value[..2] + size)
    {
      inputSize := Spatial(ShapeOf(input).value);
      this.scaleFactor := scaleFactor;
      this.mode := mode;
      this.alignCorners := alignCorners;
      recorded := true;
      out := Interpolate(input, size, scaleFactor, mode, alignCorners);
    }

    /** Backward: resample the gradient to the recorded input size with the recorded parameters. */
    method Grad(gradOutput: Tensor) returns (g: Result<Tensor>)
      ensures !recorded ==> g == Err(MissingContext)
      ensures recorded ==> g == Interpolate(gradOutput, inputSize, scaleFactor, mode, alignCorners)
      ensures recorded && ShapeOf(gradOutput).Ok? && |ShapeOf(gradOutput).value| == 2 + |inputSize| ==>
                g.Ok? && ShapeOf(g.value) == Ok(ShapeOf(gradOutput).value[..2] + inputSize)
    {
      if !recorded {
        g := Err(MissingContext);
      } else {
        g := Interpolate(gradOutput, inputSize, scaleFactor, mode, alignCorners);
      }
    }
  }

  /**
   One forward call followed by its gradient call on the same function object,
   as the autodiff tape runs them: a gradient shaped like the forward output
   comes back shaped like the forward input.
   */
  method ForwardBackward(f: ResizeFunction, input: Tensor, size: seq<int>, scaleFactor: Option<ScaleFactor>,
                         mode: Mode, alignCorners: Option<bool>, gradOutput: Tensor)
    returns (out: Result<Tensor>, g: Result<Tensor>)
    requires ShapeOf(input).Ok?
    modifies f
    ensures out == Interpolate(input, size, scaleFactor, mode, alignCorners)
    ensures f.recorded && f.inputSize == Spatial(ShapeOf(input).value)
    ensures f.scaleFactor == scaleFactor && f.mode == mode && f.alignCorners == alignCorners
    ensures g == Interpolate(gradOutput, Spatial(ShapeOf(input).value), scaleFactor, mode, alignCorners)
    ensures out.Ok? && ShapeOf(gradOutput) == ShapeOf(out.value) ==> g.Ok? && ShapeOf(g.value) == ShapeOf(input)
  {
    out := f.Execute(input, size, scaleFactor, mode, alignCorners);
    g := f.Grad(gradOutput);
    if out.Ok? && ShapeOf(gradOutput) == ShapeOf(out.value) {
      AdjointRestoresInputShape(input, size, scaleFactor, mode, alignCorners, gradOutput);
    }
  }

  // ---------------------------------------------------------------------
  // The Upsample module
  // ---------------------------------------------------------------------

  /** `float(scale_factor) if scale_factor else None`: a zero factor is dropped. */
  function StoredScaleFactor(scaleFactor: Option<ScaleFactor>): (r: Option<ScaleFactor>)
    ensures scaleFactor == Some(Uniform(0.0)) ==> r == None
    ensures scaleFactor != Some(Uniform(0.0)) ==> r == scaleFactor
  {
    match scaleFactor
    case Some(Uniform(f)) => if f == 0.0 then None else scaleFactor
    case _ => scaleFactor
  }

  class Upsample {
    var size: Option<seq<real>>
    var scaleFactor: Option<ScaleFactor>
    var mode: Mode
    var alignCorners: Option<bool>

    constructor (size: Option<seq<real>>, scaleFactor: Option<ScaleFactor>, mode: Mode, alignCorners: Option<bool>)
      ensures this.size == size && this.scaleFactor == StoredScaleFactor(scaleFactor)
      ensures this.mode == mode && this.alignCorners == alignCorners
    {
      this.size := size;
      this.scaleFactor := StoredScaleFactor(scaleFactor);
      this.mode := mode;
      this.alignCorners := alignCorners;
    }

    /** A stored size is used when it is truthy: present and not empty. */
    predicate HasSize()
      reads this
      ensures !HasSize() <==> size == None || size == Some([])
    {
      size.Some? && |size.value| > 0
    }

    /** With a stored size: `resize` to that size, without a scale factor, with the stored mode and alignment. */
    method Execute(x: Tensor) returns (o: ResizeOutcome)
      requires HasSize()
      requires ShapeOf(x).Ok?
      ensures o == Resize(x, size, None, mode, alignCorners, true)
      ensures o.result.Ok? ==> ShapeOf(o.result.value) == Ok(ShapeOf(x).value[..2] + TruncAll(size.value))
    {
      o := Resize(x, size, None, mode, alignCorners, true);
      if o.result.Ok? {
        ResizeOutputShape(x, size.value, None, mode, alignCorners, true);
      }
    }
  }
}
