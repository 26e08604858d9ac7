/**
 The host framework's tensors, seen only through their shapes.

 A tensor is represented by the term of library operations that produced it
 (an interpolation, an adaptive average pool, a convolution module, a
 channel-wise concatenation, or a feature map that arrives from elsewhere).
 The numerical kernels are not modelled; `ShapeOf` gives each term its shape,
 or the error that the library raises when the operation is ill-shaped.
 */
module Tensors {

  datatype Option<T> = None | Some(value: T)

  /** The ways an operation of the core, or a library call it makes, can fail. */
  datatype Error =
    | RankMismatch     // the tensor does not have the number of dimensions the operation needs
    | ChannelMismatch  // a convolution receives a channel count other than the one it was built for
    | InvalidSize      // a requested output size is negative, or a pool grid is empty
    | ShapeMismatch    // concatenated tensors disagree outside the channel axis
    | EmptyConcat      // concatenation of no tensors
    | NotIterable      // `size` is None where it is iterated
    | UnpackMismatch   // a shape or size does not unpack into exactly two values
    | MissingContext   // a gradient is asked for before any forward call recorded its context
    | NotASequence     // pool scales that are neither a list nor a tuple

  datatype Result<T> = Ok(value: T) | Err(error: Error)

  /** Dimensions of a tensor, in (batch, channel, height, width) order for feature maps. */
  type Shape = seq<nat>

  /** Interpolation modes; the mode only travels with the call, it never affects a shape. */
  datatype Mode = Nearest | Bilinear | Bicubic

  /** A scale factor: one number for both spatial axes, or one per axis. */
  datatype ScaleFactor = Uniform(factor: real) | PerAxis(factors: seq<real>)

  /** A convolution + normalisation + activation block, with stride 1. */
  datatype ConvModule = ConvModule(inChannels: nat, outChannels: nat, kernelSize: nat, padding: nat)

  datatype Tensor =
    | Input(id: nat, shape: Shape)
    | Interpolated(src: Tensor, size: seq<int>, scaleFactor: Option<ScaleFactor>,
                   mode: Mode, alignCorners: Option<bool>)
    | Pooled(src: Tensor, outputSize: int)
    | Convolved(src: Tensor, conv: ConvModule)
    | Concatenated(parts: seq<Tensor>)

  /** The spatial dimensions of a shape, as `shape[2:]` gives them. */
  function Spatial(s: Shape): (r: Shape)
    ensures |s| >= 2 ==> s == s[..2] + r
    ensures |s| < 2 ==> r == []
  {
    if |s| >= 2 then s[2..] else []
  }

  /** Channel count of a shape (0 for a shape of rank below 2). */
  function Channels(s: Shape): nat
  {
    if |s| >= 2 then s[1] else 0
  }

  predicate NonNegative(xs: seq<int>)
  {
    forall i :: 0 <= i < |xs| ==> xs[i] >= 0
  }

  /**
   Interpolation to an explicit size keeps the leading (batch, channel)
   dimensions and replaces the spatial ones by `size`. This is an assumption
   about the library; in particular, when both a size and a scale factor are
   given, the size is assumed to decide the shape.
   */
  function InterpolateShape(s: Shape, size: seq<int>): (r: Result<Shape>)
    ensures r.Ok? <==> |s| == 2 + |size| && NonNegative(size)
    ensures r.Ok? ==> |r.value| == |s| && r.value[..2] == s[..2] && r.value[2..] == size
  {
    if |s| != 2 + |size| then Err(RankMismatch)
    else if !NonNegative(size) then Err(InvalidSize)
    else Ok(s[..2] + size)
  }

  /**
   The library's interpolation call: the resampled tensor, or the error raised
   when the requested size does not fit the input.
   */
  function Interpolate(input: Tensor, size: seq<int>, scaleFactor: Option<ScaleFactor>,
                       mode: Mode, alignCorners: Option<bool>): (r: Result<Tensor>)
    ensures r.Ok? <==> ShapeOf(input).Ok? && InterpolateShape(ShapeOf(input).value, size).Ok?
    ensures r.Ok? ==> r.value == Interpolated(input, size, scaleFactor, mode, alignCorners)
  {
    var t := Interpolated(input, size, scaleFactor, mode, alignCorners);
    if ShapeOf(t).Ok? then Ok(t) else Err(ShapeOf(t).error)
  }

  /** Adaptive average pooling of a feature map to a `k` by `k` grid, whatever its input size. */
  function PoolShape(s: Shape, k: int): (r: Result<Shape>)
    ensures r.Ok? <==> |s| == 4 && k >= 1
    ensures r.Ok? ==> r.value == [s[0], s[1], k, k]
  {
    if |s| != 4 then Err(RankMismatch)
    else if k < 1 then Err(InvalidSize)
    else Ok([s[0], s[1], k, k])
  }

  function ConvExtent(n: nat, m: ConvModule): int
  {
    n + 2 * m.padding + 1 - m.kernelSize
  }

  /** A stride-1 convolution maps `inChannels` to `outChannels`; each spatial side becomes n + 2p + 1 - k. */
  function ConvShape(s: Shape, m: ConvModule): (r: Result<Shape>)
    ensures r.Ok? ==> |s| == 4 && s[1] == m.inChannels
    ensures r.Ok? ==> r.value == [s[0], m.outChannels, ConvExtent(s[2], m), ConvExtent(s[3], m)]
    ensures |s| == 4 && s[1] == m.inChannels && ConvExtent(s[2], m) >= 0 && ConvExtent(s[3], m) >= 0 ==> r.Ok?
  {
    if |s| != 4 then Err(RankMismatch)
    else if s[1] != m.inChannels then Err(ChannelMismatch)
    else if ConvExtent(s[2], m) < 0 || ConvExtent(s[3], m) < 0 then Err(InvalidSize)
    else Ok([s[0], m.outChannels, ConvExtent(s[2], m), ConvExtent(s[3], m)])
  }

  /** Two shapes agree on every axis except the channel axis. */
  predicate SameExceptChannels(a: Shape, b: Shape)
  {
    |a| == |b| && forall d :: 0 <= d < |a| && d != 1 ==> a[d] == b[d]
  }

  function ChannelSum(ss: seq<Shape>): nat
  {
    if |ss| == 0 then 0 else Channels(ss[0]) + ChannelSum(ss[1..])
  }

  /** Concatenation along the channel axis: the channel counts add up, every other axis must agree. */
  function ConcatShape(ss: seq<Shape>): (r: Result<Shape>)
    ensures r.Ok? <==> |ss| > 0 && |ss[0]| >= 2 && forall i :: 0 <= i < |ss| ==> SameExceptChannels(ss[i], ss[0])
    ensures r.Ok? ==> |r.value| == |ss[0]| && Channels(r.value) == ChannelSum(ss)
    ensures r.Ok? ==> forall d :: 0 <= d < |r.value| && d != 1 ==> r.value[d] == ss[0][d]
  {
    if |ss| == 0 then Err(EmptyConcat)
    else if |ss[0]| < 2 then Err(RankMismatch)
    else if !(forall i :: 0 <= i < |ss| ==> SameExceptChannels(ss[i], ss[0])) then Err(ShapeMismatch)
    else Ok(ss[0][1 := ChannelSum(ss)])
  }

  /** The shape of a tensor, or the error the library raises while computing it. */
  function ShapeOf(t: Tensor): Result<Shape>
    decreases t
  {
    match t
    case Input(_, s) => Ok(s)
    case Interpolated(src, size, _, _, _) =>
      (match ShapeOf(src)
       case Err(e) => Err(e)
       case Ok(s) => InterpolateShape(s, size))
    case Pooled(src, k) =>
      (match ShapeOf(src)
       case Err(e) => Err(e)
       case Ok(s) => PoolShape(s, k))
    case Convolved(src, m) =>
      (match ShapeOf(src)
       case Err(e) => Err(e)
       case Ok(s) => ConvShape(s, m))
    case Concatenated(parts) =>
      (match ShapesOf(parts)
       case Err(e) => Err(e)
       case Ok(ss) => ConcatShape(ss))
  }

  /** The shapes of a list of tensors, in order; the first failing one decides the error. */
  function ShapesOf(ts: seq<Tensor>): Result<seq<Shape>>
    decreases ts
  {
    if |ts| == 0 then Ok([])
    else
      match ShapeOf(ts[0])
      case Err(e) => Err(e)
      case Ok(s) =>
        (match ShapesOf(ts[1..])
         case Err(e) => Err(e)
         case Ok(rest) => Ok([s] + rest))
  }

  lemma {:induction false} ShapesOfAllOk(ts: seq<Tensor>, ss: seq<Shape>)
    requires |ts| == |ss|
    requires forall i :: 0 <= i < |ts| ==> ShapeOf(ts[i]) == Ok(ss[i])
    ensures ShapesOf(ts) == Ok(ss)
  {
    if |ts| > 0 {
      ShapesOfAllOk(ts[1..], ss[1..]);
      assert ss == [ss[0]] + ss[1..];
    }
  }

  lemma {:induction false} ChannelSumUniform(head: Shape, s: Shape, n: nat)
    requires |s| >= 2
    ensures ChannelSum([head] + seq(n, _ => s)) == Channels(head) + n * s[1]
    decreases n
  {
    if n > 0 {
      var rest := seq(n - 1, _ => s);
      assert ([head] + seq(n, _ => s))[1..] == [s] + rest;
      ChannelSumUniform(s, s, n - 1);
      assert ([s] + rest)[1..] == rest;
    } else {
      assert ([head] + seq(n, _ => s))[1..] == [];
    }
  }

  /**
   Concatenating a feature map with `n` tensors that share its batch and
   spatial size and have `c` channels each gives `C + n * c` channels.
   */
  lemma ConcatWithUniformParts(x: Tensor, xs: Shape, parts: seq<Tensor>, c: nat)
    requires ShapeOf(x) == Ok(xs) && |xs| == 4
    requires forall i :: 0 <= i < |parts| ==> ShapeOf(parts[i]) == Ok([xs[0], c, xs[2], xs[3]])
    ensures ShapeOf(Concatenated([x] + parts)) == Ok([xs[0], xs[1] + |parts| * c, xs[2], xs[3]])
  {
    var p: Shape := [xs[0], c, xs[2], xs[3]];
    var ss := [xs] + seq(|parts|, _ => p);
    ShapesOfAllOk([x] + parts, ss);
    ChannelSumUniform(xs, p, |parts|);
    assert forall i :: 0 <= i < |ss| ==> SameExceptChannels(ss[i], ss[0]);
    assert ss[0][1 := ChannelSum(ss)] == [xs[0], xs[1] + |parts| * c, xs[2], xs[3]];
  }
}
