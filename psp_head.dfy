/**
 The pyramid pooling module (PPM) and the channel arithmetic of the PSP decode head.

 A PPM holds one branch per pool scale, in the order of the scales: an adaptive
 average pool to an `s` by `s` grid followed by a 1x1 convolution module from
 `inChannels` to `channels`. Its forward call runs every branch on the input
 and resizes each result bilinearly back to the input's spatial size. The head
 concatenates the input with those outputs along the channel axis and feeds
 the result to a 3x3 bottleneck declared for exactly that many channels.
 */
module PspHead {
  import opened Tensors
  import opened Wrappers

  /** One branch: `nn.Sequential(AdaptiveAvgPool2d(poolScale), conv)`. */
  datatype Branch = Branch(poolScale: int, conv: ConvModule)

  /**
   The branch built for one pool scale; no scale, 1 included, is treated
   differently. Its convolution maps `inChannels` to `channels` and, being 1x1
   without padding, keeps every spatial side as it is.
   */
  function PyramidBranch(scale: int, inChannels: nat, channels: nat): (b: Branch)
    ensures b.poolScale == scale
    ensures b.conv.inChannels == inChannels && b.conv.outChannels == channels
    ensures forall n: nat :: ConvExtent(n, b.conv) == n
  {
    Branch(scale, ConvModule(inChannels, channels, 1, 0))
  }

  /**
   Running a branch on `x`: pool, then convolve. It runs only on a feature map
   with the branch's input channel count and a non-empty grid, and gives the
   convolution's channels on the pooled grid.
   */
  function BranchOutput(b: Branch, x: Tensor): (r: Tensor)
    ensures ShapeOf(r).Ok? ==> ShapeOf(x).Ok? && BranchAccepts(ShapeOf(x).value, b.poolScale, b.conv.inChannels)
    ensures ShapeOf(x).Ok? && BranchAccepts(ShapeOf(x).value, b.poolScale, b.conv.inChannels) &&
            ConvExtent(b.poolScale, b.conv) >= 0 ==>
              ShapeOf(r) == Ok([ShapeOf(x).value[0], b.conv.outChannels,
                                ConvExtent(b.poolScale, b.conv), ConvExtent(b.poolScale, b.conv)])
  {
    var pooled := Pooled(x, b.poolScale);
    assert ShapeOf(pooled) == if ShapeOf(x).Ok? then PoolShape(ShapeOf(x).value, b.poolScale)
                              else Err(ShapeOf(x).error);
    var r := Convolved(pooled, b.conv);
    assert ShapeOf(r) == if ShapeOf(pooled).Ok? then ConvShape(ShapeOf(pooled).value, b.conv)
                         else Err(ShapeOf(pooled).error);
    r
  }

  /**
   A branch's output resized to `spatial`: always bilinear, with no scale
   factor and the module's `align_corners`. Resized to the spatial size of an
   accepted input, it has that input's batch and spatial size and `channels`
   channels.
   */
  function PyramidOutput(x: Tensor, spatial: seq<int>, scale: int, inChannels: nat, channels: nat,
                         alignCorners: Option<bool>): (r: Tensor)
    ensures r.Interpolated? && r.size == spatial
    ensures r.mode == Bilinear && r.scaleFactor.None? && r.alignCorners == alignCorners
    ensures ShapeOf(x).Ok? && BranchAccepts(ShapeOf(x).value, scale, inChannels) &&
            spatial == Spatial(ShapeOf(x).value) ==>
              var xs := ShapeOf(x).value;
              ShapeOf(r) == Ok([xs[0], channels, xs[2], xs[3]])
  {
    var branch := PyramidBranch(scale, inChannels, channels);
    var r := Interpolated(BranchOutput(branch, x), spatial, None, Bilinear, alignCorners);
    if ShapeOf(x).Ok? && BranchAccepts(ShapeOf(x).value, scale, inChannels) && spatial == Spatial(ShapeOf(x).value) then
      var xs := ShapeOf(x).value;
      assert ConvExtent(scale, branch.conv) == scale;
      var bs: Shape := [xs[0], channels, scale, scale];
      assert ShapeOf(BranchOutput(branch, x)) == Ok(bs);
      assert bs[..2] + Spatial(xs) == [xs[0], channels, xs[2], xs[3]];
      r
    else r
  }

  /** The outputs of the branches for `scales`, in the order of the scales. */
  function PyramidOutputs(x: Tensor, spatial: seq<int>, scales: seq<int>, inChannels: nat, channels: nat,
                          alignCorners: Option<bool>): (outs: seq<Tensor>)
    ensures |outs| == |scales|
  {
    if |scales| == 0 then []
    else [PyramidOutput(x, spatial, scales[0], inChannels, channels, alignCorners)] +
         PyramidOutputs(x, spatial, scales[1..], inChannels, channels, alignCorners)
  }

  /** The i-th output belongs to the i-th scale, and to nothing else. */
  lemma {:induction false} PyramidOutputsAt(x: Tensor, spatial: seq<int>, scales: seq<int>, inChannels: nat,
                                            channels: nat, alignCorners: Option<bool>, i: nat)
    requires i < |scales|
    ensures PyramidOutputs(x, spatial, scales, inChannels, channels, alignCorners)[i] ==
            PyramidOutput(x, spatial, scales[i], inChannels, channels, alignCorners)
  {
    if i > 0 {
      PyramidOutputsAt(x, spatial, scales[1..], inChannels, channels, alignCorners, i - 1);
    }
  }

  /**
   Reordering the pool scales reorders the outputs identically: for any
   rearrangement `perm` of positions, the outputs for the rearranged scales are
   the rearranged outputs.
   */
  lemma ReorderedScales(x: Tensor, spatial: seq<int>, scales: seq<int>, inChannels: nat, channels: nat,
                        alignCorners: Option<bool>, perm: seq<nat>)
    requires forall k :: 0 <= k < |perm| ==> perm[k] < |scales|
    ensures var outs := PyramidOutputs(x, spatial, scales, inChannels, channels, alignCorners);
            PyramidOutputs(x, spatial, seq(|perm|, k requires 0 <= k < |perm| => scales[perm[k]]),
                           inChannels, channels, alignCorners) ==
            seq(|perm|, k requires 0 <= k < |perm| => outs[perm[k]])
  {
    var outs := PyramidOutputs(x, spatial, scales, inChannels, channels, alignCorners);
    var reordered := seq(|perm|, k requires 0 <= k < |perm| => scales[perm[k]]);
    var lhs := PyramidOutputs(x, spatial, reordered, inChannels, channels, alignCorners);
    var rhs := seq(|perm|, k requires 0 <= k < |perm| => outs[perm[k]]);
    forall k | 0 <= k < |perm|
      ensures lhs[k] == rhs[k]
    {
      PyramidOutputsAt(x, spatial, reordered, inChannels, channels, alignCorners, k);
      PyramidOutputsAt(x, spatial, scales, inChannels, channels, alignCorners, perm[k]);
    }
  }

  /** The input a branch can run on: a feature map with `inChannels` channels, and a non-empty grid. */
  predicate BranchAccepts(xs: Shape, scale: int, inChannels: nat)
  {
    |xs| == 4 && xs[1] == inChannels && scale >= 1
  }

  /** The input every branch for `scales` can run on. */
  predicate Accepts(xs: Shape, inChannels: nat, scales: seq<int>)
  {
    |xs| == 4 && xs[1] == inChannels && forall i :: 0 <= i < |scales| ==> scales[i] >= 1
  }

  /**
   A branch runs exactly on the inputs it accepts; its pre-resize output has
   `channels` channels on the `s` by `s` grid.
   */
  lemma BranchShape(x: Tensor, xs: Shape, scale: int, inChannels: nat, channels: nat)
    requires ShapeOf(x) == Ok(xs)
    ensures ShapeOf(BranchOutput(PyramidBranch(scale, inChannels, channels), x)).Ok? <==>
            BranchAccepts(xs, scale, inChannels)
    ensures BranchAccepts(xs, scale, inChannels) ==>
            ShapeOf(BranchOutput(PyramidBranch(scale, inChannels, channels), x)) ==
            Ok([xs[0], channels, scale, scale])
  {
  }

  /**
   Resizing a branch output to the input's spatial size succeeds, warns exactly
   on the advisory condition for an `s` by `s` source, and gives a tensor with
   the input's batch and spatial size and `channels` channels.
   */
  lemma BranchResized(x: Tensor, xs: Shape, scale: int, inChannels: nat, channels: nat,
                      alignCorners: Option<bool>)
    requires ShapeOf(x) == Ok(xs) && BranchAccepts(xs, scale, inChannels)
    ensures var b := BranchOutput(PyramidBranch(scale, inChannels, channels), x);
            ShapeOf(b).Ok? &&
            Resize(b, Some(AsReals(Spatial(xs))), None, Bilinear, alignCorners, true) ==
            ResizeOutcome(Truthy(alignCorners) && AlignWarning(scale, scale, xs[2], xs[3]),
                          Ok(PyramidOutput(x, Spatial(xs), scale, inChannels, channels, alignCorners)))
    ensures ShapeOf(PyramidOutput(x, Spatial(xs), scale, inChannels, channels, alignCorners)) ==
            Ok([xs[0], channels, xs[2], xs[3]])
  {
    var b := BranchOutput(PyramidBranch(scale, inChannels, channels), x);
    BranchShape(x, xs, scale, inChannels, channels);
    TruncAllWhole(Spatial(xs));
    var bs: Shape := [xs[0], channels, scale, scale];
    assert bs[..2] + Spatial(xs) == [xs[0], channels, xs[2], xs[3]];
  }

  class PPM {
    var poolScales: seq<int>
    var alignCorners: Option<bool>
    var inChannels: nat
    var channels: nat
    /** The module list: one branch per pool scale. */
    var branches: seq<Branch>

    ghost predicate Valid()
      reads this
    {
      |branches| == |poolScales| &&
      forall i :: 0 <= i < |branches| ==> branches[i] == PyramidBranch(poolScales[i], inChannels, channels)
    }

    constructor (poolScales: seq<int>, inChannels: nat, channels: nat, alignCorners: Option<bool>)
      ensures Valid()
      ensures this.poolScales == poolScales && this.alignCorners == alignCorners
      ensures this.inChannels == inChannels && this.channels == channels
      ensures |branches| == |poolScales|
      ensures forall i :: 0 <= i < |poolScales| ==>
                branches[i] == Branch(poolScales[i], ConvModule(inChannels, channels, 1, 0))
    {
      this.poolScales := poolScales;
      this.alignCorners := alignCorners;
      this.inChannels := inChannels;
      this.channels := channels;
      branches := [];
      new;
      for i := 0 to |poolScales|
        invariant this.poolScales == poolScales && this.alignCorners == alignCorners
        invariant this.inChannels == inChannels && this.channels == channels
        invariant |branches| == i
        invariant forall j :: 0 <= j < i ==> branches[j] == PyramidBranch(poolScales[j], inChannels, channels)
      {
        branches := branches + [PyramidBranch(poolScales[i], inChannels, channels)];
      }
    }

    /**
     Runs every branch on `x`, in branch order, and resizes each output to the
     spatial size of `x`; also reports, per branch, whether that resize warned.
     */
    method Execute(x: Tensor) returns (outs: Result<seq<Tensor>>, warned: seq<bool>)
      requires Valid()
      requires ShapeOf(x).Ok?
      ensures outs.Ok? <==> |poolScales| == 0 || Accepts(ShapeOf(x).value, inChannels, poolScales)
      ensures outs.Ok? ==> |outs.value| == |branches| == |warned|
      ensures outs.Ok? ==>
                outs.value == PyramidOutputs(x, Spatial(ShapeOf(x).value), poolScales, inChannels, channels, alignCorners)
      ensures outs.Ok? ==> var xs := ShapeOf(x).value;
                forall i :: 0 <= i < |poolScales| ==> ShapeOf(outs.value[i]) == Ok([xs[0], channels, xs[2], xs[3]])
      ensures outs.Ok? ==> var xs := ShapeOf(x).value;
                forall i :: 0 <= i < |poolScales| ==>
                  warned[i] == (Truthy(alignCorners) && AlignWarning(poolScales[i], poolScales[i], xs[2], xs[3]))
    {
      var xs := ShapeOf(x).value;
      var ppmOuts: seq<Tensor> := [];
      warned := [];
      for i := 0 to |branches|
        invariant |ppmOuts| == i == |warned|
        invariant forall j :: 0 <= j < i ==> BranchAccepts(xs, poolScales[j], inChannels)
        invariant forall j :: 0 <= j < i ==>
                    ppmOuts[j] == PyramidOutput(x, Spatial(xs), poolScales[j], inChannels, channels, alignCorners)
        invariant forall j :: 0 <= j < i ==>
                    warned[j] == (Truthy(alignCorners) && AlignWarning(poolScales[j], poolScales[j], xs[2], xs[3]))
      {
        var ppmOut := BranchOutput(branches[i], x);
        BranchShape(x, xs, poolScales[i], inChannels, channels);
        if ShapeOf(ppmOut).Err? {
          outs := Err(ShapeOf(ppmOut).error);
          return;
        }
        var upsampled := Resize(ppmOut, Some(AsReals(Spatial(xs))), None, Bilinear, alignCorners, true);
        BranchResized(x, xs, poolScales[i], inChannels, channels, alignCorners);
        ppmOuts := ppmOuts + [upsampled.result.value];
        warned := warned + [upsampled.warned];
      }
      outs := Ok(ppmOuts);
      var expected := PyramidOutputs(x, Spatial(xs), poolScales, inChannels, channels, alignCorners);
      forall j | 0 <= j < |poolScales|
        ensures |expected| == |ppmOuts| && expected[j] == ppmOuts[j]
                && ShapeOf(ppmOuts[j]) == Ok([xs[0], channels, xs[2], xs[3]])
      {
        PyramidOutputsAt(x, Spatial(xs), poolScales, inChannels, channels, alignCorners, j);
        BranchResized(x, xs, poolScales[j], inChannels, channels, alignCorners);
      }
      assert |poolScales| == 0 ==> expected == [];
    }
  }

  /** The `pool_scales` argument: a list, a tuple, or some other value. */
  datatype ScalesArg = ListOf(items: seq<int>) | TupleOf(items: seq<int>) | OtherValue

  /** The default `pool_scales=(1, 2, 3, 6)`. */
  const DefaultPoolScales: ScalesArg := TupleOf([1, 2, 3, 6])

  class PSPHead {
    var poolScales: seq<int>
    var inChannels: nat
    var channels: nat
    var alignCorners: Option<bool>
    var pspModules: PPM
    var bottleneck: ConvModule

    ghost predicate Valid()
      reads this, pspModules
    {
      pspModules.Valid() &&
      pspModules.poolScales == poolScales && pspModules.inChannels == inChannels &&
      pspModules.channels == channels && pspModules.alignCorners == alignCorners &&
      bottleneck == ConvModule(inChannels + |poolScales| * channels, channels, 3, 1)
    }

    constructor (poolScales: seq<int>, inChannels: nat, channels: nat, alignCorners: Option<bool>)
      ensures Valid() && fresh(pspModules)
      ensures this.poolScales == poolScales && this.inChannels == inChannels
      ensures this.channels == channels && this.alignCorners == alignCorners
      ensures bottleneck.inChannels == inChannels + |poolScales| * channels
    {
      this.poolScales := poolScales;
      this.inChannels := inChannels;
      this.channels := channels;
      this.alignCorners := alignCorners;
      pspModules := new PPM(poolScales, inChannels, channels, alignCorners);
      bottleneck := ConvModule(inChannels + |poolScales| * channels, channels, 3, 1);
    }

    /** Construction with the argument check: `pool_scales` must be a list or a tuple. */
    static method Create(poolScales: ScalesArg, inChannels: nat, channels: nat, alignCorners: Option<bool>)
      returns (r: Result<PSPHead>)
      ensures r.Err? <==> poolScales.OtherValue?
      ensures r.Err? ==> r.error == NotASequence
      ensures r.Ok? ==> fresh(r.value) && fresh(r.value.pspModules) && r.value.Valid()
      ensures r.Ok? ==> r.value.poolScales == poolScales.items && r.value.inChannels == inChannels &&
                        r.value.channels == channels && r.value.alignCorners == alignCorners
    {
      if poolScales.OtherValue? {
        r := Err(NotASequence);
      } else {
        var head := new PSPHead(poolScales.items, inChannels, channels, alignCorners);
        r := Ok(head);
      }
    }

    /**
     The head's fusion step on `x`: `x` first, then the PPM outputs in order,
     concatenated along channels and fed to the bottleneck. The concatenation
     has exactly the channel count the bottleneck was declared with.
     */
    method Execute(x: Tensor) returns (out: Result<Tensor>)
      requires Valid()
      requires ShapeOf(x).Ok?
      ensures out.Ok? <==> Accepts(ShapeOf(x).value, inChannels, poolScales)
      ensures out.Ok? ==>
                out.value == Convolved(Concatenated([x] + PyramidOutputs(x, Spatial(ShapeOf(x).value), poolScales,
                                                                         inChannels, channels, alignCorners)),
                                       bottleneck)
      ensures out.Ok? ==> var xs := ShapeOf(x).value;
                bottleneck.inChannels == inChannels + |poolScales| * channels &&
                ShapeOf(out.value.src) == Ok([xs[0], bottleneck.inChannels, xs[2], xs[3]])
      ensures out.Ok? ==> var xs := ShapeOf(x).value;
                ShapeOf(out.value) == Ok([xs[0], channels, xs[2], xs[3]])
    {
      var xs := ShapeOf(x).value;
      var pspOuts := [x];
      var ppmOuts, _ := pspModules.Execute(x);
      if ppmOuts.Err? {
        out := Err(ppmOuts.error);
        return;
      }
      pspOuts := pspOuts + ppmOuts.value;
      var fused := Convolved(Concatenated(pspOuts), bottleneck);
      if |xs| == 4 {
        ConcatWithUniformParts(x, xs, ppmOuts.value, channels);
        assert ShapeOf(Concatenated(pspOuts)) == Ok([xs[0], xs[1] + |poolScales| * channels, xs[2], xs[3]]);
        assert ShapeOf(fused).Ok? <==> xs[1] == inChannels;
      } else {
        assert |poolScales| == 0 && pspOuts == [x];
        ShapesOfAllOk(pspOuts, [xs]);
        assert ShapeOf(Concatenated(pspOuts)).Ok? ==> |ShapeOf(Concatenated(pspOuts)).value| == |xs|;
        assert ShapeOf(fused).Err?;
      }
      if ShapeOf(fused).Err? {
        out := Err(ShapeOf(fused).error);
        return;
      }
      out := Ok(fused);
    }
  }

  /**
   The default pyramid on a 256-channel 32x32 feature map: four outputs, for
   the scales 1, 2, 3 and 6 in that order, each with `channels` channels at
   the input's 32x32 size.
   */
  method DefaultPyramid(channels: nat, alignCorners: Option<bool>) returns (outs: seq<Tensor>)
    ensures |outs| == 4
    ensures forall i :: 0 <= i < 4 ==>
              outs[i] == PyramidOutput(Input(0, [1, 256, 32, 32]), [32, 32], [1, 2, 3, 6][i], 256, channels, alignCorners)
    ensures forall i :: 0 <= i < 4 ==> ShapeOf(outs[i]) == Ok([1, channels, 32, 32])
  {
    var x := Input(0, [1, 256, 32, 32]);
    var ppm := new PPM(DefaultPoolScales.items, 256, channels, alignCorners);
    var r, warned := ppm.Execute(x);
    assert Accepts([1, 256, 32, 32], 256, [1, 2, 3, 6]);
    outs := r.value;
    forall i | 0 <= i < 4
      ensures outs[i] == PyramidOutput(x, [32, 32], [1, 2, 3, 6][i], 256, channels, alignCorners)
    {
      PyramidOutputsAt(x, [32, 32], [1, 2, 3, 6], 256, channels, alignCorners, i);
    }
  }
}
