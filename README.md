# Resize operator and pyramid pooling of JSeg, modelled in Dafny

This project models two pieces of the JSeg segmentation toolkit at the level of
tensor shapes and control flow:

- the differentiable resize operator (`python/jseg/ops/wrappers.py`): the
  custom-gradient function object `Resize`, whose forward call records the
  input's spatial size and the interpolation parameters and whose gradient
  call resamples the incoming gradient back to that size; the `resize`
  wrapper, with its align-corners advisory and the integer truncation of
  `size`; and the `Upsample` module on its explicit-size path;
- the pyramid pooling module `PPM` and the channel arithmetic of `PSPHead`
  (`python/jseg/models/decode_heads/psp_head.py`): one pool-then-convolve
  branch per pool scale, in order, each output resized bilinearly back to the
  input's spatial size, then concatenated after the input and fed to a
  bottleneck declared for exactly that channel count.

Files:

- `tensors.dfy` (module `Tensors`): the host framework seen through shapes.
  A tensor is the term of library operations that produced it
  (`Interpolated`, `Pooled`, `Convolved`, `Concatenated`, or an `Input` from
  elsewhere), and `ShapeOf` gives its shape or the error the library raises.
  The numerical kernels are not modelled.
- `wrappers.dfy` (module `Wrappers`): `ResizeFunction` (the `Resize` class,
  renamed because the Dafny function `Resize` models the `resize` wrapper),
  the advisory predicate, `Resize`, and the `Upsample` class.
- `psp_head.dfy` (module `PspHead`): the `PPM` and `PSPHead` classes, the
  specification function `PyramidOutputs`, and their lemmas. The method
  `DefaultPyramid` runs the default scales (1, 2, 3, 6) on a
  1 x 256 x 32 x 32 input and states all four outputs, in that order, each
  1 x channels x 32 x 32.

Modelling decisions:

- Python exceptions are `Err` values of `Tensors.Result`. An `Ok` tensor that
  any member returns always has an `Ok` shape. `resize` with `size=None`
  raises when it iterates `size` (wrappers.py:42); this is the `NotIterable` error.
- The unpacking at wrappers.py:30-31 raises when the input is not of rank 4
  or `size` does not have two entries. It runs only when the advisory check
  runs, so `warning=True` can raise where `warning=False` returns: a 5-D
  input with a 3-entry size (`WarningCanRaise`). `WarningNeverChangesResult`
  states how far "the warning never changes the result" holds: the two calls
  agree whenever the checked call returns, whenever both unpackings succeed,
  and whenever the check does not run; they can differ only under the check
  with a failed unpacking.
- `align_corners` is `Option<bool>`. Only `Some(true)` is truthy, which is the
  Python test at wrappers.py:29.
- Sizes handed to `resize` are Python numbers, modelled as `real`. `int()`
  truncates toward zero (`Trunc`). The sizes PPM passes are whole numbers, and
  truncation returns them unchanged (`TruncAllWhole`).
- Assumption about the library: when the interpolation receives both a size
  and a scale factor, the size decides the output shape and the scale factor
  is only carried in the term. `ResizeFunction.Grad` and
  `AdjointRestoresInputShape` depend on this assumption whenever the forward
  call recorded a scale factor. Inside the modelled code, `resize` is only
  ever called with `scale_factor=None` (psp_head.py:26-29 and wrappers.py:64-66).
- Nothing enforces the order of forward and gradient calls. `Grad` before any
  `Execute` raises (`MissingContext`, the missing attribute). Nothing clears
  the recorded context after `Grad`, so `Grad` may be called any number of
  times, and a second `Execute` overwrites the context.
- Library shape rules that the model assumes: interpolation needs
  `rank == 2 + |size|` and non-negative sizes; adaptive pooling needs a rank-4
  input and a grid of at least 1; a stride-1 convolution needs its declared
  input channels, and each spatial side becomes `n + 2p + 1 - k`;
  concatenation needs at least one tensor, and all tensors must agree outside
  the channel axis.

Details of the advisory and of the wrapper, as the code has them:

- The growth test is literally `output_h > input_h or output_w > output_h`: it
  compares `output_w` with `output_h`, not with `input_w`. `LiteralGrowthTest`
  shows what follows from this: a 10x10 -> 5x8 shrink warns, and a
  10x3 -> 8x6 width growth does not.
- The advisory needs BOTH remainders to be non-zero, not just one of them
  (`AlignWarningMeaning`). `BothRemaindersNeeded` gives an example: 10x10 ->
  19x15 grows and its width is not corner-aligned, but its height is
  (18 = 2 x 9), so it does not warn.
- The wrapper does not reject `align_corners` together with `nearest`. That
  check would be inside the library's interpolation, which is not part of
  this model, so the mode is only passed along.

## Model

| member | source | states |
|---|---|---|
| `Tensors.Spatial` | python/jseg/ops/wrappers.py:9 | `shape[2:]`: the shape is its batch/channel prefix followed by the result; empty below rank 2 |
| `Tensors.InterpolateShape` | python/jseg/ops/wrappers.py:13 | interpolation succeeds exactly when rank is 2 + len(size) and sizes are non-negative; result keeps (N, C) and has `size` as its spatial part |
| `Tensors.Interpolate` | python/jseg/ops/wrappers.py:13 | the library call returns the interpolated tensor exactly when its shape is defined, otherwise raises |
| `Tensors.PoolShape` | python/jseg/models/decode_heads/psp_head.py:19 | adaptive pooling maps (N, C, H, W) to (N, C, s, s) for any H, W; fails on other ranks and empty grids |
| `Tensors.ConvShape` | python/jseg/models/decode_heads/psp_head.py:20 | a convolution module runs only on its declared input channels and maps them to its output channels |
| `Tensors.ConcatShape` | python/jseg/models/decode_heads/psp_head.py:54 | channel concatenation succeeds exactly when all parts agree outside the channel axis; channels add up, other axes are kept |
| `Tensors.ShapesOfAllOk` | python/jseg/models/decode_heads/psp_head.py:54 | the shapes of a list of tensors are their individual shapes, in order |
| `Tensors.ChannelSumUniform` | python/jseg/models/decode_heads/psp_head.py:44-45 | a head shape followed by n parts of c channels sums to C + n * c channels |
| `Tensors.ConcatWithUniformParts` | python/jseg/models/decode_heads/psp_head.py:52-54 | concatenating x with n tensors of shape (N, c, H, W) gives (N, C + n * c, H, W) |
| `Wrappers.Trunc` | python/jseg/ops/wrappers.py:42 | `int(x)` truncates toward zero: the result lies within 1 of x on x's side of zero |
| `Wrappers.TruncAll` | python/jseg/ops/wrappers.py:42 | `tuple(int(x) for x in size)` truncates every entry and keeps the length |
| `Wrappers.AsReals` | python/jseg/models/decode_heads/psp_head.py:27 | the input's spatial sizes as Python numbers, entry by entry |
| `Wrappers.TruncAllWhole` | python/jseg/models/decode_heads/psp_head.py:27 | truncating whole-number sizes returns them unchanged |
| `Wrappers.AlignWarning` | python/jseg/ops/wrappers.py:32-35 | the advisory predicate as written; it can fire only when all four sizes exceed 1 and the literal growth test (`output_h > input_h` or `output_w > output_h`) holds |
| `Wrappers.ZeroRemainderIffAligned` | python/jseg/ops/wrappers.py:33-40 | a zero remainder of (out - 1) by (in - 1) means exactly that out is n(in - 1) + 1, the alignment the message recommends |
| `Wrappers.AlignWarningMeaning` | python/jseg/ops/wrappers.py:32-35 | for sizes above 1, the advisory fires exactly when the literal growth test holds and neither axis is corner-aligned |
| `Wrappers.NoWarningForUnitSizes` | python/jseg/ops/wrappers.py:33-34 | if any of the four sizes is at most 1, the advisory does not fire |
| `Wrappers.AlignWarningExamples` | python/jseg/ops/wrappers.py:32-35 | 10x10 -> 15x15 warns; 9x9 -> 17x17 does not |
| `Wrappers.LiteralGrowthTest` | python/jseg/ops/wrappers.py:32 | the literal `output_w > output_h` test makes a 10x10 -> 5x8 shrink warn, while a 10x3 -> 8x6 width growth with unaligned axes does not |
| `Wrappers.BothRemaindersNeeded` | python/jseg/ops/wrappers.py:33-35 | both remainders must be non-zero: 10x10 -> 19x15 grows and leaves the width unaligned but aligns the height, and does not warn |
| `Wrappers.ChecksAlignment` | python/jseg/ops/wrappers.py:28-29 | the advisory check runs exactly when `warning` is set, a size is given and `align_corners` is True |
| `Wrappers.ResizeResult` | python/jseg/ops/wrappers.py:42-43 | with no size, iterating it raises; otherwise the truncated size goes to the interpolation with the other arguments unchanged |
| `Wrappers.Resize` | python/jseg/ops/wrappers.py:22-43 | no warning unless `warning`, a size and a truthy `align_corners`; under that gate, a warning exactly on the advisory predicate applied to the unpacked sizes, and the unpack error for a non-rank-4 input or a size without two entries; a returned tensor is always the interpolation to the truncated size with the given scale factor, mode and alignment |
| `Wrappers.WarningNeverChangesResult` | python/jseg/ops/wrappers.py:28-43 | `warning=False` never warns and returns the plain delegation; whenever `warning=True` returns, it returns the same thing as `warning=False`, and it always does when shape and size unpack into two values; outside the gate the calls are identical, and the results differ only under the gate with a failed unpacking |
| `Wrappers.WarningCanRaise` | python/jseg/ops/wrappers.py:28-31 | with `align_corners=True`, a 5-D input and a 3-entry size raise the unpack error under the check, while the unchecked call interpolates |
| `Wrappers.ResizeOutputShape` | python/jseg/ops/wrappers.py:42-43 | the output of `resize` has the input's batch and channel dimensions and the truncated size as its spatial dimensions |
| `Wrappers.AdjointRestoresInputShape` | python/jseg/ops/wrappers.py:8-16 | resampling a gradient shaped like the forward output to the recorded input size gives the forward input's shape |
| `Wrappers.ResizeFunction.constructor` | python/jseg/ops/wrappers.py:7 | a fresh function object has no recorded context |
| `Wrappers.ResizeFunction.Execute` | python/jseg/ops/wrappers.py:8-13 | afterwards the fields hold exactly `input.shape[2:]`, the scale factor, the mode and the alignment of this call; the result is the interpolation of the input, of shape (N, C) followed by size |
| `Wrappers.ResizeFunction.Grad` | python/jseg/ops/wrappers.py:15-16 | raises when no context was recorded; otherwise interpolates the gradient to the recorded size with the recorded scale factor, mode and alignment; for a gradient of matching rank, the result keeps its batch and channel dimensions and has the recorded spatial size |
| `Wrappers.ForwardBackward` | python/jseg/ops/wrappers.py:7-19 | a forward call followed by the gradient call on the same object: the object holds the context of the forward call, the gradient is the interpolation of the incoming gradient to the input's spatial size with the forward call's scale factor, mode and alignment, and a gradient shaped like the forward output comes back shaped like the forward input |
| `Wrappers.StoredScaleFactor` | python/jseg/ops/wrappers.py:54-57 | a falsy (zero) scale factor is stored as None; any other one is kept |
| `Wrappers.Upsample.constructor` | python/jseg/ops/wrappers.py:47-59 | the module stores its size, its (possibly dropped) scale factor, its mode and its alignment |
| `Wrappers.Upsample.HasSize` | python/jseg/ops/wrappers.py:62 | the stored size is falsy exactly when it is None or empty, which sends `execute` to the scale-factor path |
| `Wrappers.Upsample.Execute` | python/jseg/ops/wrappers.py:61-66 | with a stored size, it is `resize` of x to that size with no scale factor and the stored mode and alignment, with the warning check on; a returned tensor has shape (N, C) followed by the truncated size |
| `PspHead.PyramidOutputs` | python/jseg/models/decode_heads/psp_head.py:22-31 | one output per pool scale |
| `PspHead.PyramidOutputsAt` | python/jseg/models/decode_heads/psp_head.py:24-30 | output i is branch i (pool to scales[i], 1x1 conv from in to out channels) resized bilinearly to the input's spatial size with the stored alignment |
| `PspHead.ReorderedScales` | python/jseg/models/decode_heads/psp_head.py:17-31 | rearranging the pool scales rearranges the outputs identically |
| `PspHead.PyramidBranch` | python/jseg/models/decode_heads/psp_head.py:18-20 | the branch for a scale pools to that scale and convolves in -> out channels with a 1x1 convolution that keeps every spatial side |
| `PspHead.BranchOutput` | python/jseg/models/decode_heads/psp_head.py:25 | running a branch succeeds only on a rank-4 input with the branch's input channels and a grid of at least 1, and then gives the convolution's channels on the pooled grid |
| `PspHead.PyramidOutput` | python/jseg/models/decode_heads/psp_head.py:25-29 | a branch output is resized bilinearly, with no scale factor and the stored alignment, to the given size; resized to an accepted input's spatial size, it has shape (N, channels, H, W) |
| `PspHead.BranchShape` | python/jseg/models/decode_heads/psp_head.py:19-20 | a branch runs exactly on rank-4 inputs with the declared input channels and a grid of at least 1; its pre-resize output is (N, channels, s, s) |
| `PspHead.BranchResized` | python/jseg/models/decode_heads/psp_head.py:25-29 | resizing a branch output to the input's size succeeds, warns exactly on the advisory predicate for an s x s source, and gives (N, channels, H, W) |
| `PspHead.PPM.constructor` | python/jseg/models/decode_heads/psp_head.py:11-20 | the module list has exactly one branch per pool scale, in the same order, each pooling to that scale and convolving in -> out channels with a 1x1 kernel; scale 1 is not special |
| `PspHead.PPM.Execute` | python/jseg/models/decode_heads/psp_head.py:22-31 | succeeds exactly when there are no branches or the input is rank 4 with the declared channels and every scale is at least 1; returns one output per branch, in branch order, equal to `PyramidOutputs` (bilinear, stored alignment, input's spatial size), each of shape (N, channels, H, W); reports per branch whether its resize warned |
| `PspHead.PSPHead.constructor` | python/jseg/models/decode_heads/psp_head.py:39-48 | the PPM is built from the head's scales, channels and alignment; the bottleneck is declared with in + len(scales) * channels input channels |
| `PspHead.PSPHead.Create` | python/jseg/models/decode_heads/psp_head.py:36-48 | pool scales that are neither a list nor a tuple are rejected; otherwise a valid head over those scales |
| `PspHead.PSPHead.Execute` | python/jseg/models/decode_heads/psp_head.py:50-55 | succeeds exactly on rank-4 inputs with the declared channels (scales at least 1); the bottleneck input is x followed by the PPM outputs in order; the concatenation has (N, in + len(scales) * channels, H, W), exactly the bottleneck's declared input channels; the bottleneck output is (N, channels, H, W) |
| `PspHead.DefaultPyramid` | python/jseg/models/decode_heads/psp_head.py:11-36 | with the default scales on a 1 x 256 x 32 x 32 input, the PPM returns four outputs, for scales 1, 2, 3 and 6 in that order, each 1 x channels x 32 x 32 |

## Left out

- Numerical values of interpolation, adaptive pooling and the convolution modules: these are floating-point library kernels. Only their shapes are modelled, so the spatially constant global branch for scale 1 is not stated.
- The emission through `warnings.warn` and the message text: the advisory is a returned boolean.
- The autodiff tape and `Function.apply` dispatch (wrappers.py:19): `ForwardBackward` stands for one recorded forward call and its gradient call. `Resize` uses the interpolation result directly, without a function object.
- Wrappers.Upsample.Execute: requires a stored size. The scale-factor branch (wrappers.py:62-63) multiplies by a float and truncates, and is not modelled.
- Wrappers.Upsample.constructor: the `float(...)` conversion of scale factors is not modelled. Only the dropping of a zero factor is.
- Validation inside the library's interpolation (for example `align_corners` with `nearest`): the wrapper code does not check it, and the library is not part of this model.
- `BaseDecodeHead._transform_inputs`, `cls_seg` and `HEADS.register_module`: their code is not part of this model. `PSPHead.Execute` starts from the transformed input `x` and ends at the bottleneck output.
- python/jseg/utils/weight_init.py (random initialisation through library calls and floating-point math) and python/jseg/datasets/pipelines/__init__.py (re-exports only) are not part of this model.
