# Bloom pyramid command builder

A Dafny model of the bloom render pass of a Unity URP project
(`CustomPostProcessPass`). Each frame the pass does the following:

- It halves the camera target once.
- It picks a pyramid depth, `mipCount = clamp(floor(log2(max(tw, th))) - 1, 1, maxIterations)`.
- It resizes a pool of sixteen "up" and sixteen "down" render targets in place.
- It records a prefilter blit into `down[0]`.
- It records a downsample chain (`down[i-1] -> up[i] -> down[i]`).
- It records a descending upsample chain, which binds a low mip and blits `down[i] -> up[i]`.
- It publishes `up[0]` and the intensity as shader globals.
- On game cameras it then records one composite blit of the camera target onto itself.

The model treats all of this as integer-only planning. It has no engine types
and does no GPU work.

- `Pyramid` (`pyramid.dfy`) holds the integer arithmetic:
  - `FloorLog2`;
  - Unity's `Mathf.Clamp` for ints, with its order of tests;
  - the depth `MipCount`;
  - the per-axis level recurrence `LevelExtent`.
- `Resources` (`resources.dfy`) holds the pool side:
  - the texture identities `Camera`, `Up(i)` and `Down(i)`;
  - render-texture descriptors and `GetCompatibleDescriptor`;
  - pooled handles;
  - `ReAllocateIfNeeded`, and the sizing loop as `EnsureSized`.
- `Commands` (`commands.dfy`) holds the recorded commands. It gives the bloom
  command list in two forms: as the source's loops build it (`BloomCommands`),
  and position by position (`ExpectedAt`). Its lemmas cover the list's length,
  the number of blits, the stage layout, the confinement to levels below the
  depth, and write-before-read order.
- `BloomPass` (`bloom_pass.dfy`) holds three things:
  - `SetupBloom`, a method whose loops follow the source;
  - `BloomPlan`, the function it is proved equal to;
  - the camera-type gate `Execute`.

The model makes these assumptions about engine code whose source is not part
of the pass:

- `RenderingUtils.ReAllocateIfNeeded` reallocates exactly when the requested
  descriptor, filter mode or wrap mode differs from the handle's current one.
- `Mathf.Clamp(value, min, max)` tests `value < min` first and then `value > max`.
- `Mathf.Log(0, 2)` is negative infinity. `FloorToInt` turns it into
  `int.MinValue`, though any negative value gives the same result.
- `Mathf.Log(n, 2)` is exact, so `FloorToInt(Log(n, 2) - 1) = floor(log2 n) - 1`.
- `RenderTextureDescriptor`'s setters are independent field stores. In the
  engine, the `graphicsFormat` setter also sets or clears the sRGB flag to
  match the new format, and `depthBufferBits` goes through the depth-stencil
  format. The model's `rest`, which stands for the fields the pass never
  writes, does not track that flag: when the camera target is sRGB and the
  HDR format is not, the engine's descriptor differs from the model's in it.

The camera descriptor, the HDR format chosen at construction, the frame's
parameters and the pool are all parameters. Widths and heights are
non-negative, so `x >> k` is modelled as k halvings.

In three places the code does not do what its structure suggests. The lower
bound 1 in the depth clamp (`CustomPostProcessPass.cs:138`), the `Max(1, ...)`
on every later level (`:157-158`) and the publication of `up[0]` as the bloom
texture (`:188`) read as if every frame had a non-empty pyramid whose `up[0]`
holds the result. The model follows the code in each case:

- **Level 0 is exactly `(width >> 1, height >> 1)`.** Only the levels after the
  first pass through `Max(1, ...)` at `:157-158`, so a camera one pixel wide
  gives a zero-width level 0. Only levels from 1 on are at least one pixel
  (`BloomPass.BloomPlanLevelSize`).
- **`mipCount >= 1` only holds when `maxIterations >= 1`.** The component allows
  `maxIterations = 0`. Under the clamp order above, the clamp at `:138` then
  gives depth 0 whenever the half-resolution target is at least 4 pixels. The
  sizing loop does nothing, and the prefilter writes a `down[0]` that was not
  sized this frame: it is stale from an earlier frame, or was never allocated
  with a size (`BloomPass.BloomPlanZeroIterations`).
- **`up[0]` does not always hold this frame's bloom image.** It is written
  only when the pyramid has at least two levels. At depth 1 the `up[0]`
  published at `:188` is not written this frame
  (`Commands.BloomCommandsWriteBeforeRead`).

## Model

| member | source | states |
|---|---|---|
| `Pyramid.FloorLog2` | LLMTesting/Assets/Scripts/CustomPostProcessPass.cs:137 | floor(log2 n) for n >= 1, characterised by 2^r <= n < 2^(r+1) |
| `Pyramid.FloorLog2Unique` | LLMTesting/Assets/Scripts/CustomPostProcessPass.cs:137 | any k with 2^k <= n < 2^(k+1) is FloorLog2(n), so the bracket determines the iteration count |
| `Pyramid.NaturalIterations` | LLMTesting/Assets/Scripts/CustomPostProcessPass.cs:137 | FloorToInt(Log(maxSize, 2) - 1): for a non-empty target, r + 1 is the exponent of the largest power of two not above maxSize (2^(r+1) <= maxSize < 2^(r+2)); a zero size gives a negative count |
| `Pyramid.ClampInt` | LLMTesting/Assets/Scripts/CustomPostProcessPass.cs:138 | the clamped value always lies between the two bounds; when min <= max it is min(max(v, min), max) |
| `Pyramid.MipCount` | LLMTesting/Assets/Scripts/CustomPostProcessPass.cs:131-138 | depth <= max(1, maxIterations); for maxIterations >= 1 it is in [1, maxIterations] and is the deepest pyramid with 2^(m+1) <= max(tw, th), or 1 when no such depth exists; for maxIterations = 0 it is 0 exactly when max(tw, th) >= 4 |
| `Pyramid.MipCountFormula` | LLMTesting/Assets/Scripts/CustomPostProcessPass.cs:136-138 | for maxIterations >= 1 and a non-empty target, depth = min(max(floorLog2(max(tw, th)) - 1, 1), maxIterations) |
| `Pyramid.MipCountFullHd` | LLMTesting/Assets/Scripts/CustomPostProcessPass.cs:131-138 | 1920x1080 halves to 960x540, the natural iteration count is 8, and the depth at the default 6 is 6 |
| `Pyramid.LevelExtentClosedForm` | LLMTesting/Assets/Scripts/CustomPostProcessPass.cs:152-158 | the halve-and-clamp recurrence gives level i = max(1, base >> i), for i >= 1 or a non-empty base |
| `Pyramid.LevelExtent` | LLMTesting/Assets/Scripts/CustomPostProcessPass.cs:152-158 | the per-axis level size: level 0 is the half-resolution base, and every later level is at least one pixel; its closed form is LevelExtentClosedForm |
| `Pyramid.LevelExtentNonIncreasing` | LLMTesting/Assets/Scripts/CustomPostProcessPass.cs:157-158 | level sizes never grow with the level index (from level 1, or from 0 for a non-empty base) |
| `Resources.CompatibleDescriptorOverwrites` | LLMTesting/Assets/Scripts/CustomPostProcessPass.cs:197-205 | GetCompatibleDescriptor sets width, height, format and depth bits as asked, sets MSAA to 1, and keeps the camera's untracked fields (`rest`, under the field-store assumption above); applying it again changes nothing |
| `Resources.CompatibleDescriptor` | LLMTesting/Assets/Scripts/CustomPostProcessPass.cs:197-205 | GetCompatibleDescriptor: keeps the camera's untracked fields; what it overwrites is stated by CompatibleDescriptorOverwrites |
| `Resources.LevelDescExtents` | LLMTesting/Assets/Scripts/CustomPostProcessPass.cs:152-158 | the descriptor used at level i is the base descriptor with both extents from the level recurrence; format and other fields are unchanged |
| `Resources.HalveDesc` | LLMTesting/Assets/Scripts/CustomPostProcessPass.cs:157-158 | one sizing step of the running descriptor; HalveDescHalves states what it does |
| `Resources.HalveDescHalves` | LLMTesting/Assets/Scripts/CustomPostProcessPass.cs:157-158 | one sizing step makes each extent floor(extent / 2), but at least 1 (2e <= old < 2e + 2 when old >= 2, else 1), and changes no other field |
| `Resources.LevelDesc` | LLMTesting/Assets/Scripts/CustomPostProcessPass.cs:152-158 | the running descriptor at level i; LevelDescExtents states it is the base with both extents from the level recurrence |
| `Resources.ReAllocateIfNeeded` | LLMTesting/Assets/Scripts/CustomPostProcessPass.cs:155-156 | the handle ends up holding the requested descriptor, filter and wrap; it reports a reallocation exactly when the old handle differed (assumed library behaviour) |
| `Resources.EnsureSized` | LLMTesting/Assets/Scripts/CustomPostProcessPass.cs:152-160 | up[i] and down[i] hold level i's bilinear, clamped target for every i < n; slots from n on are unchanged; a slot is reported reallocated exactly when it did not already hold its target, and at most once, so the list's length is the number of reallocations (at most 2n) |
| `Resources.EnsureSizedIdempotent` | LLMTesting/Assets/Scripts/CustomPostProcessPass.cs:153-160 | sizing an already-sized pool again at the same base and depth reallocates nothing and changes nothing |
| `Commands.BloomCommandsShape` | LLMTesting/Assets/Scripts/CustomPostProcessPass.cs:161-189 | for depth m >= 1 the list has 4m-1 commands, and each matches the position-by-position description: prefilter, two blits per downsample level, a bind and a blit per upsample level, then the two publications |
| `Commands.Prefilter` | LLMTesting/Assets/Scripts/CustomPostProcessPass.cs:161 | the prefilter blit, camera -> down[0] with pass 0; its place in the list is stated by BloomCommandsDownsample |
| `Commands.DownChain` | LLMTesting/Assets/Scripts/CustomPostProcessPass.cs:165-175 | the downsample blits of levels 1 .. n-1, 2(n-1) commands; their order and passes are stated by DownChainAt and BloomCommandsDownsample |
| `Commands.LowMip` | LLMTesting/Assets/Scripts/CustomPostProcessPass.cs:180 | the texture bound as the low mip of upsample level i is level i + 1, the down target exactly on the first upsample iteration (i = m - 2) and the up target after that |
| `Commands.UpChain` | LLMTesting/Assets/Scripts/CustomPostProcessPass.cs:177-186 | the upsample commands for levels i down to 0, two per level; their order is stated by UpChainAt and BloomCommandsUpsample |
| `Commands.Publication` | LLMTesting/Assets/Scripts/CustomPostProcessPass.cs:188-189 | publishing up[0] as the bloom texture, then the intensity; BloomCommandsUpsample places it at the end of the list |
| `Commands.BloomCommands` | LLMTesting/Assets/Scripts/CustomPostProcessPass.cs:161-189 | the list recorded for depth m: prefilter, downsample chain, upsample chain, publication; its meaning is stated by BloomCommandsShape (4m-1 commands, position by position), BloomCommandsEmptyPyramid (depth 0), BloomBlitCount and BloomCommandsWriteBeforeRead |
| `Commands.BloomCommandsEmptyPyramid` | LLMTesting/Assets/Scripts/CustomPostProcessPass.cs:161-189 | at depth 0 the list is just the prefilter into down[0] and the two publications |
| `Commands.BloomBlitCount` | LLMTesting/Assets/Scripts/CustomPostProcessPass.cs:161-186 | depth m >= 1 records exactly 3m-2 blits |
| `Commands.BloomCommandsConfined` | LLMTesting/Assets/Scripts/CustomPostProcessPass.cs:161-189 | only the first command reads the camera image; every blit uses the bloom material; every level named is below max(m, 1), so levels from max(m, 1) on are never touched |
| `Commands.BloomCommandsDownsample` | LLMTesting/Assets/Scripts/CustomPostProcessPass.cs:161-175 | command 0 is camera -> down[0] with pass 0; for i = 1 .. m-1 in increasing order, positions 2i-1 and 2i are down[i-1] -> up[i] with pass 1, then up[i] -> down[i] with pass 2 |
| `Commands.BloomCommandsUpsample` | LLMTesting/Assets/Scripts/CustomPostProcessPass.cs:177-189 | for i = m-2 down to 0, the low-mip binding (down[i+1] only at i = m-2, up[i+1] otherwise) precedes down[i] -> up[i] with pass 3; the list ends by publishing up[0] and then the intensity |
| `Commands.BloomCommandsWriteBeforeRead` | LLMTesting/Assets/Scripts/CustomPostProcessPass.cs:161-189 | every non-camera texture read or bound before the publication was written by an earlier blit; the published up[0] was written before it exactly when m >= 2 |
| `BloomPass.DefaultConfig` | LLMTesting/Assets/Scripts/BloomEffectComponent.cs:10-19 | the component's default parameters (threshold 0.9, intensity 1, scatter 0.7, clamp 65472, maxIterations 6, white tint, cutoff 1, density 1); BloomPlanFullHd states the frame they give at 1920x1080 |
| `BloomPass.BaseDesc` | LLMTesting/Assets/Scripts/CustomPostProcessPass.cs:131-133 | the level-0 descriptor: half the camera width and height, the HDR format, no depth bits, MSAA 1, and the camera's untracked fields |
| `BloomPass.BloomPlan` | LLMTesting/Assets/Scripts/CustomPostProcessPass.cs:128-190 | depth within [1, maxIterations] when maxIterations >= 1 and never above 16; level 0 is half the camera size, and each next level is max(1, previous / 2); levels below the depth hold that size in the HDR format with no depth or MSAA, in both slots; slots from the depth on are unchanged; the reallocated slots are exactly those that differed, each listed once |
| `BloomPass.SizeTargets` | LLMTesting/Assets/Scripts/CustomPostProcessPass.cs:152-160 | the sizing loop with its running, halving descriptor computes exactly EnsureSized and the level sizes from the recurrence |
| `BloomPass.RecordDownsample` | LLMTesting/Assets/Scripts/CustomPostProcessPass.cs:161-175 | the prefilter followed by the loop carrying lastDown records exactly the prefilter and the downsample chain |
| `BloomPass.RecordUpsample` | LLMTesting/Assets/Scripts/CustomPostProcessPass.cs:177-186 | the descending loop with its lowMip choice appends exactly the upsample chain |
| `BloomPass.SetupBloom` | LLMTesting/Assets/Scripts/CustomPostProcessPass.cs:128-190 | the source-shaped method computes the same depth, levels, pool, reallocations and commands as BloomPlan |
| `BloomPass.BloomPlanLevelSize` | LLMTesting/Assets/Scripts/CustomPostProcessPass.cs:131-158 | level i below the depth is max(1, (width / 2) >> i) wide and max(1, (height / 2) >> i) high, except that an empty half-resolution extent stays 0 at level 0 |
| `BloomPass.BloomPlanCommands` | LLMTesting/Assets/Scripts/CustomPostProcessPass.cs:131-189 | the planner's commands are the bloom list for its own depth, the clamped natural depth of the half-resolution target; for depth m >= 1 they are 4m-1 commands laid out position by position, 3m-2 of them blits, every texture read before the publication was written earlier, and up[0] was written exactly when m >= 2 |
| `BloomPass.BloomPlanTargetSized` | LLMTesting/Assets/Scripts/CustomPostProcessPass.cs:153-188 | for maxIterations >= 1, any level a bloom command names is below the depth, hence below k_MaxPyramidSize, and its slot holds this frame's target |
| `BloomPass.BloomPlanZeroIterations` | LLMTesting/Assets/Scripts/CustomPostProcessPass.cs:136-189 | maxIterations = 0 with a target of at least 4 pixels gives depth 0: the pool is untouched, the prefilter writes down[0], and nothing writes the published up[0] |
| `BloomPass.BloomPlanSecondRunReallocatesNothing` | LLMTesting/Assets/Scripts/CustomPostProcessPass.cs:153-160 | running the pass again on the pool it left, with the same camera and parameters, reallocates nothing and records the same commands |
| `BloomPass.BloomPlanFullHd` | LLMTesting/Assets/Scripts/CustomPostProcessPass.cs:131-186 | a 1920x1080 camera at the default parameters gets 6 levels from 960x540 down to 30x16, and 16 blits among 23 commands |
| `BloomPass.Execute` | LLMTesting/Assets/Scripts/CustomPostProcessPass.cs:76-102 | non-game cameras record nothing and change nothing; on game cameras the list starts with the prefilter and ends with the single composite blit (camera -> camera, composite pass 0); every earlier blit uses the bloom material; the camera is read only first and last; the composite material gets cutoff, intensity and density from the parameters |
| `BloomPass.ExecuteBloomPrecedesComposite` | LLMTesting/Assets/Scripts/CustomPostProcessPass.cs:84-95 | on a game camera the submitted list is SetupBloom's commands followed by the composite blit, with SetupBloom's pool |

## Left out

- The `_Params` vector is left out. It is built from float math: `GammaToLinearSpace` of the threshold, the `0.5` knee, and `Lerp(0.05, 0.95, scatter)`. The threshold, scatter and clamp are carried in the configuration record but not computed on.
- The HDR format fallback in the constructor is left out, because it is a hardware capability query. The chosen format is a parameter.
- The constructor's `RTHandles.Alloc` of the sixteen handles, including line 41's use of `m_BloomMipDown[i]`, is left out. It is engine allocation; the initial pool is a parameter.
- `OnCameraSetup` and `SetTarget` only store the camera descriptor and targets. These become parameters.
- Submission is left out, because it is engine plumbing with no effect on the recorded list. This covers `CommandBufferPool`, `ProfilingScope` markers, `context.ExecuteCommandBuffer` and `cmd.Clear`.
- Blit load and store actions (`DontCare`/`Store`) are not recorded.
- Shader pixel behaviour is left out, because it is GPU output that this code does not determine. This includes what the prefilter, blur, upsample and composite passes compute.
- The commented-out RenderGraph code is left out, because it is not compiled.
- The parameterless `GetCompatibleDescriptor` overload is left out, because nothing calls it.
- `BloomEffectComponent`'s `IsActive` and `IsTileCompatible` are left out, because they are constants the pass never reads. The `tint` parameter is carried but never read, as in the source.
- Pyramid.MipCount: takes log2 exactly. The source computes it in single precision. The two agree for the target sizes the engine allows, but that is not proved here.
- BloomPass.BloomPlan: requires `maxIterations <= 16`. The component already limits it to [0, 10]. The `IndexOutOfRangeException` the arrays would raise above 16 is not modelled.
