/** The bloom render pass: per frame it sizes the pyramid's render targets,
    records the prefilter / downsample / upsample blits and publishes the
    result (SetupBloom), and on game cameras follows that with the composite
    blit (Execute). */
module BloomPass {
  import opened Pyramid
  import opened Resources
  import opened Commands

  datatype Color = Color(r: real, g: real, b: real, a: real)

  /** The bloom volume component's parameters, as read for one frame. The
      float fields are carried, never computed on; `cutoff` is the component's
      `x` parameter. */
  datatype BloomConfig = BloomConfig(threshold: real, intensity: real, scatter: real,
                                     clamp: int, maxIterations: nat, tint: Color,
                                     cutoff: real, density: real)

  /** The component's default values. */
  function DefaultConfig(): BloomConfig
  {
    BloomConfig(0.9, 1.0, 0.7, 65472, 6, Color(1.0, 1.0, 1.0, 1.0), 1.0, 1.0)
  }

  datatype Size = Size(width: nat, height: nat)

  /** Everything one SetupBloom call decides: the pyramid depth, the size of
      each level, the pool after sizing, the slots it had to reallocate (in
      order) and the recorded commands. */
  datatype BloomFrame = BloomFrame(mipCount: nat, levels: seq<Size>, pool: Pool,
                                   reallocated: seq<Tex>, cmds: seq<Cmd>)

  /** The descriptor level 0 is allocated with: the camera's, at half
      resolution, in the pass's HDR format, without depth or MSAA. */
  function BaseDesc(camera: Desc, hdrFormat: Format): (d: Desc)
    ensures d.width == camera.width / 2 && d.height == camera.height / 2
    ensures d.format == hdrFormat && d.depthBufferBits == DepthBitsNone && d.msaaSamples == 1
    ensures d.rest == camera.rest
  {
    HalfResolution(camera.width);
    HalfResolution(camera.height);
    CompatibleDescriptor(camera, Shr(camera.width, Downres), Shr(camera.height, Downres),
                         hdrFormat, DepthBitsNone)
  }

  lemma {:induction false} LevelDescsMatch(base: Desc, n: nat)
    ensures forall i :: 0 <= i < n ==>
      LevelDesc(base, i)
        == base.(width := LevelExtent(base.width, i), height := LevelExtent(base.height, i))
  {
    forall i | 0 <= i < n
      ensures LevelDesc(base, i)
              == base.(width := LevelExtent(base.width, i), height := LevelExtent(base.height, i))
    {
      LevelDescExtents(base, i);
    }
  }

  /** SetupBloom as a function of the camera descriptor, the HDR format chosen
      at construction, the frame's parameters and the pool it finds.

      The levels start at exactly half the camera size and each next one
      halves the previous, never below 1. Levels below the depth hold, in both
      the up and the down slot, a bilinear clamped target of that level's size
      in the HDR format, with no depth and no MSAA, and the camera's untracked
      descriptor fields; slots from the depth on are left as they were. A slot is
      reported reallocated exactly when it did not already hold that, and at
      most once. */
  function BloomPlan(camera: Desc, hdrFormat: Format, config: BloomConfig, pool: Pool): (f: BloomFrame)
    requires pool.Valid() && config.maxIterations <= MaxPyramidSize
    ensures f.pool.Valid()
    ensures config.maxIterations >= 1 ==> 1 <= f.mipCount <= config.maxIterations
    ensures f.mipCount <= MaxPyramidSize
    ensures |f.levels| == f.mipCount
    ensures f.mipCount >= 1 ==> f.levels[0] == Size(camera.width / 2, camera.height / 2)
    ensures forall i :: 1 <= i < f.mipCount ==>
      f.levels[i] == Size(Max(1, f.levels[i - 1].width / 2), Max(1, f.levels[i - 1].height / 2))
    ensures forall i :: 0 <= i < f.mipCount ==>
      var want := Allocated(Desc(f.levels[i].width, f.levels[i].height, hdrFormat,
                                 DepthBitsNone, 1, camera.rest), Bilinear, Clamp);
      f.pool.up[i] == want && f.pool.down[i] == want
    ensures forall i :: f.mipCount <= i < MaxPyramidSize ==>
      f.pool.up[i] == pool.up[i] && f.pool.down[i] == pool.down[i]
    ensures forall t :: t in f.reallocated <==>
      NeedsRealloc(pool, BaseDesc(camera, hdrFormat), f.mipCount, t)
    ensures NoDuplicates(f.reallocated)
  {
    var tw := Shr(camera.width, Downres);
    var th := Shr(camera.height, Downres);
    var m := MipCount(tw, th, config.maxIterations);
    var base := BaseDesc(camera, hdrFormat);
    var sizing := EnsureSized(pool, base, m);
    LevelDescsMatch(base, m);
    HalfResolution(camera.width);
    HalfResolution(camera.height);
    BloomFrame(m, seq(m, i requires 0 <= i => Size(LevelExtent(tw, i), LevelExtent(th, i))),
               sizing.pool, sizing.reallocated, BloomCommands(m, config.intensity))
  }

  /** The sizing loop of SetupBloom: reallocate up[i] and down[i] for each
      level below n with the running descriptor, then halve it. Besides the
      pool it returns the size each level was given. */
  method SizeTargets(pool: Pool, base: Desc, n: nat) returns (r: Sizing, levels: seq<Size>)
    requires pool.Valid() && n <= MaxPyramidSize
    ensures r == EnsureSized(pool, base, n)
    ensures levels == seq(n, i requires 0 <= i => Size(LevelExtent(base.width, i), LevelExtent(base.height, i)))
  {
    var desc := base;
    var up := pool.up;
    var down := pool.down;
    var reallocated: seq<Tex> := [];
    levels := [];
    var i := 0;
    while i < n
      invariant 0 <= i <= n
      invariant desc == LevelDesc(base, i)
      invariant EnsureSized(pool, base, i) == Sizing(Pool(up, down), reallocated)
      invariant levels == seq(i, j requires 0 <= j => Size(LevelExtent(base.width, j), LevelExtent(base.height, j)))
    {
      LevelDescExtents(base, i);
      var u := ReAllocateIfNeeded(up[i], desc, Bilinear, Clamp);
      up := up[i := u.handle];
      var d := ReAllocateIfNeeded(down[i], desc, Bilinear, Clamp);
      down := down[i := d.handle];
      reallocated := reallocated + (if u.reallocated then [Up(i)] else [])
                                 + (if d.reallocated then [Down(i)] else []);
      assert EnsureSized(pool, base, i + 1) == Sizing(Pool(up, down), reallocated);
      levels := levels + [Size(desc.width, desc.height)];
      desc := desc.(width := Max(1, desc.width / 2), height := Max(1, desc.height / 2));
      i := i + 1;
    }
    r := Sizing(Pool(up, down), reallocated);
  }

  /** The prefilter blit and the downsample loop, which carries the last
      down target from one level to the next. */
  method RecordDownsample(mipCount: nat) returns (cmds: seq<Cmd>)
    ensures cmds == [Prefilter()] + DownChain(mipCount)
  {
    cmds := [Blit(Camera, Down(0), BloomMaterial, PrefilterPass)];
    var lastDown := Down(0);
    var i := 1;
    while i < mipCount
      invariant 1 <= i <= Max(mipCount, 1)
      invariant lastDown == Down(i - 1)
      invariant cmds == [Prefilter()] + DownChain(i)
    {
      cmds := cmds + [Blit(lastDown, Up(i), BloomMaterial, DownsamplePassA),
                      Blit(Up(i), Down(i), BloomMaterial, DownsamplePassB)];
      lastDown := Down(i);
      i := i + 1;
    }
  }

  /** The descending upsample loop, appended to what is already recorded. */
  method RecordUpsample(mipCount: nat, prefix: seq<Cmd>) returns (cmds: seq<Cmd>)
    ensures cmds == prefix + UpChain(mipCount, mipCount - 2)
  {
    cmds := prefix;
    var i: int := mipCount - 2;
    while i >= 0
      invariant i <= mipCount - 2
      invariant cmds + UpChain(mipCount, i) == prefix + UpChain(mipCount, mipCount - 2)
      decreases i
    {
      var lowMip := if i == mipCount - 2 then Down(i + 1) else Up(i + 1);
      var highMip := Down(i);
      var dst := Up(i);
      cmds := cmds + [SetGlobalTexture(LowMipName, lowMip),
                      Blit(highMip, dst, BloomMaterial, UpsamplePass)];
      i := i - 1;
    }
  }

  /** SetupBloom as the source writes it: half resolution, the depth, the
      sizing loop, the prefilter and downsample loop, the upsample loop and
      the publication; it computes exactly BloomPlan. */
  method SetupBloom(camera: Desc, hdrFormat: Format, config: BloomConfig, pool: Pool)
    returns (f: BloomFrame)
    requires pool.Valid() && config.maxIterations <= MaxPyramidSize
    ensures f == BloomPlan(camera, hdrFormat, config, pool)
  {
    var downres := Downres;
    var tw := Shr(camera.width, downres);
    var th := Shr(camera.height, downres);
    var mipCount := MipCount(tw, th, config.maxIterations);

    var desc := CompatibleDescriptor(camera, tw, th, hdrFormat, DepthBitsNone);
    var sizing, levels := SizeTargets(pool, desc, mipCount);
    var cmds := RecordDownsample(mipCount);
    cmds := RecordUpsample(mipCount, cmds);
    cmds := cmds + [SetGlobalTexture(BloomTextureName, Up(0)),
                    SetGlobalFloat(BloomIntensityName, config.intensity)];
    f := BloomFrame(mipCount, levels, sizing.pool, sizing.reallocated, cmds);
  }

  /** Level i is max(1, (width / 2) >> i) in each dimension, except that an
      empty half-resolution extent stays empty at level 0. */
  lemma {:induction false} BloomPlanLevelSize(camera: Desc, hdrFormat: Format, config: BloomConfig, pool: Pool, i: nat)
    requires pool.Valid() && config.maxIterations <= MaxPyramidSize
    requires i < BloomPlan(camera, hdrFormat, config, pool).mipCount
    ensures var f := BloomPlan(camera, hdrFormat, config, pool);
      && (i >= 1 || camera.width / 2 >= 1 ==> f.levels[i].width == Max(1, Shr(camera.width / 2, i)))
      && (i >= 1 || camera.height / 2 >= 1 ==> f.levels[i].height == Max(1, Shr(camera.height / 2, i)))
  {
    HalfResolution(camera.width);
    HalfResolution(camera.height);
    if i >= 1 || camera.width / 2 >= 1 {
      LevelExtentClosedForm(camera.width / 2, i);
    }
    if i >= 1 || camera.height / 2 >= 1 {
      LevelExtentClosedForm(camera.height / 2, i);
    }
  }

  /** The commands the planner records are the bloom command list for its
      own depth, which is the clamped natural depth of the half-resolution
      target; for a non-empty pyramid that list has 4m - 1 commands laid out
      position by position, 3m - 2 of them blits, and every texture it reads
      before the publication was written earlier, up[0] included exactly when
      the pyramid has two levels or more. */
  lemma BloomPlanCommands(camera: Desc, hdrFormat: Format, config: BloomConfig, pool: Pool)
    requires pool.Valid() && config.maxIterations <= MaxPyramidSize
    ensures var f := BloomPlan(camera, hdrFormat, config, pool);
            var m := f.mipCount;
      && m == MipCount(camera.width / 2, camera.height / 2, config.maxIterations)
      && f.cmds == BloomCommands(m, config.intensity)
      && (m >= 1 ==>
            && |f.cmds| == 4 * m - 1
            && BlitCount(f.cmds) == 3 * m - 2
            && (forall k :: 0 <= k < 4 * m - 1 ==> f.cmds[k] == ExpectedAt(m, config.intensity, k))
            && (forall k, t :: 0 <= k < 4 * m - 3 && t in Reads(f.cmds[k]) && t != Camera ==>
                  WrittenBefore(f.cmds, k, t))
            && (WrittenBefore(f.cmds, 4 * m - 3, Up(0)) <==> m >= 2))
  {
    HalfResolution(camera.width);
    HalfResolution(camera.height);
    var f := BloomPlan(camera, hdrFormat, config, pool);
    if f.mipCount >= 1 {
      BloomCommandsShape(f.mipCount, config.intensity);
      BloomBlitCount(f.mipCount, config.intensity);
      BloomCommandsWriteBeforeRead(f.mipCount, config.intensity);
    }
  }

  /** Sizing is folded into the call that records the blits: when the
      configuration allows at least one iteration, a level that command k
      names lies below the depth, hence below MaxPyramidSize, and its slot
      holds this frame's target for that level when the commands run. */
  lemma BloomPlanTargetSized(camera: Desc, hdrFormat: Format, config: BloomConfig, pool: Pool,
                             k: nat, t: Tex)
    requires pool.Valid() && 1 <= config.maxIterations <= MaxPyramidSize
    requires k < |BloomPlan(camera, hdrFormat, config, pool).cmds|
    requires t in Mentions(BloomPlan(camera, hdrFormat, config, pool).cmds[k])
    requires t != Camera
    ensures var f := BloomPlan(camera, hdrFormat, config, pool);
      && t.level < f.mipCount && InPool(t)
      && HandleOf(f.pool, t) == Target(BaseDesc(camera, hdrFormat), t.level)
  {
    var f := BloomPlan(camera, hdrFormat, config, pool);
    BloomCommandsConfined(f.mipCount, config.intensity);
  }

  /** With maxIterations = 0 (allowed by the component) and a half-resolution
      target of at least 4 pixels, Mathf.Clamp(iterations, 1, 0) yields 0: the
      sizing loop does nothing, yet the prefilter still writes down[0], whose
      slot was not sized this frame, and up[0] is published without being
      written. */
  lemma BloomPlanZeroIterations(camera: Desc, hdrFormat: Format, config: BloomConfig, pool: Pool)
    requires pool.Valid() && config.maxIterations == 0
    requires Max(camera.width / 2, camera.height / 2) >= 4
    ensures var f := BloomPlan(camera, hdrFormat, config, pool);
      && f.mipCount == 0 && f.pool == pool && f.reallocated == []
      && f.cmds[0] == Blit(Camera, Down(0), BloomMaterial, PrefilterPass)
      && f.cmds[1] == SetGlobalTexture(BloomTextureName, Up(0))
      && forall k :: 0 <= k < |f.cmds| ==> !WritesTo(f.cmds[k], Up(0))
  {
  }

  /** Running the pass again on the pool it left, for the same camera and
      parameters, reallocates nothing and records the same commands. */
  lemma BloomPlanSecondRunReallocatesNothing(camera: Desc, hdrFormat: Format, config: BloomConfig,
                                            pool: Pool)
    requires pool.Valid() && config.maxIterations <= MaxPyramidSize
    ensures var once := BloomPlan(camera, hdrFormat, config, pool);
            var twice := BloomPlan(camera, hdrFormat, config, once.pool);
            twice.reallocated == [] && twice.pool == once.pool && twice.cmds == once.cmds
  {
    var once := BloomPlan(camera, hdrFormat, config, pool);
    EnsureSizedIdempotent(pool, BaseDesc(camera, hdrFormat), once.mipCount);
  }

  /** A 1920 x 1080 camera at the default parameters: six levels from
      960 x 540 down to 30 x 16, and 16 blits among 23 commands. */
  lemma BloomPlanFullHd(camera: Desc, hdrFormat: Format, pool: Pool)
    requires pool.Valid() && camera.width == 1920 && camera.height == 1080
    ensures var f := BloomPlan(camera, hdrFormat, DefaultConfig(), pool);
      && f.mipCount == 6
      && f.levels == [Size(960, 540), Size(480, 270), Size(240, 135),
                      Size(120, 67), Size(60, 33), Size(30, 16)]
      && |f.cmds| == 23 && BlitCount(f.cmds) == 16
  {
    MipCountFullHd();
    BloomCommandsShape(6, 1.0);
    BloomBlitCount(6, 1.0);
  }

  // ---------------------------------------------------------------------
  // Execute

  datatype CameraType = Game | SceneView | Preview | VR | Reflection

  /** The composite material's float properties. */
  datatype CompositeInputs = CompositeInputs(cutoff: real, bloomIntensity: real, density: real)

  /** What Execute leaves behind: the pool, the commands submitted this frame
      and the composite material's settings. */
  datatype FrameRecord = FrameRecord(pool: Pool, cmds: seq<Cmd>, composite: CompositeInputs)

  /** Execute: on game cameras, the bloom commands followed by the one
      composite blit of the camera target onto itself, with the composite
      material's cutoff, intensity and density taken from the parameters;
      on every other camera nothing is recorded and nothing changes. */
  function Execute(cameraType: CameraType, camera: Desc, hdrFormat: Format, config: BloomConfig,
                   pool: Pool, composite: CompositeInputs): (r: FrameRecord)
    requires pool.Valid() && config.maxIterations <= MaxPyramidSize
    ensures cameraType != Game ==> r == FrameRecord(pool, [], composite)
    ensures cameraType == Game ==>
      && |r.cmds| >= 2
      && r.cmds[|r.cmds| - 1] == Blit(Camera, Camera, CompositeMaterial, CompositePass)
      && r.cmds[0] == Blit(Camera, Down(0), BloomMaterial, PrefilterPass)
      && (forall k :: 0 <= k < |r.cmds| - 1 && r.cmds[k].Blit? ==>
            r.cmds[k].material == BloomMaterial)
      && (forall k :: 0 <= k < |r.cmds| ==>
            (Camera in Reads(r.cmds[k]) <==> k == 0 || k == |r.cmds| - 1))
      && r.composite == CompositeInputs(config.cutoff, config.intensity, config.density)
  {
    if cameraType == Game then
      var f := BloomPlan(camera, hdrFormat, config, pool);
      BloomCommandsConfined(f.mipCount, config.intensity);
      BloomCommandsStartAtPrefilter(f.mipCount, config.intensity);
      FrameRecord(f.pool, f.cmds + [Blit(Camera, Camera, CompositeMaterial, CompositePass)],
                  CompositeInputs(config.cutoff, config.intensity, config.density))
    else
      FrameRecord(pool, [], composite)
  }

  /** On a game camera the submitted list is exactly SetupBloom's commands
      followed by the composite blit, with the pool SetupBloom left. */
  lemma ExecuteBloomPrecedesComposite(camera: Desc, hdrFormat: Format, config: BloomConfig,
                                      pool: Pool, composite: CompositeInputs)
    requires pool.Valid() && config.maxIterations <= MaxPyramidSize
    ensures var r := Execute(Game, camera, hdrFormat, config, pool, composite);
            var f := BloomPlan(camera, hdrFormat, config, pool);
      && r.cmds == f.cmds + [Blit(Camera, Camera, CompositeMaterial, CompositePass)]
      && r.pool == f.pool
  {
  }
}
