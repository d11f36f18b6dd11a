/** The commands the bloom pass records, the bloom command list for a pyramid
    of a given depth, and what can be said about its shape and order. */
module Commands {
  import opened Pyramid
  import opened Resources

  datatype Material = BloomMaterial | CompositeMaterial

  /** A recorded command: a full-screen blit with one pass of a material, or
      setting a global shader texture or float. */
  datatype Cmd =
    | Blit(src: Tex, dst: Tex, material: Material, pass: nat)
    | SetGlobalTexture(name: string, tex: Tex)
    | SetGlobalFloat(name: string, value: real)

  /** Shader passes of the bloom material, and the composite pass. */
  const PrefilterPass: nat := 0
  const DownsamplePassA: nat := 1
  const DownsamplePassB: nat := 2
  const UpsamplePass: nat := 3
  const CompositePass: nat := 0

  /** Global shader property names. */
  const LowMipName: string := "_SourceTexLowMip"
  const BloomTextureName: string := "_Bloom_Texture"
  const BloomIntensityName: string := "_BloomIntensity"

  /** Textures a command reads: a blit's source, and a texture bound as a
      global input (read later by a shader). */
  function Reads(c: Cmd): set<Tex>
  {
    match c
    case Blit(src, _, _, _) => {src}
    case SetGlobalTexture(_, t) => {t}
    case SetGlobalFloat(_, _) => {}
  }

  predicate WritesTo(c: Cmd, t: Tex)
  {
    c.Blit? && c.dst == t
  }

  /** Every texture a command names. */
  function Mentions(c: Cmd): set<Tex>
  {
    match c
    case Blit(src, dst, _, _) => {src, dst}
    case SetGlobalTexture(_, t) => {t}
    case SetGlobalFloat(_, _) => {}
  }

  /** Some command before position k writes t. */
  predicate WrittenBefore(cmds: seq<Cmd>, k: nat, t: Tex)
    requires k <= |cmds|
  {
    exists j :: 0 <= j < k && WritesTo(cmds[j], t)
  }

  function BlitCount(cmds: seq<Cmd>): nat
  {
    if cmds == [] then 0 else (if cmds[0].Blit? then 1 else 0) + BlitCount(cmds[1..])
  }

  lemma {:induction false} BlitCountAppend(a: seq<Cmd>, b: seq<Cmd>)
    ensures BlitCount(a + b) == BlitCount(a) + BlitCount(b)
  {
    if a == [] {
      assert a + b == b;
    } else {
      assert (a + b)[0] == a[0];
      assert (a + b)[1..] == a[1..] + b;
      BlitCountAppend(a[1..], b);
    }
  }

  // ---------------------------------------------------------------------
  // The bloom command list, stage by stage, as the source's loops emit it.

  /** Prefilter: the camera image into down[0], thresholded. */
  function Prefilter(): Cmd
  {
    Blit(Camera, Down(0), BloomMaterial, PrefilterPass)
  }

  /** The two blits of downsample level i. */
  function DownStep(i: nat): seq<Cmd>
    requires i >= 1
  {
    [Blit(Down(i - 1), Up(i), BloomMaterial, DownsamplePassA),
     Blit(Up(i), Down(i), BloomMaterial, DownsamplePassB)]
  }

  /** Downsample levels 1 .. n-1 in increasing order. */
  function DownChain(n: nat): (r: seq<Cmd>)
    ensures |r| == 2 * Max(n - 1, 0)
  {
    if n <= 1 then [] else DownChain(n - 1) + DownStep(n - 1)
  }

  /** The coarser texture blended into upsample level i: the last downsample
      result on the first upsample iteration, the previous upsample result
      after that. */
  function LowMip(m: nat, i: nat): (t: Tex)
    ensures !t.Camera? && t.level == i + 1
    ensures t.Down? <==> i + 2 == m
  {
    if i == m - 2 then Down(i + 1) else Up(i + 1)
  }

  /** Bind the low mip, then blend it with down[i] into up[i]. */
  function UpStep(m: nat, i: nat): seq<Cmd>
  {
    [SetGlobalTexture(LowMipName, LowMip(m, i)),
     Blit(Down(i), Up(i), BloomMaterial, UpsamplePass)]
  }

  /** Upsample levels i, i-1, .. 0 in decreasing order. */
  function UpChain(m: nat, i: int): (r: seq<Cmd>)
    ensures |r| == 2 * Max(i + 1, 0)
    decreases i + 1
  {
    if i < 0 then [] else UpStep(m, i) + UpChain(m, i - 1)
  }

  /** Publication of the final bloom image and the intensity. */
  function Publication(intensity: real): seq<Cmd>
  {
    [SetGlobalTexture(BloomTextureName, Up(0)), SetGlobalFloat(BloomIntensityName, intensity)]
  }

  /** The commands SetupBloom records for a pyramid of depth m. */
  function BloomCommands(m: nat, intensity: real): seq<Cmd>
  {
    [Prefilter()] + DownChain(m) + UpChain(m, m - 2) + Publication(intensity)
  }

  // ---------------------------------------------------------------------
  // The same list described position by position.

  /** The command at position k of the list for depth m >= 1: the prefilter,
      then levels 1 .. m-1 two blits each, then levels m-2 .. 0 a binding and
      a blit each, then the two publication commands. */
  function ExpectedAt(m: nat, intensity: real, k: nat): Cmd
    requires m >= 1 && k < 4 * m - 1
  {
    if k == 0 then Prefilter()
    else if k < 2 * m - 1 then
      var i := (k + 1) / 2;
      if k % 2 == 1 then Blit(Down(i - 1), Up(i), BloomMaterial, DownsamplePassA)
      else Blit(Up(i), Down(i), BloomMaterial, DownsamplePassB)
    else if k < 4 * m - 3 then
      var i := m - 2 - (k - (2 * m - 1)) / 2;
      if (k - (2 * m - 1)) % 2 == 0 then SetGlobalTexture(LowMipName, LowMip(m, i))
      else Blit(Down(i), Up(i), BloomMaterial, UpsamplePass)
    else if k == 4 * m - 3 then SetGlobalTexture(BloomTextureName, Up(0))
    else SetGlobalFloat(BloomIntensityName, intensity)
  }

  lemma {:induction false} DownChainAt(n: nat)
    ensures |DownChain(n)| == 2 * Max(n - 1, 0)
    ensures forall k :: 0 <= k < |DownChain(n)| ==>
      DownChain(n)[k] == (if k % 2 == 0 then Blit(Down(k / 2), Up(k / 2 + 1), BloomMaterial, DownsamplePassA)
                          else Blit(Up(k / 2 + 1), Down(k / 2 + 1), BloomMaterial, DownsamplePassB))
  {
    if n > 1 {
      DownChainAt(n - 1);
    }
  }

  lemma {:induction false} UpChainAt(m: nat, i: int)
    ensures |UpChain(m, i)| == 2 * Max(i + 1, 0)
    ensures forall k :: 0 <= k < |UpChain(m, i)| ==>
      UpChain(m, i)[k] == (if k % 2 == 0 then SetGlobalTexture(LowMipName, LowMip(m, i - k / 2))
                           else Blit(Down(i - k / 2), Up(i - k / 2), BloomMaterial, UpsamplePass))
    decreases i + 1
  {
    if i >= 0 {
      UpChainAt(m, i - 1);
      var s := UpChain(m, i);
      forall k | 2 <= k < |s|
        ensures s[k] == UpChain(m, i - 1)[k - 2]
      {
      }
    }
  }

  /** The list for depth m >= 1 has 4m - 1 commands, and each is the one the
      position-by-position description names. */
  lemma BloomCommandsShape(m: nat, intensity: real)
    requires m >= 1
    ensures |BloomCommands(m, intensity)| == 4 * m - 1
    ensures forall k :: 0 <= k < 4 * m - 1 ==>
      BloomCommands(m, intensity)[k] == ExpectedAt(m, intensity, k)
  {
    DownChainAt(m);
    UpChainAt(m, m - 2);
    var cmds := BloomCommands(m, intensity);
    var d := DownChain(m);
    var u := UpChain(m, m - 2);
    forall k | 0 <= k < 4 * m - 1
      ensures cmds[k] == ExpectedAt(m, intensity, k)
    {
      if k == 0 {
      } else if k < 2 * m - 1 {
        assert cmds[k] == d[k - 1];
      } else if k < 4 * m - 3 {
        assert cmds[k] == u[k - (2 * m - 1)];
      } else {
      }
    }
  }

  /** With maxIterations = 0 the pyramid can be empty: the list is then the
      prefilter into down[0] and the publication of an up[0] that nothing
      wrote. */
  lemma BloomCommandsEmptyPyramid(intensity: real)
    ensures BloomCommands(0, intensity)
            == [Prefilter(), SetGlobalTexture(BloomTextureName, Up(0)),
                SetGlobalFloat(BloomIntensityName, intensity)]
  {
  }

  // ---------------------------------------------------------------------
  // Properties of the bloom command list.

  lemma BloomCommandsStartAtPrefilter(m: nat, intensity: real)
    ensures |BloomCommands(m, intensity)| >= 3
    ensures BloomCommands(m, intensity)[0] == Prefilter()
  {
  }

  /** 1 prefilter blit, 2 per downsample level, 1 per upsample level. */
  lemma BloomBlitCount(m: nat, intensity: real)
    requires m >= 1
    ensures BlitCount(BloomCommands(m, intensity)) == 3 * m - 2
  {
    BlitCountDownChain(m);
    BlitCountUpChain(m, m - 2);
    BlitCountAppend([Prefilter()], DownChain(m));
    BlitCountAppend([Prefilter()] + DownChain(m), UpChain(m, m - 2));
    BlitCountAppend([Prefilter()] + DownChain(m) + UpChain(m, m - 2), Publication(intensity));
    assert BlitCount(Publication(intensity)) == 0 by {
      assert Publication(intensity)[1..][1..] == [];
    }
  }

  lemma {:induction false} BlitCountDownChain(n: nat)
    ensures BlitCount(DownChain(n)) == 2 * Max(n - 1, 0)
  {
    if n > 1 {
      BlitCountDownChain(n - 1);
      var step := DownStep(n - 1);
      BlitCountAppend(DownChain(n - 1), step);
      assert step[1..] == [step[1]] && step[1..][1..] == [];
      assert BlitCount(step[1..]) == 1;
    }
  }

  lemma {:induction false} BlitCountUpChain(m: nat, i: int)
    ensures BlitCount(UpChain(m, i)) == Max(i + 1, 0)
    decreases i + 1
  {
    if i >= 0 {
      BlitCountUpChain(m, i - 1);
      BlitCountAppend(UpStep(m, i), UpChain(m, i - 1));
      assert UpStep(m, i)[1..][1..] == [];
    }
  }

  /** Only the first command reads the camera image; every blit uses the
      bloom material; every level the list names lies below the pyramid
      depth (below 1 for an empty pyramid), so levels from m on are never
      touched. */
  lemma BloomCommandsConfined(m: nat, intensity: real)
    ensures var cmds := BloomCommands(m, intensity);
      && (forall k :: 0 <= k < |cmds| ==> (Camera in Reads(cmds[k]) <==> k == 0))
      && (forall k :: 0 <= k < |cmds| && cmds[k].Blit? ==> cmds[k].material == BloomMaterial)
      && (forall k, t :: 0 <= k < |cmds| && t in Mentions(cmds[k]) ==>
            t == Camera || t.level < Max(m, 1))
  {
    var cmds := BloomCommands(m, intensity);
    if m == 0 {
      BloomCommandsEmptyPyramid(intensity);
    } else {
      BloomCommandsShape(m, intensity);
      forall k | 0 <= k < |cmds|
        ensures Camera in Reads(cmds[k]) <==> k == 0
        ensures cmds[k].Blit? ==> cmds[k].material == BloomMaterial
        ensures forall t :: t in Mentions(cmds[k]) ==> t == Camera || t.level < m
      {
        assert cmds[k] == ExpectedAt(m, intensity, k);
      }
    }
  }

  /** The first command writes down[0] from the camera image, and downsample
      level i (1 <= i < m) sits at positions 2i-1 and 2i: down[i-1] to up[i]
      with pass 1, then up[i] to down[i] with pass 2. */
  lemma BloomCommandsDownsample(m: nat, intensity: real)
    requires m >= 1
    ensures var cmds := BloomCommands(m, intensity);
      && |cmds| == 4 * m - 1
      && cmds[0] == Blit(Camera, Down(0), BloomMaterial, PrefilterPass)
      && (forall i :: 1 <= i < m ==>
            cmds[2 * i - 1] == Blit(Down(i - 1), Up(i), BloomMaterial, DownsamplePassA)
            && cmds[2 * i] == Blit(Up(i), Down(i), BloomMaterial, DownsamplePassB))
  {
    var cmds := BloomCommands(m, intensity);
    BloomCommandsShape(m, intensity);
    assert cmds[0] == ExpectedAt(m, intensity, 0);
    forall i | 1 <= i < m
      ensures cmds[2 * i - 1] == Blit(Down(i - 1), Up(i), BloomMaterial, DownsamplePassA)
      ensures cmds[2 * i] == Blit(Up(i), Down(i), BloomMaterial, DownsamplePassB)
    {
      var k := 2 * i - 1;
      assert (k + 1) / 2 == i && k % 2 == 1;
      assert (k + 2) / 2 == i && (k + 1) % 2 == 0;
      assert cmds[k] == ExpectedAt(m, intensity, k);
      assert cmds[k + 1] == ExpectedAt(m, intensity, k + 1);
    }
  }

  /** Upsample level i (m-2 down to 0) sits at positions 4m-5-2i and 4m-4-2i:
      bind the low mip, which is down[i+1] only for i = m-2 and up[i+1]
      otherwise, then blit down[i] to up[i] with pass 3. The list ends with
      the publication of up[0] and then of the intensity. */
  lemma BloomCommandsUpsample(m: nat, intensity: real)
    requires m >= 1
    ensures var cmds := BloomCommands(m, intensity);
      && |cmds| == 4 * m - 1
      && (forall i :: 0 <= i <= m - 2 ==>
            cmds[4 * m - 5 - 2 * i]
              == SetGlobalTexture(LowMipName, if i == m - 2 then Down(i + 1) else Up(i + 1))
            && cmds[4 * m - 4 - 2 * i] == Blit(Down(i), Up(i), BloomMaterial, UpsamplePass))
      && cmds[4 * m - 3] == SetGlobalTexture(BloomTextureName, Up(0))
      && cmds[4 * m - 2] == SetGlobalFloat(BloomIntensityName, intensity)
  {
    var cmds := BloomCommands(m, intensity);
    BloomCommandsShape(m, intensity);
    assert cmds[4 * m - 3] == ExpectedAt(m, intensity, 4 * m - 3);
    assert cmds[4 * m - 2] == ExpectedAt(m, intensity, 4 * m - 2);
    forall i | 0 <= i <= m - 2
      ensures cmds[4 * m - 5 - 2 * i]
              == SetGlobalTexture(LowMipName, if i == m - 2 then Down(i + 1) else Up(i + 1))
      ensures cmds[4 * m - 4 - 2 * i] == Blit(Down(i), Up(i), BloomMaterial, UpsamplePass)
    {
      var k := 4 * m - 5 - 2 * i;
      var j := m - 2 - i;
      assert k - (2 * m - 1) == 2 * j;
      assert (2 * j) / 2 == j && (2 * j) % 2 == 0;
      assert (2 * j + 1) / 2 == j && (2 * j + 1) % 2 == 1;
      assert cmds[k] == ExpectedAt(m, intensity, k);
      assert cmds[k + 1] == ExpectedAt(m, intensity, k + 1);
    }
  }

  /** Write-before-read: every texture a blit reads or a binding names, other
      than the camera image, was written by an earlier blit of the list; in
      fact by the command just before it, except for the upsample blit's
      same-level input down[i]. The published up[0] is written before its
      publication exactly when the pyramid has at least two levels. */
  lemma BloomCommandsWriteBeforeRead(m: nat, intensity: real)
    requires m >= 1
    ensures var cmds := BloomCommands(m, intensity);
      && |cmds| == 4 * m - 1
      && (forall k, t :: 0 <= k < 4 * m - 3 && t in Reads(cmds[k]) && t != Camera ==>
            WrittenBefore(cmds, k, t))
      && (WrittenBefore(cmds, 4 * m - 3, Up(0)) <==> m >= 2)
  {
    var cmds := BloomCommands(m, intensity);
    BloomCommandsShape(m, intensity);
    forall k, t | 0 <= k < 4 * m - 3 && t in Reads(cmds[k]) && t != Camera
      ensures WrittenBefore(cmds, k, t)
    {
      assert cmds[k] == ExpectedAt(m, intensity, k);
      if k < 2 * m - 1 || (k - (2 * m - 1)) % 2 == 0 {
        // a downsample blit or a low-mip binding: its predecessor wrote t
        assert cmds[k - 1] == ExpectedAt(m, intensity, k - 1);
        assert WritesTo(cmds[k - 1], t);
      } else {
        // the upsample blit of level i reads down[i], written at 2i
        var i := m - 2 - (k - (2 * m - 1)) / 2;
        assert cmds[2 * i] == ExpectedAt(m, intensity, 2 * i);
        assert WritesTo(cmds[2 * i], t);
      }
    }
    if m >= 2 {
      assert cmds[4 * m - 4] == ExpectedAt(m, intensity, 4 * m - 4);
      assert WritesTo(cmds[4 * m - 4], Up(0));
    } else {
      forall j | 0 <= j < 4 * m - 3
        ensures !WritesTo(cmds[j], Up(0))
      {
        assert cmds[j] == ExpectedAt(m, intensity, j);
      }
    }
  }
}
