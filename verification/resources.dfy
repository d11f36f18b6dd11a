/** The render targets the bloom pass owns: texture identities, descriptors,
    and the pool of per-level "up" and "down" handles that is resized in place
    every frame. */
module Resources {
  import opened Pyramid

  /** A texture a command can name: the camera colour target, or the up/down
      render target of one pyramid level. */
  datatype Tex = Camera | Up(level: nat) | Down(level: nat)

  /** Pixel formats the pass chooses between; every other format is opaque. */
  datatype Format = B10G11R11UFloatPack32 | R8G8B8A8Srgb | R8G8B8A8UNorm | OtherFormat(code: nat)

  /** A render texture descriptor. `rest` stands for every field the pass
      never writes (dimension, volume depth, flags, ...). The model treats the
      descriptor's setters as independent field stores, so `rest` is carried
      over as a whole; the engine's format setter also updates the sRGB flag,
      which `rest` does not track. */
  datatype Desc = Desc(width: nat, height: nat, format: Format,
                       depthBufferBits: nat, msaaSamples: nat, rest: nat)

  /** DepthBits.None. */
  const DepthBitsNone: nat := 0

  datatype FilterMode = Point | Bilinear | Trilinear

  datatype WrapMode = Repeat | Clamp | Mirror | MirrorOnce

  /** GetCompatibleDescriptor: the camera descriptor with depth, MSAA, size
      and format overwritten. */
  function CompatibleDescriptor(desc: Desc, width: nat, height: nat, format: Format,
                                depthBufferBits: nat): (r: Desc)
    ensures r.rest == desc.rest
  {
    desc.(depthBufferBits := depthBufferBits, msaaSamples := 1,
          width := width, height := height, format := format)
  }

  /** The overwritten fields are set to exactly what was asked for, MSAA is
      turned off, and of the camera descriptor only the untouched fields
      survive: two cameras that agree on those give the same descriptor, and
      asking again for the same size and format changes nothing. */
  lemma CompatibleDescriptorOverwrites(d1: Desc, d2: Desc, width: nat, height: nat,
                                       format: Format, depthBufferBits: nat)
    ensures var r := CompatibleDescriptor(d1, width, height, format, depthBufferBits);
      && r.width == width && r.height == height && r.format == format
      && r.depthBufferBits == depthBufferBits && r.msaaSamples == 1
      && CompatibleDescriptor(r, width, height, format, depthBufferBits) == r
      && (d1.rest == d2.rest ==>
            r == CompatibleDescriptor(d2, width, height, format, depthBufferBits))
  {
  }

  /** One step of the sizing loop: halve both dimensions, never below 1. */
  function HalveDesc(d: Desc): Desc
  {
    d.(width := Max(1, d.width / 2), height := Max(1, d.height / 2))
  }

  /** A sizing step halves each extent, rounding down, but never below one
      pixel, and leaves every other field alone. */
  lemma HalveDescHalves(d: Desc)
    ensures var r := HalveDesc(d);
      && r.width >= 1 && r.height >= 1
      && (d.width >= 2 ==> 2 * r.width <= d.width < 2 * r.width + 2)
      && (d.height >= 2 ==> 2 * r.height <= d.height < 2 * r.height + 2)
      && (d.width < 2 ==> r.width == 1)
      && (d.height < 2 ==> r.height == 1)
      && r == d.(width := r.width, height := r.height)
  {
  }

  /** The descriptor the sizing loop holds when it reaches level i. */
  function LevelDesc(base: Desc, i: nat): Desc
  {
    if i == 0 then base else HalveDesc(LevelDesc(base, i - 1))
  }

  /** Level i's descriptor is the base with both extents taken from the level
      recurrence; format and every other field stay the base's. */
  lemma {:induction false} LevelDescExtents(base: Desc, i: nat)
    ensures LevelDesc(base, i)
            == base.(width := LevelExtent(base.width, i), height := LevelExtent(base.height, i))
  {
    if i > 0 {
      LevelDescExtents(base, i - 1);
    }
  }

  /** A pooled render-target handle: allocated once without a size, then
      (re)allocated with a descriptor, filter and wrap mode. */
  datatype Handle = Unsized | Allocated(desc: Desc, filter: FilterMode, wrap: WrapMode)

  /** The handle a level should hold this frame. */
  function Target(base: Desc, i: nat): Handle
  {
    Allocated(LevelDesc(base, i), Bilinear, Clamp)
  }

  datatype Reallocation = Reallocation(handle: Handle, reallocated: bool)

  /** RenderingUtils.ReAllocateIfNeeded, under the assumption that it
      reallocates exactly when the requested descriptor, filter or wrap mode
      differs from the handle's current one. */
  function ReAllocateIfNeeded(h: Handle, desc: Desc, filter: FilterMode, wrap: WrapMode): (r: Reallocation)
    ensures r.handle == Allocated(desc, filter, wrap)
    ensures r.reallocated <==> h != r.handle
  {
    var want := Allocated(desc, filter, wrap);
    if h == want then Reallocation(h, false) else Reallocation(want, true)
  }

  /** The two arrays of MaxPyramidSize handles, indexed by level. */
  datatype Pool = Pool(up: seq<Handle>, down: seq<Handle>) {
    predicate Valid()
    {
      |up| == MaxPyramidSize && |down| == MaxPyramidSize
    }
  }

  predicate InPool(t: Tex)
  {
    !t.Camera? && t.level < MaxPyramidSize
  }

  function HandleOf(pool: Pool, t: Tex): Handle
    requires pool.Valid() && InPool(t)
  {
    if t.Up? then pool.up[t.level] else pool.down[t.level]
  }

  /** Whether sizing n levels from `base` has to reallocate slot t. */
  predicate NeedsRealloc(pool: Pool, base: Desc, n: nat, t: Tex)
    requires pool.Valid()
  {
    InPool(t) && t.level < n && HandleOf(pool, t) != Target(base, t.level)
  }

  predicate NoDuplicates(s: seq<Tex>)
  {
    forall a, b :: 0 <= a < b < |s| ==> s[a] != s[b]
  }

  /** Appending slots of a level not yet listed keeps a list free of
      duplicates. */
  lemma AppendLevelNoDuplicates(s: seq<Tex>, i: nat, up: bool, down: bool)
    requires NoDuplicates(s)
    requires forall t :: t in s ==> !t.Camera? && t.level < i
    ensures NoDuplicates(s + (if up then [Up(i)] else []) + (if down then [Down(i)] else []))
  {
  }

  datatype Sizing = Sizing(pool: Pool, reallocated: seq<Tex>)

  /** The sizing loop of SetupBloom over levels 0 .. n-1: each level's up and
      down handle is (re)allocated with that level's descriptor, in the order
      up[i], down[i]. Levels from n on are left as they were, and a slot is
      reported as reallocated exactly when it did not already hold its
      target. Each slot is reported at most once, so the list's length is the
      number of reallocations. */
  function EnsureSized(pool: Pool, base: Desc, n: nat): (r: Sizing)
    requires pool.Valid() && n <= MaxPyramidSize
    ensures r.pool.Valid()
    ensures forall i :: 0 <= i < n ==> r.pool.up[i] == Target(base, i)
    ensures forall i :: 0 <= i < n ==> r.pool.down[i] == Target(base, i)
    ensures forall i :: n <= i < MaxPyramidSize ==> r.pool.up[i] == pool.up[i]
    ensures forall i :: n <= i < MaxPyramidSize ==> r.pool.down[i] == pool.down[i]
    ensures forall t :: t in r.reallocated <==> NeedsRealloc(pool, base, n, t)
    ensures NoDuplicates(r.reallocated)
    ensures |r.reallocated| <= 2 * n
  {
    if n == 0 then Sizing(pool, [])
    else
      var prev := EnsureSized(pool, base, n - 1);
      var i := n - 1;
      var u := ReAllocateIfNeeded(prev.pool.up[i], LevelDesc(base, i), Bilinear, Clamp);
      var d := ReAllocateIfNeeded(prev.pool.down[i], LevelDesc(base, i), Bilinear, Clamp);
      AppendLevelNoDuplicates(prev.reallocated, i, u.reallocated, d.reallocated);
      Sizing(Pool(prev.pool.up[i := u.handle], prev.pool.down[i := d.handle]),
             prev.reallocated + (if u.reallocated then [Up(i)] else [])
                              + (if d.reallocated then [Down(i)] else []))
  }

  /** Sizing an already sized pool again, for the same base and depth,
      reallocates nothing and leaves the pool as it is. */
  lemma EnsureSizedIdempotent(pool: Pool, base: Desc, n: nat)
    requires pool.Valid() && n <= MaxPyramidSize
    ensures var once := EnsureSized(pool, base, n);
            EnsureSized(once.pool, base, n) == Sizing(once.pool, [])
  {
    var once := EnsureSized(pool, base, n);
    var twice := EnsureSized(once.pool, base, n);
    if twice.reallocated != [] {
      assert twice.reallocated[0] in twice.reallocated;
    }
    assert twice.pool.up == once.pool.up;
    assert twice.pool.down == once.pool.down;
  }
}
