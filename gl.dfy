/** The OpenGL surface manager of the winit backend: the choice of a
    framebuffer configuration, the OpenGL-then-GLES context fallback, and the
    window state that owns the GL window surface, the Skia surface drawn into
    the default framebuffer and the off-screen dirty surface beside it.

    glutin, GL and Skia are not modelled; the calls that matter to the
    contracts are entries of the `ops` log, and the values the window system
    reports (the window's inner size, the bound framebuffer) are parameters. */
module GlSurfaces {
  import opened Common

  /** The parts of a glutin framebuffer configuration the selection reads. */
  datatype Config = Config(transparency: Option<bool>, numSamples: u8, stencilSize: u8)

  /** `supports_transparency().unwrap_or(false)`. */
  predicate SupportsTransparency(c: Config)
  {
    c.transparency == Some(true)
  }

  /** One step of the `reduce` in `WinState::new`: the candidate replaces the
      accumulator when it brings transparency the accumulator lacks, or when
      it has fewer samples. */
  function Prefer(accum: Config, candidate: Config): (chosen: Config)
    ensures chosen == candidate || chosen == accum
    ensures (SupportsTransparency(candidate) && !SupportsTransparency(accum)) || candidate.numSamples < accum.numSamples
            ==> chosen == candidate
    ensures !((SupportsTransparency(candidate) && !SupportsTransparency(accum)) || candidate.numSamples < accum.numSamples)
            ==> chosen == accum
  {
    var transparencyCheck := SupportsTransparency(candidate) && !SupportsTransparency(accum);
    if transparencyCheck || candidate.numSamples < accum.numSamples then candidate else accum
  }

  /** `Iterator::reduce` from an accumulator over the remaining configs. */
  function Reduce(accum: Config, rest: seq<Config>): (chosen: Config)
    ensures chosen == accum || chosen in rest
    decreases |rest|
  {
    if rest == [] then accum else Reduce(Prefer(accum, rest[0]), rest[1..])
  }

  /** The configuration `new` selects; `None` is the case its `unwrap` panics on. */
  function SelectConfig(configs: seq<Config>): (r: Option<Config>)
    ensures r.Some? <==> |configs| > 0
  {
    if |configs| == 0 then None else Some(Reduce(configs[0], configs[1..]))
  }

  /** The selected configuration is one of those offered. */
  lemma SelectedConfigIsOffered(configs: seq<Config>)
    requires |configs| > 0
    ensures SelectConfig(configs).value in configs
  {
    assert configs == [configs[0]] + configs[1..];
  }

  lemma {:induction false} ReduceFewestSamples(accum: Config, rest: seq<Config>)
    requires forall i :: 0 <= i < |rest| ==> SupportsTransparency(rest[i]) == SupportsTransparency(accum)
    ensures Reduce(accum, rest).numSamples <= accum.numSamples
    ensures forall i :: 0 <= i < |rest| ==> Reduce(accum, rest).numSamples <= rest[i].numSamples
    ensures SupportsTransparency(Reduce(accum, rest)) == SupportsTransparency(accum)
    decreases |rest|
  {
    if rest != [] {
      var next := Prefer(accum, rest[0]);
      ReduceFewestSamples(next, rest[1..]);
      forall i | 0 <= i < |rest| ensures Reduce(accum, rest).numSamples <= rest[i].numSamples {
        if i > 0 { assert rest[i] == rest[1..][i - 1]; }
      }
    }
  }

  /** Among configurations that agree on transparency the selection takes
      one with the fewest samples (although the comment beside the fold
      speaks of the maximum). */
  lemma SelectedConfigHasFewestSamples(configs: seq<Config>)
    requires |configs| > 0
    requires forall i :: 0 <= i < |configs| ==> SupportsTransparency(configs[i]) == SupportsTransparency(configs[0])
    ensures forall i :: 0 <= i < |configs| ==> SelectConfig(configs).value.numSamples <= configs[i].numSamples
  {
    var rest := configs[1..];
    forall i | 0 <= i < |rest| ensures SupportsTransparency(rest[i]) == SupportsTransparency(configs[0]) {
      assert rest[i] == configs[i + 1];
    }
    ReduceFewestSamples(configs[0], rest);
    forall i | 0 <= i < |configs| ensures SelectConfig(configs).value.numSamples <= configs[i].numSamples {
      if i > 0 { assert configs[i] == rest[i - 1]; }
    }
  }

  /** A later config with fewer samples displaces a transparent accumulator,
      so the fold can end on an opaque config when a transparent one was offered. */
  lemma TransparencyCanBeDisplaced(t: Config, o: Config)
    requires SupportsTransparency(t) && !SupportsTransparency(o) && o.numSamples < t.numSamples
    ensures SelectConfig([t, o]) == Some(o)
  {
    assert [t, o][1..] == [o];
    assert [o][1..] == [];
  }

  datatype ContextApi = OpenGl | Gles

  /** `create_context` with the desktop OpenGL attributes, and only if that
      fails with the GLES ones: the API of the context made (`None` where
      `expect` panics) and the APIs tried, in order. */
  function CreateContext(openGlOk: bool, glesOk: bool): (r: (Option<ContextApi>, seq<ContextApi>))
    ensures |r.1| >= 1 && r.1[0] == OpenGl
    ensures Gles in r.1 <==> !openGlOk
    ensures r.0.Some? ==> r.0.value == r.1[|r.1| - 1]
    ensures r.0 == Some(OpenGl) <==> openGlOk
    ensures r.0 == Some(Gles) <==> !openGlOk && glesOk
  {
    if openGlOk then (Some(OpenGl), [OpenGl])
    else if glesOk then (Some(Gles), [OpenGl, Gles])
    else (None, [OpenGl, Gles])
  }

  /** The glutin window surface; its dimensions are `NonZeroU32`. */
  datatype WindowSurface = WindowSurface(width: u32, height: u32)

  /** The Skia surface wrapped around the default framebuffer. */
  datatype SkiaSurface = SkiaSurface(width: int, height: int, sampleCount: nat, stencilBits: nat, framebuffer: u32)

  /** The surface made by `new_surface_with_dimensions`. */
  datatype OffscreenSurface = OffscreenSurface(width: int, height: int)

  /** The calls into glutin and Skia the state makes, in order. The source never
      releases the context, but the vocabulary can say so. */
  datatype GlOp =
    | ContextRequested(api: ContextApi)
    | WindowSurfaceCreated(width: u32, height: u32)
    | ContextMadeCurrent
    | ContextMadeNotCurrent
    | SkiaContextCreated
    | FramebufferQueried
    | PrimarySurfaceCreated(surfaceWidth: int, surfaceHeight: int)
    | DirtySurfaceCreated(dirtyWidth: int, dirtyHeight: int)
    | WindowSurfaceResized(width: u32, height: u32)
    | ContextFlushed
    | BuffersSwapped

  datatype GlError = NoConfig | ContextCreationFailed

  /** One `create_context` call per API tried, in order. */
  function ContextRequests(tried: seq<ContextApi>): (requests: seq<GlOp>)
    ensures |requests| == |tried|
    ensures forall i :: 0 <= i < |tried| ==> requests[i] == ContextRequested(tried[i])
  {
    if tried == [] then [] else [ContextRequested(tried[0])] + ContextRequests(tried[1..])
  }

  /** Whether the context is current after a log of calls: the last
      make-current or release decides, and none means not current. */
  function IsCurrentAfter(ops: seq<GlOp>): bool
  {
    if ops == [] then false
    else if ops[|ops| - 1] == ContextMadeCurrent then true
    else if ops[|ops| - 1] == ContextMadeNotCurrent then false
    else IsCurrentAfter(ops[..|ops| - 1])
  }

  /** Calls that neither bind nor release the context keep its state. */
  lemma {:induction false} CurrentAfterNeutral(ops: seq<GlOp>, extra: seq<GlOp>)
    requires forall k :: 0 <= k < |extra| ==> extra[k] != ContextMadeCurrent && extra[k] != ContextMadeNotCurrent
    ensures IsCurrentAfter(ops + extra) == IsCurrentAfter(ops)
    decreases |extra|
  {
    if extra != [] {
      var shorter := extra[..|extra| - 1];
      assert (ops + extra)[..|ops + extra| - 1] == ops + shorter;
      CurrentAfterNeutral(ops, shorter);
    } else {
      assert ops + extra == ops;
    }
  }

  /** `create_surface`: a Skia surface over `framebuffer` at the window's
      reported inner size, with the configuration's samples and stencil. */
  function PrimarySurface(windowInnerSize: PhysicalSize, framebuffer: u32, config: Config): (s: SkiaSurface)
    requires windowInnerSize.width <= I32_MAX && windowInnerSize.height <= I32_MAX
    ensures s.width == windowInnerSize.width && s.height == windowInnerSize.height
    ensures s.sampleCount == config.numSamples && s.stencilBits == config.stencilSize && s.framebuffer == framebuffer
  {
    SkiaSurface(windowInnerSize.width, windowInnerSize.height, config.numSamples, config.stencilSize, framebuffer)
  }

  /** The dirty surface `resize` makes: `max(1)` of each dimension, cast to i32. */
  function ResizedDirtySurface(size: PhysicalSize): (d: OffscreenSurface)
    ensures size.width <= I32_MAX ==> d.width == AtLeastOne(size.width) >= 1
    ensures size.height <= I32_MAX ==> d.height == AtLeastOne(size.height) >= 1
    ensures size.width > I32_MAX ==> d.width < 0
    ensures size.height > I32_MAX ==> d.height < 0
  {
    OffscreenSurface(U32AsI32(AtLeastOne(size.width)), U32AsI32(AtLeastOne(size.height)))
  }

  /** The GL window surface for a size: `max(1)` of each dimension. */
  function ClampedWindowSurface(size: PhysicalSize): (w: WindowSurface)
    ensures w.width >= 1 && w.height >= 1
    ensures size.width >= 1 ==> w.width == size.width
    ensures size.height >= 1 ==> w.height == size.height
  {
    WindowSurface(AtLeastOne(size.width), AtLeastOne(size.height))
  }

  class WinState {
    const config: Config
    const api: ContextApi
    var glSurface: WindowSurface
    var surface: SkiaSurface
    var dirtySurface: OffscreenSurface
    var ops: seq<GlOp>

    ghost predicate Valid()
      reads this
    {
      && glSurface.width >= 1 && glSurface.height >= 1
      && surface.sampleCount == config.numSamples && surface.stencilBits == config.stencilSize
    }

    constructor (config: Config, api: ContextApi, glSurface: WindowSurface, surface: SkiaSurface, dirtySurface: OffscreenSurface,
                 log: seq<GlOp>)
      requires glSurface.width >= 1 && glSurface.height >= 1
      requires surface.sampleCount == config.numSamples && surface.stencilBits == config.stencilSize
      ensures Valid()
      ensures this.config == config && this.api == api
      ensures this.glSurface == glSurface && this.surface == surface && this.dirtySurface == dirtySurface
      ensures ops == log
    {
      this.config := config;
      this.api := api;
      this.glSurface := glSurface;
      this.surface := surface;
      this.dirtySurface := dirtySurface;
      this.ops := log;
    }

    /** `WinState::new`: select a configuration, create a context (OpenGL,
        else GLES), a window surface of at least 1×1, make the context
        current and build the Skia surfaces. The dirty surface takes the inner
        size as it is, without the `max(1)` clamp. */
    static method Open(configs: seq<Config>, openGlOk: bool, glesOk: bool, innerSize: PhysicalSize, framebuffer: u32)
      returns (r: Result<WinState, GlError>)
      requires innerSize.width <= I32_MAX && innerSize.height <= I32_MAX
      ensures r == Err(NoConfig) <==> |configs| == 0
      ensures r == Err(ContextCreationFailed) <==> |configs| > 0 && !openGlOk && !glesOk
      ensures r.Ok? ==>
        && fresh(r.value) && r.value.Valid()
        && r.value.config == SelectConfig(configs).value
        && r.value.api == CreateContext(openGlOk, glesOk).0.value
        && r.value.glSurface == ClampedWindowSurface(innerSize)
        && r.value.surface == PrimarySurface(innerSize, framebuffer, r.value.config)
        && r.value.dirtySurface == OffscreenSurface(innerSize.width, innerSize.height)
        && r.value.ops == ContextRequests(CreateContext(openGlOk, glesOk).1)
                          + [WindowSurfaceCreated(r.value.glSurface.width, r.value.glSurface.height),
                             ContextMadeCurrent, SkiaContextCreated, FramebufferQueried,
                             PrimarySurfaceCreated(r.value.surface.width, r.value.surface.height),
                             DirtySurfaceCreated(r.value.dirtySurface.width, r.value.dirtySurface.height)]
        && IsCurrentAfter(r.value.ops)
    {
      var selected := SelectConfig(configs);
      if selected.None? {
        return Err(NoConfig);
      }
      var config := selected.value;

      var (context, tried) := CreateContext(openGlOk, glesOk);
      if context.None? {
        return Err(ContextCreationFailed);
      }

      var glSurface := WindowSurface(AtLeastOne(innerSize.width), AtLeastOne(innerSize.height));
      var log := ContextRequests(tried) + [WindowSurfaceCreated(glSurface.width, glSurface.height), ContextMadeCurrent];
      var surface := PrimarySurface(innerSize, framebuffer, config);
      var dirtySurface := OffscreenSurface(U32AsI32(innerSize.width), U32AsI32(innerSize.height));
      var tail := [SkiaContextCreated, FramebufferQueried, PrimarySurfaceCreated(surface.width, surface.height),
                   DirtySurfaceCreated(dirtySurface.width, dirtySurface.height)];
      assert IsCurrentAfter(log);
      CurrentAfterNeutral(log, tail);
      var state := new WinState(config, context.value, glSurface, surface, dirtySurface, log + tail);
      return Ok(state);
    }

    method MakeCurrent()
      modifies this`ops
      ensures ops == old(ops) + [ContextMadeCurrent]
      ensures IsCurrentAfter(ops)
    {
      ops := ops + [ContextMadeCurrent];
    }

    /** `resize`: make the context current, refuse a zero dimension, and
        otherwise rebuild both Skia surfaces and resize the GL surface, even
        when the size is the one already in place. The primary surface follows
        the window's reported inner size, the dirty surface and the GL surface
        follow `size`. */
    method Resize(size: PhysicalSize, windowInnerSize: PhysicalSize, framebuffer: u32) returns (resized: bool)
      requires Valid()
      requires size.width != 0 && size.height != 0 ==>
                 windowInnerSize.width <= I32_MAX && windowInnerSize.height <= I32_MAX
      modifies this`glSurface, this`surface, this`dirtySurface, this`ops
      ensures Valid()
      ensures resized == (size.width != 0 && size.height != 0)
      ensures !resized ==>
        && glSurface == old(glSurface) && surface == old(surface) && dirtySurface == old(dirtySurface)
        && ops == old(ops) + [ContextMadeCurrent]
      ensures resized ==>
        && surface == PrimarySurface(windowInnerSize, framebuffer, config)
        && dirtySurface == ResizedDirtySurface(size)
        && glSurface == ClampedWindowSurface(size)
        && ops == old(ops) + [ContextMadeCurrent, FramebufferQueried,
                              PrimarySurfaceCreated(surface.width, surface.height),
                              DirtySurfaceCreated(dirtySurface.width, dirtySurface.height),
                              WindowSurfaceResized(glSurface.width, glSurface.height)]
      ensures IsCurrentAfter(ops)
    {
      MakeCurrent();
      var (width, height) := (size.width, size.height);

      if width == 0 || height == 0 {
        return false;
      }

      surface := PrimarySurface(windowInnerSize, framebuffer, config);
      dirtySurface := OffscreenSurface(U32AsI32(AtLeastOne(width)), U32AsI32(AtLeastOne(height)));
      glSurface := WindowSurface(AtLeastOne(width), AtLeastOne(height));

      var rebuild := [FramebufferQueried, PrimarySurfaceCreated(surface.width, surface.height),
                      DirtySurfaceCreated(dirtySurface.width, dirtySurface.height),
                      WindowSurfaceResized(glSurface.width, glSurface.height)];
      CurrentAfterNeutral(ops, rebuild);
      ops := ops + rebuild;

      return true;
    }

    /** `surfaces_mut`: always the primary surface, then the dirty one. */
    function SurfacesMut(): (pair: Option<(SkiaSurface, OffscreenSurface)>)
      reads this
      ensures pair.Some? && pair.value.0 == surface && pair.value.1 == dirtySurface
    {
      Some((surface, dirtySurface))
    }

    /** `swap_buffers`: flush Skia and swap the GL surface; the dirty
        rectangle plays no part. */
    method SwapBuffers(dirtyRect: BoundingBox)
      modifies this`ops
      ensures ops == old(ops) + [ContextFlushed, BuffersSwapped]
      ensures IsCurrentAfter(ops) == old(IsCurrentAfter(ops))
    {
      CurrentAfterNeutral(ops, [ContextFlushed, BuffersSwapped]);
      ops := ops + [ContextFlushed, BuffersSwapped];
    }
  }

  /** Resizing twice to the same size rebuilds the surfaces both times: the
      OpenGL `resize` has no unchanged-size early return. */
  method RepeatedResizeRebuilds(state: WinState, size: PhysicalSize, windowInnerSize: PhysicalSize, framebuffer: u32)
    requires state.Valid()
    requires size.width != 0 && size.height != 0
    requires windowInnerSize.width <= I32_MAX && windowInnerSize.height <= I32_MAX
    modifies state
    ensures state.Valid()
    ensures var rebuild := [ContextMadeCurrent, FramebufferQueried,
                            PrimarySurfaceCreated(windowInnerSize.width, windowInnerSize.height),
                            DirtySurfaceCreated(ResizedDirtySurface(size).width, ResizedDirtySurface(size).height),
                            WindowSurfaceResized(AtLeastOne(size.width), AtLeastOne(size.height))];
      state.ops == old(state.ops) + rebuild + rebuild
  {
    var first := state.Resize(size, windowInnerSize, framebuffer);
    var second := state.Resize(size, windowInnerSize, framebuffer);
    assert first && second;
  }
}
