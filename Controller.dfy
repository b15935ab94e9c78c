/** The render surface controller, `State`: it owns the surface configuration,
    the device limit and the surface-readiness flag, and turns `resize` and
    `render` requests into calls on the surface, the render pass and the queue.
    The pure functions first say what one call does; the class then performs
    the calls step by step and is proved against them. */
module Controller {
  import opened Platform
  import opened SurfaceFormat
  import opened VertexLayout

  /** `u32::min`. */
  function Min(a: uint32, b: uint32): (m: uint32)
    ensures m <= a && m <= b
    ensures m == a || m == b
  {
    if a <= b then a else b
  }

  /** A size `resize` ignores. */
  predicate Degenerate(size: PhysicalSize)
  {
    size.width == 0 || size.height == 0
  }

  /** Both dimensions fit the device limit, and neither is zero unless the
      limit itself is. */
  predicate InBounds(config: SurfaceConfiguration, limit: uint32)
  {
    config.width <= limit && config.height <= limit &&
    (limit > 0 ==> config.width >= 1 && config.height >= 1)
  }

  /** The configuration `resize` applies to the surface, or `None` when it
      returns early. Each dimension is the requested one when that fits the
      limit and the limit otherwise; nothing but the two dimensions changes. */
  function Resized(config: SurfaceConfiguration, size: PhysicalSize, limit: uint32): (r: Option<SurfaceConfiguration>)
    ensures r.None? <==> Degenerate(size)
    ensures r.Some? ==> InBounds(r.value, limit)
    ensures r.Some? ==> r.value.width == (if size.width <= limit then size.width else limit)
    ensures r.Some? ==> r.value.height == (if size.height <= limit then size.height else limit)
    ensures r.Some? ==> r.value.(width := config.width, height := config.height) == config
  {
    if size.width == 0 || size.height == 0 then None
    else Some(config.(width := Min(size.width, limit), height := Min(size.height, limit)))
  }

  /** The part of the controller that `resize` reads and writes. */
  datatype SurfaceState = SurfaceState(config: SurfaceConfiguration, configured: bool)

  /** One `resize` call on the stored configuration and the readiness flag:
      a degenerate size changes nothing; any other size stores the clamped
      dimensions and sets the flag. The flag is never cleared. */
  function ResizeStep(s: SurfaceState, size: PhysicalSize, limit: uint32): (t: SurfaceState)
    ensures Degenerate(size) ==> t == s
    ensures !Degenerate(size) ==> t.configured && InBounds(t.config, limit)
    ensures !Degenerate(size) ==>
      t.config.width == Min(size.width, limit) && t.config.height == Min(size.height, limit)
    ensures s.configured ==> t.configured
    ensures t.config.(width := s.config.width, height := s.config.height) == s.config
  {
    match Resized(s.config, size, limit)
    case None => s
    case Some(c) => SurfaceState(c, true)
  }

  /** The surface calls `resize` makes: one reconfiguration with the new
      configuration, or none when it returns early. */
  function ResizeEffects(config: SurfaceConfiguration, size: PhysicalSize, limit: uint32): (t: seq<Effect>)
    ensures Degenerate(size) ==> t == []
    ensures !Degenerate(size) ==> |t| == 1 && t[0].ConfigureSurface? && InBounds(t[0].config, limit)
    ensures LastConfiguration(t) == Resized(config, size, limit)
  {
    match Resized(config, size, limit)
    case None => []
    case Some(c) => [ConfigureSurface(c)]
  }

  /** A series of `resize` calls, applied in order. */
  function ResizeAll(s: SurfaceState, sizes: seq<PhysicalSize>, limit: uint32): SurfaceState
  {
    if sizes == [] then s
    else ResizeStep(ResizeAll(s, sizes[..|sizes| - 1], limit), sizes[|sizes| - 1], limit)
  }

  /** `k` is the last size in `sizes` that `resize` does not ignore. */
  predicate LastEffective(sizes: seq<PhysicalSize>, k: int)
  {
    0 <= k < |sizes| && !Degenerate(sizes[k]) &&
    forall j :: k < j < |sizes| ==> Degenerate(sizes[j])
  }

  /** After a series of `resize` calls the surface is configured exactly when
      it was before or one of the sizes was non-degenerate; the stored
      dimensions are those of the last non-degenerate size, clamped, and every
      other field of the configuration is untouched. */
  lemma {:induction false} ResizeAllEffect(s: SurfaceState, sizes: seq<PhysicalSize>, limit: uint32)
    ensures ResizeAll(s, sizes, limit).configured <==>
      s.configured || exists i :: 0 <= i < |sizes| && !Degenerate(sizes[i])
    ensures ResizeAll(s, sizes, limit).config.(width := s.config.width, height := s.config.height) == s.config
    ensures forall k :: LastEffective(sizes, k) ==>
      ResizeAll(s, sizes, limit).config.width == Min(sizes[k].width, limit) &&
      ResizeAll(s, sizes, limit).config.height == Min(sizes[k].height, limit)
    ensures (forall i :: 0 <= i < |sizes| ==> Degenerate(sizes[i])) ==> ResizeAll(s, sizes, limit) == s
  {
    if sizes != [] {
      var init := sizes[..|sizes| - 1];
      var last := sizes[|sizes| - 1];
      ResizeAllEffect(s, init, limit);
      assert forall i :: 0 <= i < |init| ==> init[i] == sizes[i];
      forall k | LastEffective(sizes, k)
        ensures ResizeAll(s, sizes, limit).config.width == Min(sizes[k].width, limit)
        ensures ResizeAll(s, sizes, limit).config.height == Min(sizes[k].height, limit)
      {
        if k < |sizes| - 1 {
          assert Degenerate(last);
          assert LastEffective(init, k);
        }
      }
    }
  }

  /** The background colour every frame is cleared to. */
  const CLEAR_COLOR: Color := Color(0.1, 0.2, 0.3, 1.0)

  /** `draw(0..VERTICES.len(), 0..1)`: the whole triangle, one instance. */
  const TRIANGLE_DRAW: Effect := Draw(0, |VERTICES|, 0, 1)

  /** The commands one frame's render pass records. */
  const RENDER_PASS: seq<Effect> :=
    [BeginRenderPass(CLEAR_COLOR), SetPipeline, SetVertexBuffer(0), TRIANGLE_DRAW, EndRenderPass]

  /** The calls of a render whose texture was acquired. */
  const FRAME: seq<Effect> := [RequestRedraw, AcquireTexture] + RENDER_PASS + [Submit, Present]

  /** The calls one `render` makes: a redraw request always comes first, an
      unconfigured surface is not touched, and the surface is never
      reconfigured. What a configured surface sees is stated by the two
      lemmas below. */
  function RenderTrace(configured: bool, acquire: SurfaceResult): (t: seq<Effect>)
    ensures |t| >= 1 && t[0] == RequestRedraw
    ensures !configured ==> t == [RequestRedraw]
    ensures NoConfiguration(t)
  {
    if !configured then [RequestRedraw]
    else if acquire.Err? then [RequestRedraw, AcquireTexture]
    else FRAME
  }

  /** A render that finds the surface unconfigured requests a redraw and
      nothing else: no texture is acquired, nothing is drawn, submitted or
      presented. */
  lemma RenderUnconfigured(acquire: SurfaceResult)
    ensures var t := RenderTrace(false, acquire);
      && OnceAt(t, RequestRedraw, 0)
      && AcquireTexture !in t && Submit !in t && Present !in t
      && forall i :: 0 <= i < |t| ==> !t[i].Draw?
  {
    assert RenderTrace(false, acquire) == [RequestRedraw];
  }

  /** When the texture cannot be acquired, the render requests a redraw, then
      the texture once, and stops: no render pass is begun, and nothing is
      drawn, submitted or presented. */
  lemma RenderAcquireFailed(e: SurfaceError)
    ensures var t := RenderTrace(true, Err(e));
      && t == [RequestRedraw, AcquireTexture]
      && OnceAt(t, RequestRedraw, 0) && OnceAt(t, AcquireTexture, 1)
      && Submit !in t && Present !in t
      && forall i :: 0 <= i < |t| ==> !t[i].Draw?
  {
    assert RenderTrace(true, Err(e)) == [RequestRedraw, AcquireTexture];
  }

  /** When the texture is acquired, each step of the frame happens exactly
      once and in this order: redraw request, acquisition, a render pass that
      clears to the background colour, the draw, the end of the pass, the
      submission, the presentation. The only draw is the whole triangle,
      three vertices and one instance. */
  lemma RenderFrame()
    ensures var t := RenderTrace(true, Ok);
      && (exists r, a, b, d, e, s, p ::
            r < a < b < d < e < s < p &&
            OnceAt(t, RequestRedraw, r) && OnceAt(t, AcquireTexture, a) &&
            OnceAt(t, BeginRenderPass(CLEAR_COLOR), b) && OnceAt(t, Draw(0, 3, 0, 1), d) &&
            OnceAt(t, EndRenderPass, e) && OnceAt(t, Submit, s) && OnceAt(t, Present, p))
      && (forall i :: 0 <= i < |t| && t[i].Draw? ==> t[i] == Draw(0, 3, 0, 1))
  {
    var t := RenderTrace(true, Ok);
    assert t == [RequestRedraw, AcquireTexture, BeginRenderPass(CLEAR_COLOR), SetPipeline, SetVertexBuffer(0),
                 TRIANGLE_DRAW, EndRenderPass, Submit, Present];
    assert TRIANGLE_DRAW == Draw(0, 3, 0, 1);
    assert OnceAt(t, RequestRedraw, 0) && OnceAt(t, AcquireTexture, 1);
    assert OnceAt(t, BeginRenderPass(CLEAR_COLOR), 2) && OnceAt(t, Draw(0, 3, 0, 1), 5);
    assert OnceAt(t, EndRenderPass, 6) && OnceAt(t, Submit, 7) && OnceAt(t, Present, 8);
  }

  /** A controller entry point the dispatcher invoked. */
  datatype Call = ResizeCall(size: PhysicalSize) | RenderCall

  /** What one controller call does: the surface state after it and the
      foreign calls it makes. A render gets the answer `acquire` to its
      texture request. */
  function CallEffect(s: SurfaceState, call: Call, acquire: SurfaceResult, limit: uint32): (SurfaceState, seq<Effect>)
  {
    match call
    case ResizeCall(size) => (ResizeStep(s, size, limit), ResizeEffects(s.config, size, limit))
    case RenderCall => (s, RenderTrace(s.configured, acquire))
  }

  /** What a series of controller calls does, in order. Every render in the
      series gets the same answer `acquire`. */
  function Perform(s: SurfaceState, calls: seq<Call>, acquire: SurfaceResult, limit: uint32): (SurfaceState, seq<Effect>)
    decreases calls
  {
    if calls == [] then (s, [])
    else
      var first := CallEffect(s, calls[0], acquire, limit);
      var rest := Perform(first.0, calls[1..], acquire, limit);
      (rest.0, first.1 + rest.1)
  }

  /** `Perform` on the call series the dispatcher makes. */
  lemma PerformUnfold(s: SurfaceState, size: PhysicalSize, acquire: SurfaceResult, limit: uint32)
    ensures Perform(s, [], acquire, limit) == (s, [])
    ensures Perform(s, [ResizeCall(size)], acquire, limit) ==
      (ResizeStep(s, size, limit), ResizeEffects(s.config, size, limit))
    ensures Perform(s, [RenderCall], acquire, limit) == (s, RenderTrace(s.configured, acquire))
    ensures Perform(s, [RenderCall, ResizeCall(size)], acquire, limit) ==
      (ResizeStep(s, size, limit), RenderTrace(s.configured, acquire) + ResizeEffects(s.config, size, limit))
  {
    assert [RenderCall, ResizeCall(size)][1..] == [ResizeCall(size)];
    assert [ResizeCall(size)][1..] == [] && [RenderCall][1..] == [];
    assert ResizeEffects(s.config, size, limit) + [] == ResizeEffects(s.config, size, limit);
    assert RenderTrace(s.configured, acquire) + [] == RenderTrace(s.configured, acquire);
  }

  /** Whatever the dispatcher calls, the readiness flag is never cleared, only
      the two dimensions of the configuration ever change, and a configured
      surface keeps dimensions within bounds. */
  lemma {:induction false} PerformKeepsReadiness(s: SurfaceState, calls: seq<Call>, acquire: SurfaceResult, limit: uint32)
    ensures var t := Perform(s, calls, acquire, limit).0;
      && (s.configured ==> t.configured)
      && t.config.(width := s.config.width, height := s.config.height) == s.config
      && (s.configured && InBounds(s.config, limit) ==> InBounds(t.config, limit))
      && (!s.configured && t.configured ==> InBounds(t.config, limit))
    decreases calls
  {
    if calls != [] {
      PerformKeepsReadiness(CallEffect(s, calls[0], acquire, limit).0, calls[1..], acquire, limit);
    }
  }

  /** A series made only of `resize` calls does what `ResizeAll` says. */
  lemma {:induction false} PerformResizes(s: SurfaceState, sizes: seq<PhysicalSize>, acquire: SurfaceResult, limit: uint32)
    ensures Perform(s, seq(|sizes|, i requires 0 <= i < |sizes| => ResizeCall(sizes[i])), acquire, limit).0 ==
      ResizeAll(s, sizes, limit)
  {
    var calls := seq(|sizes|, i requires 0 <= i < |sizes| => ResizeCall(sizes[i]));
    if sizes != [] {
      var init := sizes[..|sizes| - 1];
      var last := sizes[|sizes| - 1];
      PerformResizes(s, init, acquire, limit);
      PerformSplit(s, seq(|init|, i requires 0 <= i < |init| => ResizeCall(init[i])), [ResizeCall(last)], acquire, limit);
      assert calls == seq(|init|, i requires 0 <= i < |init| => ResizeCall(init[i])) + [ResizeCall(last)];
      PerformUnfold(ResizeAll(s, init, limit), last, acquire, limit);
    }
  }

  /** Performing two series one after the other is performing their
      concatenation. */
  lemma {:induction false} PerformSplit(s: SurfaceState, a: seq<Call>, b: seq<Call>, acquire: SurfaceResult, limit: uint32)
    ensures var (mid, first) := Perform(s, a, acquire, limit);
      var (after, second) := Perform(mid, b, acquire, limit);
      Perform(s, a + b, acquire, limit) == (after, first + second)
    decreases a
  {
    if a == [] {
      assert a + b == b;
      assert [] + Perform(s, b, acquire, limit).1 == Perform(s, b, acquire, limit).1;
    } else {
      assert (a + b)[0] == a[0] && (a + b)[1..] == a[1..] + b;
      var head := CallEffect(s, a[0], acquire, limit);
      PerformSplit(head.0, a[1..], b, acquire, limit);
      var tail := Perform(head.0, a[1..], acquire, limit);
      var second := Perform(tail.0, b, acquire, limit).1;
      assert head.1 + (tail.1 + second) == (head.1 + tail.1) + second;
    }
  }

  /** The compiled render pipeline, reduced to what it was built from: the
      vertex buffer layout and the colour target's format. */
  datatype RenderPipeline = RenderPipeline(vertexLayout: VertexBufferLayout, targetFormat: TextureFormat)

  class State {
    const window: Window
    const limits: Limits
    const renderPipeline: RenderPipeline
    /** The contents uploaded to the vertex buffer. */
    const vertexBuffer: seq<Vertex>
    var config: SurfaceConfiguration
    var isSurfaceConfigured: bool
    /** Every call made on the window, the surface and the queue, in order. */
    var log: seq<Effect>
    /** Every `resize` and `render` call made on this controller, in order. */
    ghost var calls: seq<Call>

    /** The surface carries the stored configuration exactly when the flag is
        set, it was never configured with a zero or oversized dimension, and
        the pipeline's target format is the surface format. */
    ghost predicate Valid()
      reads this
    {
      && LastConfiguration(log) == (if isSurfaceConfigured then Some(config) else None)
      && (forall i :: 0 <= i < |log| && log[i].ConfigureSurface? ==>
            InBounds(log[i].config, limits.maxTextureDimension2D))
      && renderPipeline.targetFormat == config.format
      && renderPipeline.vertexLayout == Desc()
      && vertexBuffer == VERTICES
    }

    /** `State::new` once the adapter and device have been negotiated: the
        initial configuration takes the window's current size, the chosen
        surface format and the first present and alpha modes, and the surface
        is left unconfigured. */
    constructor (window: Window, caps: SurfaceCapabilities, limits: Limits)
      requires |caps.formats| > 0 && |caps.presentModes| > 0 && |caps.alphaModes| > 0
      ensures Valid()
      ensures this.window == window && this.limits == limits
      ensures config == SurfaceConfiguration(
        RenderAttachment, ChooseSurfaceFormat(caps.formats),
        window.innerSize.width, window.innerSize.height,
        caps.presentModes[0], caps.alphaModes[0], [], 2)
      ensures !isSurfaceConfigured && log == [] && calls == []
      ensures renderPipeline == RenderPipeline(Desc(), ChooseSurfaceFormat(caps.formats))
    {
      var format := ChooseSurfaceFormat(caps.formats);
      this.window := window;
      this.limits := limits;
      vertexBuffer := VERTICES;
      renderPipeline := RenderPipeline(Desc(), format);
      config := SurfaceConfiguration(
        RenderAttachment, format, window.innerSize.width, window.innerSize.height,
        caps.presentModes[0], caps.alphaModes[0], [], 2);
      isSurfaceConfigured := false;
      log := [];
      calls := [];
    }

    /** `State::resize`. */
    method Resize(newSize: PhysicalSize)
      requires Valid()
      modifies this
      ensures Valid()
      ensures SurfaceState(config, isSurfaceConfigured) ==
        ResizeStep(SurfaceState(old(config), old(isSurfaceConfigured)), newSize, limits.maxTextureDimension2D)
      ensures log == old(log) + ResizeEffects(old(config), newSize, limits.maxTextureDimension2D)
      ensures calls == old(calls) + [ResizeCall(newSize)]
    {
      calls := calls + [ResizeCall(newSize)];
      if newSize.width == 0 || newSize.height == 0 { return; }
      config := config.(width := Min(newSize.width, limits.maxTextureDimension2D));
      config := config.(height := Min(newSize.height, limits.maxTextureDimension2D));
      log := log + [ConfigureSurface(config)];
      isSurfaceConfigured := true;
    }

    /** One foreign call that leaves the surface configuration alone. */
    method Emit(e: Effect)
      requires Valid() && !e.ConfigureSurface?
      modifies this
      ensures Valid() && log == old(log) + [e]
      ensures config == old(config) && isSurfaceConfigured == old(isSurfaceConfigured) && calls == old(calls)
    {
      LastConfigurationAppend(log, [e]);
      log := log + [e];
    }

    /** `State::render`, with the surface's answer to the texture request as
        a parameter. */
    method Render(acquire: SurfaceResult) returns (r: SurfaceResult)
      requires Valid()
      modifies this
      ensures Valid()
      ensures config == old(config) && isSurfaceConfigured == old(isSurfaceConfigured)
      ensures r == (if old(isSurfaceConfigured) then acquire else Ok)
      ensures log == old(log) + RenderTrace(old(isSurfaceConfigured), acquire)
      ensures calls == old(calls) + [RenderCall]
    {
      calls := calls + [RenderCall];
      Emit(RequestRedraw);
      if !isSurfaceConfigured { return Ok; }
      Emit(AcquireTexture);
      if acquire.Err? { return acquire; }
      RecordRenderPass();
      Emit(Submit);
      Emit(Present);
      assert log == old(log) + FRAME;
      r := Ok;
    }

    /** The render pass of `State::render`: clear the acquired texture to the
        background colour, bind the pipeline and the vertex buffer, draw the
        triangle, and end the pass. */
    method RecordRenderPass()
      requires Valid()
      modifies this
      ensures Valid() && log == old(log) + RENDER_PASS
      ensures config == old(config) && isSurfaceConfigured == old(isSurfaceConfigured) && calls == old(calls)
    {
      Emit(BeginRenderPass(CLEAR_COLOR));
      Emit(SetPipeline);
      Emit(SetVertexBuffer(0));
      Emit(Draw(0, |VERTICES|, 0, 1));
      Emit(EndRenderPass);
    }
  }
}
