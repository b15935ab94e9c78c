/** The vocabulary the application borrows from its windowing library (winit) and
    its GPU library (wgpu), reduced to the values the application's own logic
    inspects. Every foreign call the application makes is represented by an
    entry of an effect log (`Effect`) or by a counter on a small host object. */
module Platform {

  /** Rust's `u32`. */
  type uint32 = x: int | 0 <= x < 0x1_0000_0000

  datatype Option<T> = None | Some(value: T)

  /** winit's `PhysicalSize<u32>`. */
  datatype PhysicalSize = PhysicalSize(width: uint32, height: uint32)

  /** The surface texture formats a surface may report. The named ones are the
      usual presentable formats; every other format is `OtherFormat`, tagged
      with whether it is an sRGB format. */
  datatype TextureFormat =
    | Bgra8Unorm
    | Bgra8UnormSrgb
    | Rgba8Unorm
    | Rgba8UnormSrgb
    | Rgba16Float
    | Rgb10a2Unorm
    | OtherFormat(id: nat, srgb: bool)

  /** wgpu's `TextureFormat::is_srgb`. */
  predicate IsSrgb(f: TextureFormat)
  {
    match f
    case Bgra8UnormSrgb => true
    case Rgba8UnormSrgb => true
    case OtherFormat(_, srgb) => srgb
    case _ => false
  }

  datatype PresentMode = AutoVsync | AutoNoVsync | Fifo | FifoRelaxed | Immediate | Mailbox

  datatype CompositeAlphaMode = Auto | Opaque | PreMultiplied | PostMultiplied | Inherit

  datatype TextureUsages = RenderAttachment

  /** wgpu's `SurfaceConfiguration`. */
  datatype SurfaceConfiguration = SurfaceConfiguration(
    usage: TextureUsages,
    format: TextureFormat,
    width: uint32,
    height: uint32,
    presentMode: PresentMode,
    alphaMode: CompositeAlphaMode,
    viewFormats: seq<TextureFormat>,
    desiredMaximumFrameLatency: uint32)

  /** What `Surface::get_capabilities` reports for an adapter. */
  datatype SurfaceCapabilities = SurfaceCapabilities(
    formats: seq<TextureFormat>,
    presentModes: seq<PresentMode>,
    alphaModes: seq<CompositeAlphaMode>)

  /** The one device limit the application reads. */
  datatype Limits = Limits(maxTextureDimension2D: uint32)

  /** wgpu's `SurfaceError`. */
  datatype SurfaceError = Timeout | Outdated | Lost | OutOfMemory | Other

  /** The result of acquiring a frame and of `State::render`: the acquired
      texture itself is opaque, so success carries nothing. */
  datatype SurfaceResult = Ok | Err(error: SurfaceError)

  /** A clear colour, `wgpu::Color`; its channels are kept as exact decimals. */
  datatype Color = Color(r: real, g: real, b: real, a: real)

  /** One foreign call the controller makes on its window, surface, render
      pass or queue, in the order it makes them. */
  datatype Effect =
    | RequestRedraw
    | ConfigureSurface(config: SurfaceConfiguration)
    | AcquireTexture
    | BeginRenderPass(clear: Color)
    | SetPipeline
    | SetVertexBuffer(slot: nat)
    | Draw(firstVertex: nat, vertexEnd: nat, firstInstance: nat, instanceEnd: nat)
    | EndRenderPass
    | Submit
    | Present

  /** `e` occurs in `log` at position `k` and nowhere else. */
  predicate OnceAt(log: seq<Effect>, e: Effect, k: int)
  {
    0 <= k < |log| && log[k] == e &&
    forall i :: 0 <= i < |log| && i != k ==> log[i] != e
  }

  /** The configuration most recently applied to the surface, if any. */
  function LastConfiguration(log: seq<Effect>): Option<SurfaceConfiguration>
  {
    if log == [] then None
    else if log[|log| - 1].ConfigureSurface? then Some(log[|log| - 1].config)
    else LastConfiguration(log[..|log| - 1])
  }

  /** Effects that leave the surface configuration alone. */
  predicate NoConfiguration(log: seq<Effect>)
  {
    forall i :: 0 <= i < |log| ==> !log[i].ConfigureSurface?
  }

  /** Appending effects that do not configure the surface does not change
      which configuration was applied last. */
  lemma {:induction false} LastConfigurationAppend(log: seq<Effect>, more: seq<Effect>)
    requires NoConfiguration(more)
    ensures LastConfiguration(log + more) == LastConfiguration(log)
  {
    if more != [] {
      var init := more[..|more| - 1];
      var all := log + more;
      assert all[..|all| - 1] == log + init;
      assert !all[|all| - 1].ConfigureSurface? by {
        assert all[|all| - 1] == more[|more| - 1];
      }
      LastConfigurationAppend(log, init);
    } else {
      assert log + more == log;
    }
  }

  /** winit's key codes; only Escape matters to the application. */
  datatype KeyCode = Escape | OtherKey(id: nat)

  datatype PhysicalKey = Code(code: KeyCode) | Unidentified

  datatype ElementState = Pressed | Released

  /** The window events winit delivers; the ones the application does not
      look at are `OtherEvent`. */
  datatype WindowEvent =
    | CloseRequested
    | Resized(size: PhysicalSize)
    | RedrawRequested
    | KeyboardInput(physicalKey: PhysicalKey, state: ElementState)
    | OtherEvent

  /** A platform window. Its inner size belongs to the platform, which may
      change it between any two events. */
  class Window {
    var innerSize: PhysicalSize

    constructor (size: PhysicalSize)
      ensures innerSize == size
    {
      innerSize := size;
    }
  }

  /** winit's `ActiveEventLoop`, reduced to the two calls the application
      makes on it. */
  class EventLoop {
    var exitCalls: nat
    var windowsCreated: nat

    constructor ()
      ensures exitCalls == 0 && windowsCreated == 0
    {
      exitCalls, windowsCreated := 0, 0;
    }

    /** `ActiveEventLoop::exit`. */
    method Exit()
      modifies this
      ensures exitCalls == old(exitCalls) + 1 && windowsCreated == old(windowsCreated)
    {
      exitCalls := exitCalls + 1;
    }

    /** `ActiveEventLoop::create_window`, with the platform's choice of the
        window's initial size as a parameter. */
    method CreateWindow(size: PhysicalSize) returns (w: Window)
      modifies this
      ensures fresh(w) && w.innerSize == size
      ensures windowsCreated == old(windowsCreated) + 1 && exitCalls == old(exitCalls)
    {
      w := new Window(size);
      windowsCreated := windowsCreated + 1;
    }
  }
}
