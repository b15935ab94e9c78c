/** Runs of the application through the modelled interfaces, proved from the
    contracts of `State` and `App` and the lemma `PerformUnfold`. Each returns what an observer of the
    surface and the event loop would see. */
module Scenarios {
  import opened Platform
  import opened SurfaceFormat
  import opened Controller
  import opened Dispatcher

  /** An adapter whose surface offers a linear and an sRGB format. */
  const CAPS: SurfaceCapabilities := SurfaceCapabilities([Bgra8Unorm, Bgra8UnormSrgb], [Fifo, Mailbox], [Opaque])

  const LIMITS: Limits := Limits(8192)

  /** A window that starts at 0×0: resizing to 0×0 leaves the surface
      unconfigured, resizing to 800×600 configures it with exactly that size
      and the sRGB format, and the next render draws and presents one frame. */
  method FirstFrame() returns (configuredAtZero: bool, width: uint32, height: uint32, format: TextureFormat,
                               configured: bool, result: SurfaceResult, frame: seq<Effect>)
    ensures !configuredAtZero
    ensures width == 800 && height == 600 && format == Bgra8UnormSrgb && configured
    ensures result == Ok
    ensures frame == RenderTrace(true, Ok)
  {
    var window := new Window(PhysicalSize(0, 0));
    var st := new State(window, CAPS, LIMITS);
    assert FirstSrgbAt(CAPS.formats, 1);
    st.Resize(PhysicalSize(0, 0));
    configuredAtZero := st.isSurfaceConfigured;
    st.Resize(PhysicalSize(800, 600));
    width, height, format, configured := st.config.width, st.config.height, st.config.format, st.isSurfaceConfigured;
    var before := st.log;
    result := st.Render(Ok);
    frame := st.log[|before|..];
  }

  /** A native application resumed with a 640×480 window: its controller is
      in the slot, not yet configured. */
  method NativeApp(eventLoop: EventLoop) returns (app: App)
    modifies eventLoop
    ensures fresh(app) && app.Valid() && !app.web
    ensures app.state.Some? && fresh(app.state.value) && fresh(app.state.value.window)
    ensures !app.state.value.isSurfaceConfigured
    ensures app.state.value.window.innerSize == PhysicalSize(640, 480)
    ensures app.state.value.limits == LIMITS
    ensures eventLoop.exitCalls == old(eventLoop.exitCalls)
  {
    app := new App(false);
    var _ := app.Resumed(eventLoop, PhysicalSize(640, 480), CAPS, LIMITS);
  }

  /** Pressing Escape signals exit once. */
  method EscapePress() returns (exits: nat)
    ensures exits == 1
  {
    var eventLoop := new EventLoop();
    var app := NativeApp(eventLoop);
    app.HandleWindowEvent(eventLoop, KeyboardInput(Code(Escape), Pressed), Ok);
    exits := eventLoop.exitCalls;
  }

  /** Releasing Escape, or pressing another key, does not signal exit. */
  method EscapeRelease() returns (exits: nat)
    ensures exits == 0
  {
    var eventLoop := new EventLoop();
    var app := NativeApp(eventLoop);
    app.HandleWindowEvent(eventLoop, KeyboardInput(Code(Escape), Released), Ok);
    app.HandleWindowEvent(eventLoop, KeyboardInput(Code(OtherKey(30)), Pressed), Ok);
    exits := eventLoop.exitCalls;
  }

  /** A close request signals exit even before the surface is configured. */
  method CloseBeforeConfigured() returns (exits: nat)
    ensures exits == 1
  {
    var eventLoop := new EventLoop();
    var app := NativeApp(eventLoop);
    app.HandleWindowEvent(eventLoop, CloseRequested, Ok);
    exits := eventLoop.exitCalls;
  }

  /** While the browser build waits for its controller, neither a close
      request nor Escape signals exit. */
  method CloseWhileEmpty() returns (exits: nat)
    ensures exits == 0
  {
    var app := new App(true);
    var eventLoop := new EventLoop();
    var _ := app.Resumed(eventLoop, PhysicalSize(640, 480), CAPS, LIMITS);
    app.HandleWindowEvent(eventLoop, CloseRequested, Ok);
    app.HandleWindowEvent(eventLoop, KeyboardInput(Code(Escape), Pressed), Ok);
    exits := eventLoop.exitCalls;
  }

  /** A native application whose surface has been configured at 640×480 by
      a resize event. */
  method ConfiguredApp(eventLoop: EventLoop) returns (app: App)
    modifies eventLoop
    ensures fresh(app) && app.Valid() && !app.web
    ensures app.state.Some? && fresh(app.state.value) && fresh(app.state.value.window)
    ensures app.state.value.isSurfaceConfigured
    ensures app.state.value.config.width == 640 && app.state.value.config.height == 480
    ensures app.state.value.limits == LIMITS
  {
    app := NativeApp(eventLoop);
    var st := app.state.value;
    PerformUnfold(SurfaceState(st.config, st.isSurfaceConfigured), PhysicalSize(640, 480), Ok, 8192);
    app.HandleWindowEvent(eventLoop, Resized(PhysicalSize(640, 480)), Ok);
  }

  /** The window grows from 640×480 to 1024×768 behind the application's
      back; the next frame finds the surface outdated, and the dispatcher
      reconfigures it to the window's new size. */
  method OutdatedRecovery() returns (width: uint32, height: uint32)
    ensures width == 1024 && height == 768
  {
    var eventLoop := new EventLoop();
    var app := ConfiguredApp(eventLoop);
    var st := app.state.value;
    st.window.innerSize := PhysicalSize(1024, 768);
    PerformUnfold(SurfaceState(st.config, st.isSurfaceConfigured), st.window.innerSize, Err(Outdated), 8192);
    app.HandleWindowEvent(eventLoop, RedrawRequested, Err(Outdated));
    width, height := st.config.width, st.config.height;
  }

  /** A frame that times out is skipped without reconfiguring the surface. */
  method TimeoutSkipsFrame() returns (width: uint32, height: uint32)
    ensures width == 640 && height == 480
  {
    var eventLoop := new EventLoop();
    var app := ConfiguredApp(eventLoop);
    var st := app.state.value;
    st.window.innerSize := PhysicalSize(1024, 768);
    PerformUnfold(SurfaceState(st.config, st.isSurfaceConfigured), st.window.innerSize, Err(Timeout), 8192);
    app.HandleWindowEvent(eventLoop, RedrawRequested, Err(Timeout));
    width, height := st.config.width, st.config.height;
  }

  /** In the browser build a second `resumed` starts no second construction,
      and a controller delivered by the background construction arrives configured
      to its window's current size, clamped to the device limit. */
  method BrowserStartup() returns (spawned: nat, configured: bool, width: uint32, height: uint32)
    ensures spawned == 1
    ensures configured && width == 8192 && height == 600
  {
    var app := new App(true);
    var eventLoop := new EventLoop();
    var window := app.Resumed(eventLoop, PhysicalSize(10000, 600), CAPS, LIMITS);
    var _ := app.Resumed(eventLoop, PhysicalSize(10000, 600), CAPS, LIMITS);
    spawned := app.constructionsSpawned;
    var built := new State(window, CAPS, LIMITS);
    app.UserEvent(built);
    configured := built.isSurfaceConfigured;
    width, height := built.config.width, built.config.height;
  }
}
