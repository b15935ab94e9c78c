# wgpu triangle application: surface lifecycle and event dispatch

`src/lib.rs` of this repository is a small native/browser application. It
opens a window, binds a GPU surface to it and draws one coloured triangle
per frame. Everything it does beyond calling its two libraries (winit for
windows and events, wgpu for the GPU) lives in two objects:

- **`State`**, the render surface controller. It holds the surface
  configuration, the device's largest texture dimension and a
  surface-readiness flag. `resize` stores a new size, clamped to the device
  limit, and reconfigures the surface. `render` records and presents one
  frame, but only once the surface has been configured.
- **`App`**, the event dispatcher. It holds the controller slot. It creates
  the window when the platform resumes the application and routes window
  events to the controller. A close request or an Escape press ends the
  event loop. A lost or outdated surface is repaired by resizing it to the
  window's current size. In the browser build the controller is built by
  a spawned future. `resumed` spawns it at most once, and the
  finished controller arrives as a user event.

The model has one Dafny module per concern:

- `Platform` holds the library vocabulary: sizes, texture formats, surface
  errors, window events, and the `Window` and `EventLoop` host objects. It
  also defines `Effect`, one entry per foreign call the controller makes.
- `SurfaceFormat` picks the surface format.
- `VertexLayout` holds the vertex type, the three vertices and the vertex
  buffer layout.
- `Controller` holds the class `State` and the pure functions it is proved
  against. `ResizeStep`/`ResizeEffects` say what one `resize` does.
  `RenderTrace` says what one `render` does. `Perform` says what a series of
  controller calls does.
- `Dispatcher` holds the class `App`, the function `Dispatched` (which
  controller calls a window event leads to) and the predicate `SignalsExit`
  (which events end the loop).
- `Scenarios` runs the application through these interfaces: the first
  frame, exit, recovery from an outdated surface, and browser start-up.

Every foreign call the controller makes is appended to `State.log`: surface
configuration, texture acquisition, render-pass commands, submission,
presentation and redraw requests. `State.Valid()` ties that log to the
controller's fields: the last configuration applied to the surface is the
stored one exactly when the readiness flag is set, and every configuration
ever applied fits the device limit. The browser build (`target_arch =
"wasm32"`) is the constant `App.web`. Its `Option<EventLoopProxy>` is the
flag `App.proxy`, and the background constructions it starts are counted in
`App.constructionsSpawned`.

Four points of the code's behaviour that the model keeps as written:

- `resize` only rejects a zero dimension; it does not clamp the lower bound
  to 1. So the stored dimensions are at least 1 only when the device limit
  is at least 1, and `InBounds` states it that way.
- There is no canvas-size snapshot around the surface reconfiguration. The
  code has only a comment warning about CSS sizing.
- A close request is ignored while the controller slot is empty, for example
  while the browser build waits for its controller: `window_event` returns
  before looking at the event. `Scenarios.CloseWhileEmpty` shows it.
- The native build's `resumed` builds a fresh controller each time it is
  called and replaces the one in the slot.

## Model

| member | source | states |
|---|---|---|
| SurfaceFormat.FindSrgb | src/lib.rs:109 | finds no format exactly when no format is sRGB; otherwise finds the first sRGB format in the list |
| SurfaceFormat.ChooseSurfaceFormat | src/lib.rs:109 | the chosen format is one of the reported formats. It is the first sRGB one if any exists, and otherwise the first format. It is sRGB exactly when some reported format is |
| VertexLayout.Desc | src/lib.rs:36-56 | the layout steps per vertex with a stride of one whole `Vertex` (24 bytes). Its two attributes are position at location 0 and offset 0, and colour at location 1 and offset 12, each three `f32`. Each attribute lies within the stride, the two do not overlap, and their locations differ |
| Controller.Min | src/lib.rs:201-202 | `u32::min`: the result is one of the two arguments and no larger than either |
| Controller.Resized | src/lib.rs:199-206 | no configuration is applied exactly when a dimension is zero. Otherwise each dimension is the requested one if it fits the limit, else the limit; the result is within bounds and every other configuration field is unchanged |
| Controller.ResizeStep | src/lib.rs:199-206 | a degenerate size changes nothing. Any other size sets the readiness flag and stores each dimension as the minimum of the requested one and the limit, within bounds. The flag is never cleared, and only the dimensions change |
| Controller.ResizeEffects | src/lib.rs:204 | a degenerate size makes no surface call. Any other size makes exactly one reconfiguration, with an in-bounds configuration, namely the one `Resized` computes |
| Controller.ResizeAllEffect | src/lib.rs:199-206 | after any series of resizes: the surface is configured exactly when it was before or some size was non-degenerate; the dimensions are the last non-degenerate size, clamped; other fields are untouched; a series of degenerate sizes changes nothing |
| Controller.RenderTrace | src/lib.rs:212-255 | every render first requests a redraw and never reconfigures the surface. An unconfigured surface gets nothing beyond the redraw request |
| Controller.RenderUnconfigured | src/lib.rs:213-214 | an unconfigured render requests the redraw once. It acquires no texture, draws nothing and submits and presents nothing |
| Controller.RenderAcquireFailed | src/lib.rs:216 | a failed texture request ends the render after the redraw request and the single acquisition: the calls are exactly those two, so no render pass is begun and nothing is drawn, submitted or presented |
| Controller.RenderFrame | src/lib.rs:216-254 | a successful render makes each of these calls exactly once, in this order: redraw, acquire, a pass cleared to (0.1, 0.2, 0.3, 1.0), a draw of 3 vertices and 1 instance, the end of the pass, submit, present. No other draw is made |
| Controller.PerformKeepsReadiness | src/lib.rs:199-255 | over any series of resize and render calls the readiness flag is never cleared, only the two dimensions change, and a configured surface stays within bounds |
| Controller.PerformResizes | src/lib.rs:199-206 | a series of resize calls performed one by one has the effect `ResizeAll` describes |
| Controller.PerformSplit | src/lib.rs:308-329 | a composition law of the model's `Perform`, which describes the in-order controller calls `window_event` makes: performing two call series one after the other equals performing their concatenation, in state and in surface calls |
| Controller.State.constructor | src/lib.rs:108-196 | the initial configuration has the render-attachment usage, the chosen format, the window's current size, the first present and first alpha mode, no view formats and frame latency 2. The surface is not yet configured (flag false, no surface call). The pipeline targets the chosen format and reads `Vertex::desc()` |
| Controller.State.Resize | src/lib.rs:199-206 | the new flag and configuration are `ResizeStep` of the old ones, the surface calls are `ResizeEffects`, and the surface/flag invariant `Valid` is kept |
| Controller.State.Render | src/lib.rs:212-255 | configuration and flag are unchanged. The result is success when unconfigured and otherwise the acquisition's answer. The calls made are `RenderTrace`, and `Valid` is kept |
| Controller.State.RecordRenderPass | src/lib.rs:222-249 | records begin-pass with the clear colour, set-pipeline, set-vertex-buffer at slot 0, one draw of `VERTICES.len()` vertices and one instance, and end-pass; nothing else changes |
| Dispatcher.Dispatched | src/lib.rs:308-329 | a resize event resizes to its size, and a redraw request renders. After the render exactly one resize to the window's current size follows, exactly when the surface was configured and the acquisition reported Lost or Outdated; otherwise the render is the only call. All other events call nothing |
| Dispatcher.App.constructor | src/lib.rs:266-271 | the slot is empty, and the proxy is held exactly in the browser build |
| Dispatcher.App.Resumed | src/lib.rs:275-296 | one window is created per call. The native build fills the slot with a fresh, unconfigured controller whose configuration and pipeline are exactly those `State::new` gives for the window's size. The browser build leaves the slot alone and starts a construction only while it holds the proxy, so exactly once over the application's life |
| Dispatcher.App.UserEvent | src/lib.rs:299-306 | the delivered controller fills the slot. In the browser build it first requests a redraw, then is resized to its window's current size; the native build leaves it untouched |
| Dispatcher.App.HandleWindowEvent | src/lib.rs:308-329 | with an empty slot no event has any effect, close included. Otherwise exit is signalled exactly once for a close request or an Escape press and never otherwise. The controller receives exactly the `Dispatched` calls, with the state and surface calls `Perform` gives |
| Dispatcher.Redraw | src/lib.rs:314-320 | rendering, then a resize to the window's current size only on Lost or Outdated, performs exactly the `Dispatched` calls of a redraw request |
| Scenarios.FirstFrame | src/lib.rs:199-255 | resizing a 0×0 window to 0×0 leaves it unconfigured. Resizing to 800×600 configures it at that size with the sRGB format, and the next render succeeds with the full frame |
| Scenarios.EscapePress | src/lib.rs:321-326 | an Escape press signals exit once |
| Scenarios.EscapeRelease | src/lib.rs:321-326 | an Escape release, or another key's press, does not signal exit |
| Scenarios.CloseBeforeConfigured | src/lib.rs:312 | a close request signals exit even before the surface is configured |
| Scenarios.CloseWhileEmpty | src/lib.rs:309 | with an empty slot neither a close request nor an Escape press signals exit |
| Scenarios.OutdatedRecovery | src/lib.rs:314-318 | after the window grows to 1024×768, an outdated surface is reconfigured at 1024×768 |
| Scenarios.TimeoutSkipsFrame | src/lib.rs:319 | a timed-out frame leaves the configuration at its old 640×480 |
| Scenarios.BrowserStartup | src/lib.rs:290-305 | a second `resumed` starts no second construction. The delivered controller arrives configured, clamped to the device limit (10000×600 becomes 8192×600) |

## Left out

- GPU negotiation (instance, surface, adapter, device, shader, pipeline
  layout and pipeline creation, vertex buffer upload): these are library
  calls with no logic of the application's own. The model keeps only what
  the application reads back: the surface capabilities and device limits,
  which the constructor takes as parameters, and the pipeline's vertex
  layout and target format.
- The failure paths of `State::new`: adapter or device negotiation failing,
  and the `unwrap`/`expect` on them. They end the program. The constructor
  instead requires the non-empty capability lists that the source indexes
  without checking.
- Window creation in `resumed` always succeeds in the model:
  `EventLoop.CreateWindow` has no failure path, while the source unwraps
  `create_window` and so panics when the platform refuses a window.
- The asynchronous machinery: `pollster::block_on`, `spawn_local` and the
  proxy's `send_event`. A spawned construction is only counted; its
  delivery is a separate `UserEvent` call.
- The browser canvas lookup and the native and browser `run` entry points with
  their logger set-up. They are I/O only.
- `State::update`: it is `todo!()` and never called.
- Floating point: vertex coordinates and the clear colour are exact
  decimals. The vertex data (0.0, ±0.5, 1.0) is exact in `f32`; the clear
  colour's channels are `f64` in `wgpu::Color`, and their rounding of 0.1,
  0.2 and 0.3 is not modelled. Nothing is computed with these values.
- The texture view, the command encoder and `encoder.finish()` are folded
  into `BeginRenderPass` and `Submit`. Logging the render error that is not
  recovered from has no effect in the model.
- The result of `get_current_texture` and the window's current size belong
  to the platform. They are parameters (`acquire`) or state the platform
  may change between events (`Window.innerSize`).
- Controller.Perform: every render in one series gets the same
  acquisition answer. This is enough for the dispatcher, which renders at
  most once per event.
