/** The application event dispatcher, `App`: it holds the controller slot,
    creates the window when the platform resumes the application, receives
    the controller once it is built, and routes window events to it. The
    browser build (`target_arch = "wasm32"`) is the `web` variant: there the
    controller is built in the background by a future that `resumed` spawns at most
    once, and is delivered later as a user event. */
module Dispatcher {
  import opened Platform
  import opened SurfaceFormat
  import opened Controller
  import opened VertexLayout

  /** The events after which the application asks the event loop to exit:
      a close request, or a press (not a release) of the Escape key. */
  predicate SignalsExit(event: WindowEvent)
  {
    event.CloseRequested? ||
    (event.KeyboardInput? && event.physicalKey == Code(Escape) && event.state == Pressed)
  }

  /** The surface errors the dispatcher recovers from by reconfiguring. */
  predicate Recoverable(e: SurfaceError)
  {
    e == Lost || e == Outdated
  }

  /** The controller calls `window_event` makes for `event` when the slot is
      full, given whether the surface was configured, the surface's answer to
      the texture request and the window's size at the time. A resize event
      is forwarded; a redraw request renders, and only a lost or outdated
      surface is then resized once to the window's current size; every other
      event reaches no controller operation. */
  function Dispatched(event: WindowEvent, configured: bool, acquire: SurfaceResult, innerSize: PhysicalSize): (r: seq<Call>)
    ensures event.Resized? ==> r == [ResizeCall(event.size)]
    ensures (RenderCall in r) <==> event.RedrawRequested?
    ensures event.RedrawRequested? ==> r[0] == RenderCall
    ensures event.RedrawRequested? ==>
      (|r| == 2 <==> configured && acquire.Err? && Recoverable(acquire.error))
    ensures |r| == 2 ==> r[1] == ResizeCall(innerSize)
    ensures event.RedrawRequested? ==> |r| <= 2
    ensures event.RedrawRequested? && !(configured && acquire.Err? && Recoverable(acquire.error)) ==>
      r == [RenderCall]
    ensures !event.Resized? && !event.RedrawRequested? ==> r == []
  {
    match event
    case Resized(size) => [ResizeCall(size)]
    case RedrawRequested =>
      var result := if configured then acquire else Ok;
      if result.Err? && (result.error == Lost || result.error == Outdated)
      then [RenderCall, ResizeCall(innerSize)]
      else [RenderCall]
    case _ => []
  }

  class App {
    /** Whether this is the browser build. */
    const web: bool
    var state: Option<State>
    /** The event-loop proxy is still held (browser build only). */
    var proxy: bool
    /** Background constructions of the controller started (browser build only). */
    var constructionsSpawned: nat

    ghost function Slot(): set<object>
      reads this
    {
      if state.Some? then {state.value} else {}
    }

    /** A controller in the slot is valid; in the browser build the proxy is
        either still held or has been used for exactly one construction; the
        native build has neither. */
    ghost predicate Valid()
      reads this, Slot()
    {
      && (state.Some? ==> state.value.Valid())
      && (if web then constructionsSpawned + (if proxy then 1 else 0) == 1
          else !proxy && constructionsSpawned == 0)
    }

    /** `App::new`: an empty slot, and in the browser build the proxy. */
    constructor (web: bool)
      ensures Valid()
      ensures this.web == web && state == None && proxy == web && constructionsSpawned == 0
    {
      this.web := web;
      state := None;
      proxy := web;
      constructionsSpawned := 0;
    }

    /** `ApplicationHandler::resumed`. A window is created each time. The
        native build builds the controller on the spot, with the adapter's
        capabilities and limits as parameters, and puts it in the slot; the
        browser build starts the background construction only if it still
        holds the proxy, so at most once over the application's life. */
    method Resumed(eventLoop: EventLoop, windowSize: PhysicalSize, caps: SurfaceCapabilities, limits: Limits)
      returns (window: Window)
      requires Valid()
      requires !web ==> |caps.formats| > 0 && |caps.presentModes| > 0 && |caps.alphaModes| > 0
      modifies this, eventLoop
      ensures Valid()
      ensures fresh(window) && window.innerSize == windowSize
      ensures eventLoop.windowsCreated == old(eventLoop.windowsCreated) + 1
      ensures eventLoop.exitCalls == old(eventLoop.exitCalls)
      ensures !web ==>
        && state.Some? && fresh(state.value)
        && state.value.window == window && state.value.limits == limits
        && !state.value.isSurfaceConfigured && state.value.log == [] && state.value.calls == []
        && state.value.config == SurfaceConfiguration(
             RenderAttachment, ChooseSurfaceFormat(caps.formats), windowSize.width, windowSize.height,
             caps.presentModes[0], caps.alphaModes[0], [], 2)
        && state.value.renderPipeline == RenderPipeline(Desc(), ChooseSurfaceFormat(caps.formats))
        && constructionsSpawned == 0 && !proxy
      ensures web ==>
        && state == old(state) && !proxy
        && constructionsSpawned == old(constructionsSpawned) + (if old(proxy) then 1 else 0)
        && constructionsSpawned == 1
    {
      window := eventLoop.CreateWindow(windowSize);
      if !web {
        var st := new State(window, caps, limits);
        state := Some(st);
      } else if proxy {
        proxy := false;
        constructionsSpawned := constructionsSpawned + 1;
      }
    }

    /** `ApplicationHandler::user_event`: the controller built in the
        background arrives. The browser build first requests a redraw and
        resizes it to the window's current size, to catch up with size
        changes made while it was being built; then it fills the slot. */
    method UserEvent(event: State)
      requires Valid() && event.Valid()
      modifies this, event
      ensures Valid() && state == Some(event)
      ensures proxy == old(proxy) && constructionsSpawned == old(constructionsSpawned)
      ensures web ==>
        var size := event.window.innerSize;
        var limit := event.limits.maxTextureDimension2D;
        && SurfaceState(event.config, event.isSurfaceConfigured) ==
           ResizeStep(SurfaceState(old(event.config), old(event.isSurfaceConfigured)), size, limit)
        && event.log == old(event.log) + [RequestRedraw] + ResizeEffects(old(event.config), size, limit)
        && event.calls == old(event.calls) + [ResizeCall(size)]
      ensures !web ==>
        && event.config == old(event.config) && event.isSurfaceConfigured == old(event.isSurfaceConfigured)
        && event.log == old(event.log) && event.calls == old(event.calls)
    {
      if web {
        event.Emit(RequestRedraw);
        event.Resize(event.window.innerSize);
      }
      state := Some(event);
    }

    /** `ApplicationHandler::window_event`, with the surface's answer to a
        texture request as a parameter. With an empty slot every event is
        dropped. Otherwise exit is signalled for exactly the events
        `SignalsExit` names, and the controller receives the calls
        `Dispatched` names, with the effects those calls have. */
    method HandleWindowEvent(eventLoop: EventLoop, event: WindowEvent, acquire: SurfaceResult)
      requires Valid()
      modifies eventLoop, Slot()
      ensures Valid()
      ensures eventLoop.windowsCreated == old(eventLoop.windowsCreated)
      ensures state.None? ==> eventLoop.exitCalls == old(eventLoop.exitCalls)
      ensures state.Some? ==>
        eventLoop.exitCalls == old(eventLoop.exitCalls) + (if SignalsExit(event) then 1 else 0)
      ensures state.Some? ==> var st := state.value;
        PerformedOn(st, Dispatched(event, old(st.isSurfaceConfigured), acquire, st.window.innerSize), acquire)
    {
      if state.None? { return; }
      var st := state.value;
      PerformUnfold(SurfaceState(st.config, st.isSurfaceConfigured), st.window.innerSize, acquire,
        st.limits.maxTextureDimension2D);
      match event {
        case CloseRequested =>
          eventLoop.Exit();
        case Resized(size) =>
          PerformUnfold(SurfaceState(st.config, st.isSurfaceConfigured), size, acquire,
            st.limits.maxTextureDimension2D);
          st.Resize(size);
        case RedrawRequested =>
          Redraw(st, acquire);
        case KeyboardInput(key, keyState) =>
          if key == Code(Escape) && keyState == Pressed {
            eventLoop.Exit();
          }
        case OtherEvent =>
      }
    }
  }

  /** The calls `calls` were made on `st`, each with its effect on the
      stored configuration, the readiness flag and the effect log. */
  twostate predicate PerformedOn(st: State, calls: seq<Call>, acquire: SurfaceResult)
    reads st
  {
    var r := Perform(SurfaceState(old(st.config), old(st.isSurfaceConfigured)), calls, acquire,
      st.limits.maxTextureDimension2D);
    && st.calls == old(st.calls) + calls
    && SurfaceState(st.config, st.isSurfaceConfigured) == r.0
    && st.log == old(st.log) + r.1
  }

  /** The `RedrawRequested` arm of `window_event`: render; on a lost or
      outdated surface, resize once to the window's current size; any other
      error is only logged. */
  method Redraw(st: State, acquire: SurfaceResult)
    requires st.Valid()
    modifies st
    ensures st.Valid()
    ensures PerformedOn(st, Dispatched(RedrawRequested, old(st.isSurfaceConfigured), acquire, st.window.innerSize), acquire)
  {
    PerformUnfold(SurfaceState(st.config, st.isSurfaceConfigured), st.window.innerSize, acquire,
      st.limits.maxTextureDimension2D);
    var r := st.Render(acquire);
    if r.Err? && (r.error == Lost || r.error == Outdated) {
      st.Resize(st.window.innerSize);
    }
  }
}
