/** The winit application handler (`App`): a two-state machine that waits in
    `Init` until the graphics built on `resumed` are delivered by
    `user_event`, and from then on forwards window and device events to them.

    How a ready application reacts to an event is first given as a function
    on the graphics state (`HandleWindowEvent`, `HandleDeviceEvent`); the
    `App` class performs it on the `Graphics` object it owns. A panic ends
    the event loop, so a handler stops at the first one and reports it. */
module Application {
  import opened Types
  import opened Input
  import opened Gpu
  import opened Structures
  import opened Orchestrator

  /** The event loop proxy `create_graphics` posts the finished graphics through. */
  datatype Proxy = Proxy(id: nat)

  datatype State = Ready(gfx: Graphics) | Init(proxy: Option<Proxy>)

  /** How a handler hands control back to the event loop. */
  datatype Flow = Continue | Exit | Panic(message: string)

  /** The platform's answers while one event is handled: the clock as
      `update` and then `draw` read it, the f32 camera integration, the
      surface image (if any) and whether each cursor grab request is granted. */
  datatype Environment = Environment(
    updateNow: Tick,
    drawNow: Tick,
    integrate: CameraIntegrator,
    acquired: Option<nat>,
    lockGranted: bool,
    confineGranted: bool,
    releaseGranted: bool)

  /** The platform's answers while `resumed` builds the graphics. */
  datatype Platform = Platform(
    windowCreated: bool,
    adapterFound: bool,
    deviceGranted: bool,
    windowWidth: U32,
    windowHeight: U32,
    format: TextureFormat,
    start: Tick,
    prevStart: Tick)

  const WINDOW_FAILED: string := "create window err."
  const ADAPTER_FAILED: string := "Could not get an adapter (GPU)."
  const DEVICE_FAILED: string := "Failed to get device"
  const GRAB_FAILED: string := "Failed to grab cursor"
  const RELEASE_FAILED: string := "Failed to release cursor"
  const ACQUIRE_FAILED: string := "Failed to acquire next swap chain texture."

  // ---- Event handling on a ready application ----

  function Logged(s: GraphicsState, effects: seq<Effect>): GraphicsState {
    s.(trace := s.trace + effects)
  }

  /** `capture_mouse`: lock the cursor, else confine it, else panic; hide it once grabbed. */
  function AfterCaptureMouse(s: GraphicsState, lockGranted: bool, confineGranted: bool): (r: (GraphicsState, Flow))
    ensures r.0 == s.(trace := r.0.trace) && |r.0.trace| > |s.trace|
    ensures r.1 == Continue <==> lockGranted || confineGranted
    ensures r.1 != Continue ==> r.1 == Panic(GRAB_FAILED)
  {
    if lockGranted then
      (Logged(s, [SetCursorGrab(Locked, true), SetCursorVisible(false)]), Continue)
    else if confineGranted then
      (Logged(s, [SetCursorGrab(Locked, false), SetCursorGrab(Confined, true), SetCursorVisible(false)]), Continue)
    else
      (Logged(s, [SetCursorGrab(Locked, false), SetCursorGrab(Confined, false)]), Panic(GRAB_FAILED))
  }

  /** `release_mouse`: release the grab, else panic; show the cursor once released. */
  function AfterReleaseMouse(s: GraphicsState, granted: bool): (r: (GraphicsState, Flow))
    ensures r.0 == s.(trace := r.0.trace) && |r.0.trace| > |s.trace|
    ensures r.1 == (if granted then Continue else Panic(RELEASE_FAILED))
  {
    if granted then
      (Logged(s, [SetCursorGrab(NoGrab, true), SetCursorVisible(true)]), Continue)
    else
      (Logged(s, [SetCursorGrab(NoGrab, false)]), Panic(RELEASE_FAILED))
  }

  /** `RedrawRequested`: update, draw, and ask for the next redraw. */
  function Redraw(w: Wiring, s: GraphicsState, env: Environment): (GraphicsState, Flow) {
    var drawn := AfterDraw(w, AfterUpdate(s, env.updateNow, env.integrate), env.drawNow, env.acquired);
    if env.acquired.Some? then (AfterRequestRedraw(drawn), Continue) else (drawn, Panic(ACQUIRE_FAILED))
  }

  function OnMouseInput(s: GraphicsState, state: ElementState, button: MouseButton, env: Environment): (GraphicsState, Flow) {
    if button == Left && state == Pressed then AfterCaptureMouse(s, env.lockGranted, env.confineGranted)
    else if button == Right && state == Pressed then AfterReleaseMouse(s, env.releaseGranted)
    else (s, Continue)
  }

  function OnKeyboardInput(s: GraphicsState, event: KeyEvent, env: Environment): (GraphicsState, Flow) {
    if event.physicalKey == Code(Escape) && event.state == Pressed then
      var released := AfterReleaseMouse(s, env.releaseGranted);
      if released.1.Panic? then released else (AfterKeyboardInput(released.0, event), Continue)
    else
      (AfterKeyboardInput(s, event), Continue)
  }

  /** `window_event` on a ready application. */
  function HandleWindowEvent(w: Wiring, s: GraphicsState, event: WindowEvent, env: Environment): (r: (GraphicsState, Flow))
    ensures r.1 == Exit <==> event.CloseRequested?
    ensures Consistent(s) ==> Consistent(r.0)
  {
    match event
    case Resized(width, height) => (AfterResize(s, width, height), Continue)
    case RedrawRequested => Redraw(w, s, env)
    case CloseRequested => (s, Exit)
    case CursorMoved(x, y) => (AfterMousePos(s, Vec2(x, y)), Continue)
    case MouseInput(state, button) => OnMouseInput(s, state, button, env)
    case KeyboardInput(keyEvent, _) => OnKeyboardInput(s, keyEvent, env)
    case OtherWindowEvent => (s, Continue)
  }

  /** `device_event` on a ready application. */
  function HandleDeviceEvent(s: GraphicsState, event: DeviceEvent): (r: GraphicsState)
    ensures r == s.(metadata := s.metadata.(deltaMouse := r.metadata.deltaMouse))
    ensures event.OtherDeviceEvent? ==> r == s
  {
    match event
    case MouseMotion(dx, dy) => AfterMouseMotion(s, dx, dy)
    case OtherDeviceEvent => s
  }

  // ---- Properties ----

  /** Locking is tried first and confining only when locking is refused; the
      cursor is hidden exactly when one of them is granted, and the handler
      panics exactly when both are refused. Only the effect log changes. */
  lemma CaptureMouseOutcome(s: GraphicsState, lockGranted: bool, confineGranted: bool)
    ensures var (r, flow) := AfterCaptureMouse(s, lockGranted, confineGranted);
      var added := r.trace[|s.trace|..];
      && r == s.(trace := r.trace) && |r.trace| > |s.trace| && r.trace[..|s.trace|] == s.trace
      && added[0] == SetCursorGrab(Locked, lockGranted)
      && (SetCursorGrab(Confined, confineGranted) in added <==> !lockGranted)
      && (SetCursorVisible(false) in added <==> lockGranted || confineGranted)
      && added[|added| - 1] == (if lockGranted || confineGranted then SetCursorVisible(false) else SetCursorGrab(Confined, false))
      && (flow == Continue <==> lockGranted || confineGranted)
      && (flow != Continue ==> flow == Panic(GRAB_FAILED))
  {
    var (r, flow) := AfterCaptureMouse(s, lockGranted, confineGranted);
    var added := r.trace[|s.trace|..];
    if lockGranted {
      assert added == [SetCursorGrab(Locked, true), SetCursorVisible(false)];
    } else if confineGranted {
      assert added == [SetCursorGrab(Locked, false), SetCursorGrab(Confined, true), SetCursorVisible(false)];
    } else {
      assert added == [SetCursorGrab(Locked, false), SetCursorGrab(Confined, false)];
    }
  }

  /** Releasing asks for no grab; the cursor is shown again exactly when the
      release is granted, and the handler panics otherwise. */
  lemma ReleaseMouseOutcome(s: GraphicsState, granted: bool)
    ensures var (r, flow) := AfterReleaseMouse(s, granted);
      var added := r.trace[|s.trace|..];
      && r == s.(trace := r.trace) && |r.trace| > |s.trace| && r.trace[..|s.trace|] == s.trace
      && added[0] == SetCursorGrab(NoGrab, granted)
      && (SetCursorVisible(true) in added <==> granted)
      && (flow == Continue <==> granted)
      && (!granted ==> flow == Panic(RELEASE_FAILED))
  {
    var (r, flow) := AfterReleaseMouse(s, granted);
    var added := r.trace[|s.trace|..];
    if granted {
      assert added == [SetCursorGrab(NoGrab, true), SetCursorVisible(true)];
    } else {
      assert added == [SetCursorGrab(NoGrab, false)];
    }
  }

  /** A redraw updates before it draws: the camera moves by the ticks up to
      `update`'s clock reading, the uploaded view comes from the camera as
      moved, the motion is consumed, the frame times come from `draw`'s own
      clock reading, the frame counter advances, and the next redraw is
      requested after the frame is presented, or the handler panics if no
      image was acquired. */
  lemma RedrawUpdatesThenDraws(w: Wiring, s: GraphicsState, env: Environment)
    ensures var (r, flow) := HandleWindowEvent(w, s, RedrawRequested, env);
      var updated := AfterUpdate(s, env.updateNow, env.integrate);
      var drawn := AfterDraw(w, updated, env.drawNow, env.acquired);
      && r.view == DerivedFrom(updated.camera)
      && r.camera == updated.camera
      && r.metadata.deltaMouse == VEC2_ZERO
      && r.metadata.prevFrameStartInstant == env.drawNow
      && r.globals.frameTime == Elapsed(s.metadata.prevFrameStartInstant, env.drawNow)
      && r.globals.timePassed == Elapsed(s.metadata.startInstant, env.drawNow)
      && r.globals.frame == (s.globals.frame + 1) % U32_MODULUS
      && r.trace[..|drawn.trace|] == drawn.trace
      && (env.acquired.Some? ==> r.trace == drawn.trace + [RedrawRequest] && flow == Continue)
      && (env.acquired.None? ==> r.trace == drawn.trace && flow == Panic(ACQUIRE_FAILED))
    ensures Consistent(s) ==> Consistent(HandleWindowEvent(w, s, RedrawRequested, env).0)
  {
    var updated := AfterUpdate(s, env.updateNow, env.integrate);
    UpdateEffect(s, env.updateNow, env.integrate);
    DrawAdvancesFrame(w, updated, env.drawNow, env.acquired);
  }

  /** A pressed Escape releases the mouse and, unless that panics, still
      reaches the key set; the key set then records Escape as held. */
  lemma EscapeReleasesThenForwards(w: Wiring, s: GraphicsState, isSynthetic: bool, env: Environment)
    ensures var (r, flow) := HandleWindowEvent(w, s, KeyboardInput(KeyEvent(Code(Escape), Pressed), isSynthetic), env);
      var released := AfterReleaseMouse(s, env.releaseGranted).0;
      && r.trace == released.trace
      && (env.releaseGranted ==> flow == Continue && r.metadata.keyboardState == s.metadata.keyboardState + {Escape})
      && (!env.releaseGranted ==> flow == Panic(RELEASE_FAILED) && r.metadata == s.metadata)
  {
  }

  /** Any other key event goes to the key set only, with no cursor effect. */
  lemma OtherKeysOnlyForwarded(w: Wiring, s: GraphicsState, event: KeyEvent, isSynthetic: bool, env: Environment)
    requires event.physicalKey != Code(Escape) || event.state == Released
    ensures HandleWindowEvent(w, s, KeyboardInput(event, isSynthetic), env) == (AfterKeyboardInput(s, event), Continue)
  {
  }

  /** A left press captures the mouse, a right press releases it, and every
      other button event (any release, any other button) changes nothing. */
  lemma MouseButtonsRoute(w: Wiring, s: GraphicsState, state: ElementState, button: MouseButton, env: Environment)
    ensures state == Pressed && button == Left ==>
      HandleWindowEvent(w, s, MouseInput(state, button), env) == AfterCaptureMouse(s, env.lockGranted, env.confineGranted)
    ensures state == Pressed && button == Right ==>
      HandleWindowEvent(w, s, MouseInput(state, button), env) == AfterReleaseMouse(s, env.releaseGranted)
    ensures state == Released || (button != Left && button != Right) ==>
      HandleWindowEvent(w, s, MouseInput(state, button), env) == (s, Continue)
  {
  }

  /** Closing the window exits the loop and touches nothing. */
  lemma CloseExits(w: Wiring, s: GraphicsState, env: Environment)
    ensures HandleWindowEvent(w, s, CloseRequested, env) == (s, Exit)
  {
  }

  /** Only `RedrawRequested` can fail to acquire an image, only a cursor
      grab or release can fail otherwise, and every event keeps the
      graphics state consistent. */
  lemma WindowEventsKeepConsistent(w: Wiring, s: GraphicsState, event: WindowEvent, env: Environment)
    requires Consistent(s)
    ensures Consistent(HandleWindowEvent(w, s, event, env).0)
    ensures HandleWindowEvent(w, s, event, env).1 == Panic(ACQUIRE_FAILED) ==> event.RedrawRequested?
    ensures HandleWindowEvent(w, s, event, env).1 == Exit <==> event.CloseRequested?
    ensures HandleWindowEvent(w, s, event, env).1.Panic? ==> event.RedrawRequested? || event.MouseInput? || event.KeyboardInput?
  {
    match event
    case Resized(width, height) => ResizeEffect(s, width, height);
    case RedrawRequested => RedrawUpdatesThenDraws(w, s, env);
    case CloseRequested =>
    case CursorMoved(x, y) => PointerInputOnlyTouchesPointer(s, 0.0, 0.0, Vec2(x, y));
    case MouseInput(state, button) =>
    case KeyboardInput(keyEvent, _) =>
      KeyboardInputOnlyTouchesKeys(s, keyEvent);
      KeyboardInputOnlyTouchesKeys(AfterReleaseMouse(s, env.releaseGranted).0, keyEvent);
    case OtherWindowEvent =>
  }

  // ---- The application object ----

  class App {
    var state: State

    /** The graphics object, once there is one. */
    function Gfx(): set<object>
      reads this
    {
      if state.Ready? then {state.gfx} else {}
    }

    predicate Valid()
      reads this, Gfx()
    {
      state.Ready? ==> state.gfx.Valid()
    }

    /** `App::new`: waiting, with the event loop's proxy in hand. */
    constructor (proxy: Proxy)
      ensures state == Init(Some(proxy))
      ensures Valid()
    {
      state := Init(Some(proxy));
    }

    method Update(now: Tick, integrate: CameraIntegrator)
      requires Valid()
      modifies Gfx()
      ensures Valid() && state == old(state)
      ensures state.Ready? ==> state.gfx.State() == AfterUpdate(old(state.gfx.State()), now, integrate)
    {
      if state.Ready? {
        state.gfx.Update(now, integrate);
      }
    }

    method Draw(now: Tick, acquired: Option<nat>) returns (flow: Flow)
      requires Valid()
      modifies Gfx()
      ensures Valid() && state == old(state)
      ensures state.Init? ==> flow == Continue
      ensures state.Ready? ==>
        var drawn := AfterDraw(state.gfx.wiring, old(state.gfx.State()), now, acquired);
        && (acquired.Some? ==> state.gfx.State() == AfterRequestRedraw(drawn) && flow == Continue)
        && (acquired.None? ==> state.gfx.State() == drawn && flow == Panic(ACQUIRE_FAILED))
    {
      flow := Continue;
      if state.Ready? {
        var gfx := state.gfx;
        var ok := gfx.Draw(now, acquired);
        if !ok {
          return Panic(ACQUIRE_FAILED);
        }
        gfx.RequestRedraw();
      }
    }

    method Resized(width: U32, height: U32)
      requires Valid()
      modifies Gfx()
      ensures Valid() && state == old(state)
      ensures state.Ready? ==> state.gfx.State() == AfterResize(old(state.gfx.State()), width, height)
    {
      if state.Ready? {
        state.gfx.Resize(width, height);
      }
    }

    method CursorMoved(x: real, y: real)
      requires Valid()
      modifies Gfx()
      ensures Valid() && state == old(state)
      ensures state.Ready? ==> state.gfx.State() == AfterMousePos(old(state.gfx.State()), Vec2(x, y))
    {
      if state.Ready? {
        state.gfx.SetMousePos(Vec2(x, y));
      }
    }

    method MouseMotion(dx: real, dy: real)
      requires Valid()
      modifies Gfx()
      ensures Valid() && state == old(state)
      ensures state.Ready? ==> state.gfx.State() == AfterMouseMotion(old(state.gfx.State()), dx, dy)
    {
      if state.Ready? {
        state.gfx.HandleMouseMotion(dx, dy);
      }
    }

    method CaptureMouse(lockGranted: bool, confineGranted: bool) returns (flow: Flow)
      requires Valid()
      modifies Gfx()
      ensures Valid() && state == old(state)
      ensures state.Init? ==> flow == Continue
      ensures state.Ready? ==>
        (state.gfx.State(), flow) == AfterCaptureMouse(old(state.gfx.State()), lockGranted, confineGranted)
    {
      flow := Continue;
      if state.Ready? {
        var gfx := state.gfx;
        ghost var before := gfx.trace;
        gfx.trace := gfx.trace + [SetCursorGrab(Locked, lockGranted)];
        var granted := lockGranted;
        if !granted {
          gfx.trace := gfx.trace + [SetCursorGrab(Confined, confineGranted)];
          granted := confineGranted;
          assert gfx.trace == before + [SetCursorGrab(Locked, false), SetCursorGrab(Confined, confineGranted)];
        }
        if !granted {
          return Panic(GRAB_FAILED);
        }
        gfx.trace := gfx.trace + [SetCursorVisible(false)];
        assert gfx.trace == before + (if lockGranted then [SetCursorGrab(Locked, true), SetCursorVisible(false)]
          else [SetCursorGrab(Locked, false), SetCursorGrab(Confined, true), SetCursorVisible(false)]);
      }
    }

    method ReleaseMouse(granted: bool) returns (flow: Flow)
      requires Valid()
      modifies Gfx()
      ensures Valid() && state == old(state)
      ensures state.Init? ==> flow == Continue
      ensures state.Ready? ==>
        (state.gfx.State(), flow) == AfterReleaseMouse(old(state.gfx.State()), granted)
    {
      flow := Continue;
      if state.Ready? {
        var gfx := state.gfx;
        ghost var before := gfx.trace;
        gfx.trace := gfx.trace + [SetCursorGrab(NoGrab, granted)];
        if !granted {
          return Panic(RELEASE_FAILED);
        }
        gfx.trace := gfx.trace + [SetCursorVisible(true)];
        assert gfx.trace == before + [SetCursorGrab(NoGrab, true), SetCursorVisible(true)];
      }
    }

    method KeyboardInput(event: KeyEvent)
      requires Valid()
      modifies Gfx()
      ensures Valid() && state == old(state)
      ensures state.Ready? ==> state.gfx.State() == AfterKeyboardInput(old(state.gfx.State()), event)
    {
      if state.Ready? {
        state.gfx.HandleKeyboardInput(event);
      }
    }

    /** `resumed`: the first call takes the proxy and builds the graphics to
        post through it; every later call, and every call once ready, does
        nothing. */
    method Resumed(platform: Platform) returns (posted: Option<Graphics>, flow: Flow)
      requires Valid()
      modifies this
      ensures Valid()
      ensures old(state).Init? && old(state).proxy.Some? ==>
        && state == Init(None)
        && (flow == Continue <==> platform.windowCreated && platform.adapterFound && platform.deviceGranted)
        && (!platform.windowCreated ==> flow == Panic(WINDOW_FAILED))
        && (platform.windowCreated && !platform.adapterFound ==> flow == Panic(ADAPTER_FAILED))
        && (platform.windowCreated && platform.adapterFound && !platform.deviceGranted ==> flow == Panic(DEVICE_FAILED))
        && (posted.Some? <==> flow == Continue)
        && (posted.Some? ==>
              && fresh(posted.value) && posted.value.Valid()
              && posted.value.wiring == InitialWiring()
              && posted.value.State() == InitialState(platform.windowWidth, platform.windowHeight,
                                                      platform.format, platform.start, platform.prevStart))
      ensures !(old(state).Init? && old(state).proxy.Some?) ==> state == old(state) && posted == None && flow == Continue
    {
      posted, flow := None, Continue;
      if state.Init? && state.proxy.Some? {
        state := Init(None);
        if !platform.windowCreated {
          return None, Panic(WINDOW_FAILED);
        }
        if !platform.adapterFound {
          return None, Panic(ADAPTER_FAILED);
        }
        if !platform.deviceGranted {
          return None, Panic(DEVICE_FAILED);
        }
        var gfx := new Graphics(platform.windowWidth, platform.windowHeight, platform.format, platform.start, platform.prevStart);
        posted := Some(gfx);
      }
    }

    /** `user_event`: the delivered graphics request a redraw and the
        application becomes ready with them, whatever it was before. */
    method UserEvent(gfx: Graphics)
      requires gfx.Valid()
      modifies this, gfx
      ensures Valid()
      ensures state == Ready(gfx)
      ensures gfx.State() == AfterRequestRedraw(old(gfx.State()))
    {
      gfx.RequestRedraw();
      state := Ready(gfx);
    }

    method WindowEvent(event: WindowEvent, env: Environment) returns (flow: Flow)
      requires Valid()
      modifies Gfx()
      ensures Valid() && state == old(state)
      ensures state.Init? ==> flow == (if event.CloseRequested? then Exit else Continue)
      ensures state.Ready? ==>
        (state.gfx.State(), flow) == HandleWindowEvent(state.gfx.wiring, old(state.gfx.State()), event, env)
    {
      flow := Continue;
      match event {
        case Resized(width, height) =>
          Resized(width, height);
        case RedrawRequested =>
          Update(env.updateNow, env.integrate);
          flow := Draw(env.drawNow, env.acquired);
        case CloseRequested =>
          flow := Exit;
        case CursorMoved(x, y) =>
          CursorMoved(x, y);
        case MouseInput(buttonState, button) =>
          if button == Left && buttonState == Pressed {
            flow := CaptureMouse(env.lockGranted, env.confineGranted);
          }
          if button == Right && buttonState == Pressed {
            flow := ReleaseMouse(env.releaseGranted);
          }
        case KeyboardInput(keyEvent, _) =>
          if keyEvent.physicalKey == Code(Escape) && keyEvent.state == Pressed {
            flow := ReleaseMouse(env.releaseGranted);
            if flow.Panic? {
              return;
            }
          }
          KeyboardInput(keyEvent);
        case OtherWindowEvent =>
      }
    }

    method DeviceEvent(event: DeviceEvent)
      requires Valid()
      modifies Gfx()
      ensures Valid() && state == old(state)
      ensures state.Ready? ==> state.gfx.State() == HandleDeviceEvent(old(state.gfx.State()), event)
    {
      match event {
        case MouseMotion(dx, dy) =>
          MouseMotion(dx, dy);
        case OtherDeviceEvent =>
      }
    }
  }
}
