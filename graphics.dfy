/** The frame orchestrator (`Graphics`): the surface configuration, depth
    texture, camera, host metadata and uniforms it updates in place, and the
    GPU and window effects it performs, recorded in order in `trace`.

    Every operation is first given as a function on a `GraphicsState` value;
    the `Graphics` class performs it step by step and proves that its new
    state is that function of its old one. */
module Orchestrator {
  import opened Types
  import opened Input
  import opened Gpu
  import opened Structures
  import Cameras
  import Layouts
  import BufferPool
  import Bindings
  import Rendering

  /** The part of `SurfaceConfiguration` the renderer reads or writes. The
      format is whatever the adapter prefers for the surface. */
  datatype SurfaceConfig = SurfaceConfig(format: TextureFormat, width: U32, height: U32)

  datatype CursorGrabMode = NoGrab | Confined | Locked

  /** The bytes `bytemuck::bytes_of` takes from a uniform record. */
  datatype Upload = GlobalsBytes(globals: Globals) | ViewBytes(view: View)

  /** A call into wgpu or winit that the renderer makes. Calls whose outcome
      the platform decides carry that outcome. */
  datatype Effect =
    | ConfigureSurface(config: SurfaceConfig)
    | CreateTexture(descriptor: TextureDescriptor)
    | WriteBuffer(buffer: BufferPool.BufferDescriptor, offset: nat, data: Upload)
    | AcquireSurfaceTexture(acquired: Option<nat>)
    | Submit(commands: seq<Rendering.Command>)
    | Present(texture: Texture)
    | RedrawRequest
    | SetCursorGrab(mode: CursorGrabMode, granted: bool)
    | SetCursorVisible(visible: bool)

  /** The pipeline, buffers, layouts and bind groups: built once by
      `create_graphics` and never replaced. */
  datatype Wiring = Wiring(
    renderPass: Rendering.RenderPass,
    buffers: BufferPool.Buffers,
    bindGroupLayoutsCompute: Layouts.BindGroupLayouts,
    bindGroupLayoutsRender: Layouts.BindGroupLayouts,
    bindGroupsCompute: Bindings.BindGroups,
    bindGroupsRender: Bindings.BindGroups)

  /** The fields of `Graphics` its methods update. The depth texture view
      always covers `depthTexture`, so it is not a separate field. */
  datatype GraphicsState = GraphicsState(
    surfaceConfig: SurfaceConfig,
    depthTexture: Texture,
    camera: Cameras.Camera,
    metadata: Metadata,
    globals: Globals,
    view: View,
    trace: seq<Effect>)

  /** Which way the held keys push the camera: `forward` is [W] - [S],
      `right` is [D] - [A], and `boost` is the Shift multiplier. */
  datatype MovementIntent = MovementIntent(forward: int, right: int, boost: nat)

  /** The f32 movement and mouse-look integration of `Graphics::update` and
      `Camera::update_rotation`: from the camera, the movement intent, the
      accumulated mouse motion and the ticks since the previous frame start
      to the camera's new pose. */
  type CameraIntegrator = (Cameras.Camera, MovementIntent, Vec2, nat) -> Cameras.Pose

  // ---- Construction ----

  /** `u32::max(x, 1)`. */
  function MaxOne(x: U32): (r: U32)
    ensures r >= 1 && r >= x
    ensures r == x || r == 1
  {
    if x == 0 then 1 else x
  }

  /** `width as f32 / height as f32`, exactly. */
  function AspectRatio(config: SurfaceConfig): real
    requires config.height >= 1
  {
    config.width as real / config.height as real
  }

  /** `create_depth_texture`: a single-sample 2D depth target the size of the surface. */
  function DepthTextureDescriptor(config: SurfaceConfig): (d: TextureDescriptor)
    ensures d.width == config.width && d.height == config.height && d.depthOrArrayLayers == 1
    ensures d.format == Depth32Float && d.sampleCount == 1 && d.usage == {RenderAttachment}
  {
    TextureDescriptor("Depth Texture", config.width, config.height, 1, 1, 1, D2, Depth32Float, {RenderAttachment})
  }

  /** The wiring `create_graphics` builds: layouts for both usages, the render
      pipeline over the render layouts, buffers for three vertices, and bind
      groups pairing each usage's layouts with the shared buffers. */
  function InitialWiring(): (w: Wiring)
    ensures w.renderPass.pipeline.bindGroupLayouts == Layouts.AsSlice(w.bindGroupLayoutsRender)
    ensures w.bindGroupLayoutsCompute == Layouts.New(Layouts.Compute) && w.bindGroupLayoutsRender == Layouts.New(Layouts.Render)
    ensures forall s :: Bindings.Get(w.bindGroupsRender, s).layout == Layouts.Get(w.bindGroupLayoutsRender, s)
    ensures forall s :: Bindings.Get(w.bindGroupsCompute, s).layout == Layouts.Get(w.bindGroupLayoutsCompute, s)
    ensures w.buffers.vertices.size == 3 * BufferPool.VertexStride()
  {
    var compute := Layouts.New(Layouts.Compute);
    var render := Layouts.New(Layouts.Render);
    var buffers := BufferPool.New(3);
    Wiring(
      Rendering.New(Layouts.AsSlice(render)),
      buffers,
      compute,
      render,
      Bindings.New(compute, buffers),
      Bindings.New(render, buffers))
  }

  /** The state `create_graphics` builds for a window of the given inner
      size, with the two instants `Metadata::new` reads. */
  function InitialState(windowWidth: U32, windowHeight: U32, format: TextureFormat, start: Tick, prevStart: Tick): (s: GraphicsState)
    ensures Consistent(s)
    ensures s.surfaceConfig.format == format
    ensures windowWidth >= 1 ==> s.surfaceConfig.width == windowWidth
    ensures windowHeight >= 1 ==> s.surfaceConfig.height == windowHeight
  {
    var config := SurfaceConfig(format, MaxOne(windowWidth), MaxOne(windowHeight));
    GraphicsState(
      config,
      Created(DepthTextureDescriptor(config)),
      Cameras.New(AspectRatio(config)),
      NewMetadata(start, prevStart),
      DefaultGlobals().(resolution := (config.width, config.height)),
      ZeroView,
      [ConfigureSurface(config), CreateTexture(DepthTextureDescriptor(config))])
  }

  /** What every operation keeps: a non-empty surface, the resolution
      uniform equal to it, a depth texture of the same size, and the camera's
      aspect ratio taken from it. */
  predicate Consistent(s: GraphicsState) {
    && s.surfaceConfig.width >= 1
    && s.surfaceConfig.height >= 1
    && s.globals.resolution == (s.surfaceConfig.width, s.surfaceConfig.height)
    && s.depthTexture == Created(DepthTextureDescriptor(s.surfaceConfig))
    && s.camera.aspectRatio == AspectRatio(s.surfaceConfig)
  }

  // ---- Transitions ----

  function AfterMousePos(s: GraphicsState, mousePos: Vec2): GraphicsState {
    s.(globals := s.globals.(mousePos := mousePos))
  }

  function AfterMouseMotion(s: GraphicsState, dx: real, dy: real): GraphicsState {
    s.(metadata := s.metadata.(deltaMouse := AddVec2(s.metadata.deltaMouse, Vec2(dx, dy))))
  }

  /** The pressed-key set after one keyboard event. */
  function KeysAfter(keys: set<KeyCode>, event: KeyEvent): (r: set<KeyCode>)
    ensures event.physicalKey.Code? ==> (event.physicalKey.code in r <==> event.state == Pressed)
    ensures forall k :: event.physicalKey != Code(k) ==> (k in r <==> k in keys)
  {
    match event.physicalKey
    case Unidentified(_) => keys
    case Code(k) => if event.state == Pressed then keys + {k} else keys - {k}
  }

  function AfterKeyboardInput(s: GraphicsState, event: KeyEvent): GraphicsState {
    s.(metadata := s.metadata.(keyboardState := KeysAfter(s.metadata.keyboardState, event)))
  }

  function AfterRequestRedraw(s: GraphicsState): GraphicsState {
    s.(trace := s.trace + [RedrawRequest])
  }

  function AfterResize(s: GraphicsState, width: U32, height: U32): (r: GraphicsState)
    ensures Consistent(r)
    ensures r.surfaceConfig.format == s.surfaceConfig.format
    ensures width >= 1 ==> r.surfaceConfig.width == width
    ensures height >= 1 ==> r.surfaceConfig.height == height
  {
    var config := s.surfaceConfig.(width := MaxOne(width), height := MaxOne(height));
    s.(surfaceConfig := config,
       camera := s.camera.(aspectRatio := AspectRatio(config)),
       globals := s.globals.(resolution := (config.width, config.height)),
       depthTexture := Created(DepthTextureDescriptor(config)),
       trace := s.trace + [ConfigureSurface(config), CreateTexture(DepthTextureDescriptor(config))])
  }

  function Held(keys: set<KeyCode>, k: KeyCode): int {
    if k in keys then 1 else 0
  }

  function Intent(keys: set<KeyCode>): (i: MovementIntent)
    ensures -1 <= i.forward <= 1 && -1 <= i.right <= 1
    ensures i.forward == 0 <==> (KeyW in keys <==> KeyS in keys)
    ensures i.right == 0 <==> (KeyD in keys <==> KeyA in keys)
    ensures i.boost == (if ShiftLeft in keys then 5 else 1)
  {
    MovementIntent(
      Held(keys, KeyW) - Held(keys, KeyS),
      Held(keys, KeyD) - Held(keys, KeyA),
      if ShiftLeft in keys then 5 else 1)
  }

  function AfterUpdate(s: GraphicsState, now: Tick, integrate: CameraIntegrator): (r: GraphicsState)
    ensures r.metadata == s.metadata.(deltaMouse := VEC2_ZERO)
    ensures r.globals == s.globals && r.view == s.view && r.trace == s.trace
    ensures Consistent(s) ==> Consistent(r)
  {
    var pose := integrate(
      s.camera,
      Intent(s.metadata.keyboardState),
      s.metadata.deltaMouse,
      Elapsed(s.metadata.prevFrameStartInstant, now));
    s.(camera := Cameras.WithPose(s.camera, pose), metadata := s.metadata.(deltaMouse := VEC2_ZERO))
  }

  /** The uniform writes of `update_uniforms`, globals first. */
  function Uploads(w: Wiring, s: GraphicsState): seq<Effect> {
    [WriteBuffer(w.buffers.globals, 0, GlobalsBytes(s.globals)), WriteBuffer(w.buffers.view, 0, ViewBytes(s.view))]
  }

  function AfterUpdateUniforms(w: Wiring, s: GraphicsState): GraphicsState {
    s.(trace := s.trace + Uploads(w, s))
  }

  /** The first part of `draw`: the frame counter, both times from the same
      `now`, the new frame start, and the view derived from the camera. */
  function AfterFrameStart(s: GraphicsState, now: Tick): (r: GraphicsState)
    ensures r.globals.frame == (s.globals.frame + 1) % U32_MODULUS
    ensures r.metadata == s.metadata.(prevFrameStartInstant := now)
    ensures s.metadata.prevFrameStartInstant <= now ==> s.metadata.prevFrameStartInstant + r.globals.frameTime == now
    ensures Consistent(s) ==> Consistent(r)
  {
    s.(globals := s.globals.(
         frame := WrapU32(s.globals.frame + 1),
         timePassed := Elapsed(s.metadata.startInstant, now),
         frameTime := Elapsed(s.metadata.prevFrameStartInstant, now)),
       metadata := s.metadata.(prevFrameStartInstant := now),
       view := DerivedFrom(s.camera))
  }

  /** The commands one frame submits: the compute stage records nothing and
      the render stage records the render pass into the acquired image. */
  function FrameCommands(w: Wiring, s: GraphicsState, image: nat): seq<Rendering.Command> {
    Rendering.PassCommands(
      w.renderPass,
      WholeTexture(SurfaceTexture(image)),
      WholeTexture(s.depthTexture),
      Bindings.AsSlice(w.bindGroupsRender),
      w.buffers.vertices)
  }

  /** `draw`, given what `get_current_texture` returned. When it returned
      nothing the call panics right after the acquisition. */
  function AfterDraw(w: Wiring, s: GraphicsState, now: Tick, acquired: Option<nat>): (r: GraphicsState)
    ensures |r.trace| == |s.trace| + (if acquired.Some? then 5 else 3)
    ensures r.trace[..|s.trace|] == s.trace
    ensures r.trace[|s.trace| + 2] == AcquireSurfaceTexture(acquired)
    ensures Consistent(s) ==> Consistent(r)
  {
    var u := AfterUpdateUniforms(w, AfterFrameStart(s, now));
    var t := u.trace + [AcquireSurfaceTexture(acquired)];
    match acquired
    case None => u.(trace := t)
    case Some(image) => u.(trace := t + [Submit(FrameCommands(w, u, image)), Present(SurfaceTexture(image))])
  }

  /** Motion events applied in order. */
  function AfterMouseMotions(s: GraphicsState, motions: seq<Vec2>): GraphicsState
    decreases |motions|
  {
    if motions == [] then s
    else AfterMouseMotions(AfterMouseMotion(s, motions[0].x, motions[0].y), motions[1..])
  }

  function SumVec2(vs: seq<Vec2>): Vec2
    decreases |vs|
  {
    if vs == [] then VEC2_ZERO else AddVec2(vs[0], SumVec2(vs[1..]))
  }

  // ---- Properties of the transitions ----

  /** The surface takes the format the adapter prefers, while the pipeline's
      colour target is fixed to `Bgra8UnormSrgb`: the two agree exactly when
      the adapter prefers that format, and nothing checks that it does. */
  lemma SurfaceFormatMeetsColorTarget(windowWidth: U32, windowHeight: U32, format: TextureFormat, start: Tick, prevStart: Tick)
    ensures var target := InitialWiring().renderPass.pipeline.targets;
      && |target| == 1
      && (InitialState(windowWidth, windowHeight, format, start, prevStart).surfaceConfig.format == target[0].format
          <==> format == Bgra8UnormSrgb)
  {
  }

  /** `create_graphics` starts from a surface of at least 1x1, uniforms at
      zero but for the resolution, no keys held, no motion, an untransformed
      camera with the surface's aspect ratio, and a consistent state. */
  lemma InitialStateConsistent(windowWidth: U32, windowHeight: U32, format: TextureFormat, start: Tick, prevStart: Tick)
    ensures var s := InitialState(windowWidth, windowHeight, format, start, prevStart);
      && Consistent(s)
      && s.surfaceConfig.width == (if windowWidth == 0 then 1 else windowWidth)
      && s.surfaceConfig.height == (if windowHeight == 0 then 1 else windowHeight)
      && s.globals.frame == 0 && s.globals.timePassed == 0 && s.globals.frameTime == 0
      && s.globals.mousePos == VEC2_ZERO
      && s.metadata.keyboardState == {} && s.metadata.deltaMouse == VEC2_ZERO
      && s.camera == Cameras.New(AspectRatio(s.surfaceConfig))
      && s.view == ZeroView
      && s.trace == [ConfigureSurface(s.surfaceConfig), CreateTexture(DepthTextureDescriptor(s.surfaceConfig))]
  {
  }

  /** `resize` clamps both sides to at least 1, matches the resolution
      uniform and depth texture to the new size, changes only the camera's
      aspect ratio, configures the surface before recreating the depth
      texture, and keeps the state consistent. */
  lemma ResizeEffect(s: GraphicsState, width: U32, height: U32)
    ensures var r := AfterResize(s, width, height);
      && r.surfaceConfig.width >= 1 && r.surfaceConfig.height >= 1
      && (width >= 1 ==> r.surfaceConfig.width == width)
      && (height >= 1 ==> r.surfaceConfig.height == height)
      && r.surfaceConfig.format == s.surfaceConfig.format
      && r.globals.resolution == (r.surfaceConfig.width, r.surfaceConfig.height)
      && r.globals == s.globals.(resolution := r.globals.resolution)
      && r.camera == s.camera.(aspectRatio := r.camera.aspectRatio)
      && r.camera.aspectRatio * r.surfaceConfig.height as real == r.surfaceConfig.width as real
      && r.metadata == s.metadata && r.view == s.view
      && r.trace == s.trace + [ConfigureSurface(r.surfaceConfig), CreateTexture(DepthTextureDescriptor(r.surfaceConfig))]
      && Consistent(r)
  {
  }

  /** Resizing to nothing gives a 1x1 surface and resolution. */
  lemma ResizeToZero(s: GraphicsState)
    ensures AfterResize(s, 0, 0).globals.resolution == (1, 1)
    ensures AfterResize(s, 0, 0).surfaceConfig.width == 1 == AfterResize(s, 0, 0).surfaceConfig.height
  {
  }

  /** A press adds its key, anything else with a key code removes it, an
      unidentified key changes nothing, and no other key is affected. */
  lemma KeysAfterEvent(keys: set<KeyCode>, event: KeyEvent, other: KeyCode)
    ensures event.physicalKey.Code? && event.state == Pressed ==> event.physicalKey.code in KeysAfter(keys, event)
    ensures event.physicalKey.Code? && event.state == Released ==> event.physicalKey.code !in KeysAfter(keys, event)
    ensures event.physicalKey.Unidentified? ==> KeysAfter(keys, event) == keys
    ensures event.physicalKey != Code(other) ==> (other in KeysAfter(keys, event) <==> other in keys)
  {
  }

  /** Keyboard input changes only the pressed-key set. */
  lemma KeyboardInputOnlyTouchesKeys(s: GraphicsState, event: KeyEvent)
    ensures var r := AfterKeyboardInput(s, event);
      r == s.(metadata := s.metadata.(keyboardState := r.metadata.keyboardState))
    ensures Consistent(s) ==> Consistent(AfterKeyboardInput(s, event))
  {
  }

  /** Mouse motion changes only the accumulated delta, and the cursor
      position changes only the mouse uniform. */
  lemma PointerInputOnlyTouchesPointer(s: GraphicsState, dx: real, dy: real, mousePos: Vec2)
    ensures var r := AfterMouseMotion(s, dx, dy);
      && r.metadata.deltaMouse == Vec2(s.metadata.deltaMouse.x + dx, s.metadata.deltaMouse.y + dy)
      && r == s.(metadata := s.metadata.(deltaMouse := r.metadata.deltaMouse))
    ensures AfterMousePos(s, mousePos).globals.mousePos == mousePos
    ensures AfterMousePos(s, mousePos) == s.(globals := s.globals.(mousePos := mousePos))
    ensures Consistent(s) ==> Consistent(AfterMouseMotion(s, dx, dy)) && Consistent(AfterMousePos(s, mousePos))
  {
  }

  /** A run of motion events adds up: the delta grows by the sum of the
      motions, and nothing else changes. */
  lemma {:induction false} MotionsAccumulate(s: GraphicsState, motions: seq<Vec2>)
    ensures var r := AfterMouseMotions(s, motions);
      && r.metadata.deltaMouse == AddVec2(s.metadata.deltaMouse, SumVec2(motions))
      && r == s.(metadata := s.metadata.(deltaMouse := r.metadata.deltaMouse))
    decreases |motions|
  {
    if motions != [] {
      MotionsAccumulate(AfterMouseMotion(s, motions[0].x, motions[0].y), motions[1..]);
    }
  }

  /** The movement intent reads only W, A, S, D and left Shift: each axis is
      -1, 0 or 1, opposite keys cancel, and Shift multiplies by 5. */
  lemma IntentReadsMovementKeys(keys: set<KeyCode>, other: set<KeyCode>)
    ensures -1 <= Intent(keys).forward <= 1 && -1 <= Intent(keys).right <= 1
    ensures Intent(keys).forward == 1 <==> KeyW in keys && KeyS !in keys
    ensures Intent(keys).forward == -1 <==> KeyS in keys && KeyW !in keys
    ensures Intent(keys).right == 1 <==> KeyD in keys && KeyA !in keys
    ensures Intent(keys).right == -1 <==> KeyA in keys && KeyD !in keys
    ensures Intent(keys).boost == (if ShiftLeft in keys then 5 else 1)
    ensures (KeyW in keys <==> KeyW in other) && (KeyA in keys <==> KeyA in other)
         && (KeyS in keys <==> KeyS in other) && (KeyD in keys <==> KeyD in other)
         && (ShiftLeft in keys <==> ShiftLeft in other)
         ==> Intent(keys) == Intent(other)
  {
  }

  /** `update` consumes the accumulated motion (the delta is zero
      afterwards), keeps the pressed keys, both instants, the uniforms and
      the surface, and changes only the camera's pose. */
  lemma UpdateEffect(s: GraphicsState, now: Tick, integrate: CameraIntegrator)
    ensures var r := AfterUpdate(s, now, integrate);
      && r.metadata.deltaMouse == VEC2_ZERO
      && r.metadata.keyboardState == s.metadata.keyboardState
      && r.metadata.startInstant == s.metadata.startInstant
      && r.metadata.prevFrameStartInstant == s.metadata.prevFrameStartInstant
      && r.globals == s.globals && r.view == s.view
      && r.surfaceConfig == s.surfaceConfig && r.depthTexture == s.depthTexture && r.trace == s.trace
      && r.camera.fov == s.camera.fov && r.camera.aspectRatio == s.camera.aspectRatio
      && r.camera.speed == s.camera.speed && r.camera.sensitivity == s.camera.sensitivity
    ensures Consistent(s) ==> Consistent(AfterUpdate(s, now, integrate))
  {
  }

  /** Between two updates, mouse look sees exactly the motion reported in
      between. */
  lemma MouseLookSeesAccumulatedMotion(s: GraphicsState, motions: seq<Vec2>, now: Tick, integrate: CameraIntegrator)
    requires s.metadata.deltaMouse == VEC2_ZERO
    ensures var r := AfterUpdate(AfterMouseMotions(s, motions), now, integrate);
      && r.camera == Cameras.WithPose(s.camera, integrate(
           s.camera, Intent(s.metadata.keyboardState), SumVec2(motions),
           Elapsed(s.metadata.prevFrameStartInstant, now)))
      && r.metadata.deltaMouse == VEC2_ZERO
  {
    MotionsAccumulate(s, motions);
    var m := AfterMouseMotions(s, motions);
    assert m.metadata.deltaMouse == SumVec2(motions);
  }

  /** `draw` advances the frame counter by one (wrapping at 2^32), takes
      both times from the same `now`, which becomes the new frame start,
      derives the view from the camera, and changes no input state. */
  lemma DrawAdvancesFrame(w: Wiring, s: GraphicsState, now: Tick, acquired: Option<nat>)
    ensures var r := AfterDraw(w, s, now, acquired);
      && r.globals.frame == (s.globals.frame + 1) % U32_MODULUS
      && (s.globals.frame + 1 < U32_MODULUS ==> r.globals.frame == s.globals.frame + 1)
      && r.metadata.prevFrameStartInstant == now
      && (s.metadata.startInstant <= now ==> s.metadata.startInstant + r.globals.timePassed == now)
      && (s.metadata.prevFrameStartInstant <= now ==> s.metadata.prevFrameStartInstant + r.globals.frameTime == now)
      && r.view == DerivedFrom(s.camera)
      && r.camera == s.camera && r.surfaceConfig == s.surfaceConfig && r.depthTexture == s.depthTexture
      && r.metadata == s.metadata.(prevFrameStartInstant := now)
      && r.globals.mousePos == s.globals.mousePos && r.globals.resolution == s.globals.resolution
    ensures Consistent(s) ==> Consistent(AfterDraw(w, s, now, acquired))
  {
  }

  /** The effects of one `draw`, in order: the globals upload (already
      holding the new frame number and times), the view upload (already
      holding the recomputed view), the acquisition, then, if an image was
      acquired, one submission and the presentation of that same image. */
  lemma DrawEffectOrder(w: Wiring, s: GraphicsState, now: Tick, acquired: Option<nat>)
    ensures var r := AfterDraw(w, s, now, acquired);
      var n := |s.trace|;
      && |r.trace| == n + (if acquired.Some? then 5 else 3)
      && r.trace[..n] == s.trace
      && r.trace[n] == WriteBuffer(w.buffers.globals, 0, GlobalsBytes(r.globals))
      && r.trace[n + 1] == WriteBuffer(w.buffers.view, 0, ViewBytes(DerivedFrom(s.camera)))
      && r.trace[n + 2] == AcquireSurfaceTexture(acquired)
      && (acquired.Some? ==>
            && r.trace[n + 3] == Submit(FrameCommands(w, r, acquired.value))
            && r.trace[n + 4] == Present(SurfaceTexture(acquired.value)))
      && (forall k :: n <= k < |r.trace| ==> (r.trace[k].Present? <==> acquired.Some? && k == n + 4))
  {
  }

  /** Each uniform upload of the wiring `create_graphics` builds writes a
      whole record at offset 0 of a buffer exactly that size, which allows
      copies into it. */
  lemma UploadsFitBuffers(s: GraphicsState, k: nat)
    requires k < 2
    ensures var e := Uploads(InitialWiring(), s)[k];
      && e.WriteBuffer? && e.offset == 0
      && BufferPool.CopyDst in e.buffer.usage
      && e.buffer.size == (if e.data.GlobalsBytes? then SizeOf(GLOBALS_DECL) else SizeOf(VIEW_DECL))
      && (k == 0 <==> e.data.GlobalsBytes?)
  {
    BufferPool.UniformBuffersHoldOneRecord(3);
    assert BufferPool.Get(BufferPool.New(3), Layouts.GlobalsSlot) == InitialWiring().buffers.globals;
    assert BufferPool.Get(BufferPool.New(3), Layouts.ViewSlot) == InitialWiring().buffers.view;
  }

  /** With the wiring `create_graphics` builds, a frame's submission renders
      into the acquired image (cleared to black) with the state's depth
      texture (cleared to 0.0), binds render group `k` at index `k` with
      exactly the layout the pipeline declares at `k`, and draws once: the
      three vertices `Buffers::new` allocated, as one instance. */
  lemma FrameRendersAcquiredImage(s: GraphicsState, image: nat)
    ensures var c := FrameCommands(InitialWiring(), s, image);
      var pipeline := InitialWiring().renderPass.pipeline;
      && |c| == 8
      && c[0].BeginRenderPass?
      && c[0].colorAttachments == [Rendering.ColorAttachment(WholeTexture(SurfaceTexture(image)), None,
                                    Rendering.Operations(Rendering.Clear(Rendering.BLACK), Rendering.Store))]
      && c[0].depthStencilAttachment == Some(Rendering.DepthAttachment(WholeTexture(s.depthTexture),
                                    Some(Rendering.Operations(Rendering.Clear(0.0), Rendering.Store)), None))
      && c[1] == Rendering.SetPipeline(pipeline)
      && (forall k :: 0 <= k < 3 ==>
            c[2 + k].SetBindGroup? && c[2 + k].index == k && c[2 + k].group.layout == pipeline.bindGroupLayouts[k])
      && c[5] == Rendering.SetVertexBuffer(0, InitialWiring().buffers.vertices)
      && c[6] == Rendering.Draw(Rendering.Range(0, 3), Rendering.Range(0, 1))
      && (forall k :: 0 <= k < |c| ==> (c[k].Draw? <==> k == 6))
  {
    var w := InitialWiring();
    var groups := Bindings.AsSlice(w.bindGroupsRender);
    Rendering.PassStructure(w.renderPass, WholeTexture(SurfaceTexture(image)), WholeTexture(s.depthTexture), groups, w.buffers.vertices);
    Rendering.DrawsEveryVertex(3);
    forall k | 0 <= k < 3
      ensures groups[k].layout == w.renderPass.pipeline.bindGroupLayouts[k]
    {
      Bindings.SlicesAgree(w.bindGroupLayoutsRender, w.buffers, k);
    }
  }

  // ---- The orchestrator object ----

  class Graphics {
    const wiring: Wiring
    var surfaceConfig: SurfaceConfig
    var depthTexture: Texture
    var camera: Cameras.Camera
    var metadata: Metadata
    var globals: Globals
    var view: View
    var trace: seq<Effect>

    function State(): GraphicsState
      reads this
    {
      GraphicsState(surfaceConfig, depthTexture, camera, metadata, globals, view, trace)
    }

    predicate Valid()
      reads this
    {
      Consistent(State())
    }

    /** `create_graphics` after the window, adapter and device exist: the
        window's inner size, the surface's preferred format and the two
        instants `Metadata::new` reads. */
    constructor (windowWidth: U32, windowHeight: U32, format: TextureFormat, start: Tick, prevStart: Tick)
      ensures wiring == InitialWiring()
      ensures State() == InitialState(windowWidth, windowHeight, format, start, prevStart)
      ensures Valid()
    {
      var width := MaxOne(windowWidth);
      var height := MaxOne(windowHeight);
      var config := SurfaceConfig(format, width, height);
      var configured := [ConfigureSurface(config)];
      var depth := DepthTextureDescriptor(config);
      wiring := InitialWiring();
      surfaceConfig := config;
      depthTexture := Created(depth);
      camera := Cameras.New(AspectRatio(config));
      metadata := NewMetadata(start, prevStart);
      globals := DefaultGlobals().(resolution := (width, height));
      view := ZeroView;
      trace := configured + [CreateTexture(depth)];
      new;
      InitialStateConsistent(windowWidth, windowHeight, format, start, prevStart);
    }

    method SetMousePos(mousePos: Vec2)
      requires Valid()
      modifies this
      ensures Valid()
      ensures State() == AfterMousePos(old(State()), mousePos)
    {
      globals := globals.(mousePos := mousePos);
    }

    method HandleMouseMotion(dx: real, dy: real)
      requires Valid()
      modifies this
      ensures Valid()
      ensures State() == AfterMouseMotion(old(State()), dx, dy)
    {
      metadata := metadata.(deltaMouse := AddVec2(metadata.deltaMouse, Vec2(dx, dy)));
    }

    method HandleKeyboardInput(event: KeyEvent)
      requires Valid()
      modifies this
      ensures Valid()
      ensures State() == AfterKeyboardInput(old(State()), event)
    {
      match event.physicalKey {
        case Unidentified(_) =>
          return;
        case Code(k) =>
          if event.state == Pressed {
            metadata := metadata.(keyboardState := metadata.keyboardState + {k});
          } else {
            metadata := metadata.(keyboardState := metadata.keyboardState - {k});
          }
      }
    }

    method RequestRedraw()
      requires Valid()
      modifies this
      ensures Valid()
      ensures State() == AfterRequestRedraw(old(State()))
    {
      trace := trace + [RedrawRequest];
    }

    method Resize(width: U32, height: U32)
      requires Valid()
      modifies this
      ensures Valid()
      ensures State() == AfterResize(old(State()), width, height)
    {
      surfaceConfig := surfaceConfig.(width := MaxOne(width));
      surfaceConfig := surfaceConfig.(height := MaxOne(height));
      trace := trace + [ConfigureSurface(surfaceConfig)];
      camera := camera.(aspectRatio := AspectRatio(surfaceConfig));
      globals := globals.(resolution := (surfaceConfig.width, surfaceConfig.height));
      var depth := DepthTextureDescriptor(surfaceConfig);
      trace := trace + [CreateTexture(depth)];
      depthTexture := Created(depth);
      ResizeEffect(old(State()), width, height);
    }

    /** The compute stage, which records nothing yet. */
    method RunCs(encoder: Rendering.CommandEncoder)
      modifies encoder
      ensures encoder.commands == old(encoder.commands)
    {
    }

    /** The render stage: the render pass into `frame`, with the depth texture,
        the render bind groups and the vertex buffer. */
    method RunRs(encoder: Rendering.CommandEncoder, frame: Texture)
      modifies encoder
      ensures encoder.commands == old(encoder.commands) + Rendering.PassCommands(
        wiring.renderPass, WholeTexture(frame), WholeTexture(depthTexture),
        Bindings.AsSlice(wiring.bindGroupsRender), wiring.buffers.vertices)
    {
      Rendering.Encode(
        wiring.renderPass, encoder, WholeTexture(frame), WholeTexture(depthTexture),
        Bindings.AsSlice(wiring.bindGroupsRender), wiring.buffers.vertices);
    }

    method UpdateUniforms()
      requires Valid()
      modifies this
      ensures Valid()
      ensures State() == AfterUpdateUniforms(wiring, old(State()))
    {
      trace := trace + [WriteBuffer(wiring.buffers.globals, 0, GlobalsBytes(globals))];
      trace := trace + [WriteBuffer(wiring.buffers.view, 0, ViewBytes(view))];
    }

    /** `update`, with the f32 integration supplied as `integrate`. */
    method Update(now: Tick, integrate: CameraIntegrator)
      requires Valid()
      modifies this
      ensures Valid()
      ensures State() == AfterUpdate(old(State()), now, integrate)
    {
      var deltaTime := Elapsed(metadata.prevFrameStartInstant, now);
      var intent := Intent(metadata.keyboardState);
      var pose := integrate(camera, intent, metadata.deltaMouse, deltaTime);
      camera := Cameras.WithPose(camera, pose);
      metadata := metadata.(deltaMouse := VEC2_ZERO);
      UpdateEffect(old(State()), now, integrate);
    }

    /** `draw`, given the surface's answer to `get_current_texture`; `ok` is
        false exactly when there was no image, where the source panics. */
    method Draw(now: Tick, acquired: Option<nat>) returns (ok: bool)
      requires Valid()
      modifies this
      ensures Valid()
      ensures ok == acquired.Some?
      ensures State() == AfterDraw(wiring, old(State()), now, acquired)
    {
      ghost var before := State();
      globals := globals.(frame := WrapU32(globals.frame + 1));
      globals := globals.(timePassed := Elapsed(metadata.startInstant, now));
      globals := globals.(frameTime := Elapsed(metadata.prevFrameStartInstant, now));
      metadata := metadata.(prevFrameStartInstant := now);
      view := DerivedFrom(camera);
      assert State() == AfterFrameStart(before, now);
      UpdateUniforms();
      ghost var uploaded := State();
      trace := trace + [AcquireSurfaceTexture(acquired)];
      if acquired.None? {
        return false;
      }
      var frame := SurfaceTexture(acquired.value);
      var encoder := new Rendering.CommandEncoder();
      RunCs(encoder);
      RunRs(encoder, frame);
      assert encoder.commands == FrameCommands(wiring, uploaded, acquired.value);
      trace := trace + [Submit(encoder.commands)];
      trace := trace + [Present(frame)];
      ok := true;
    }
  }
}
