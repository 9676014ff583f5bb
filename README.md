# rust-voxel-blocks renderer core, modelled in Dafny

The repository is a small wgpu/winit renderer scaffold. A winit `App`
waits in `Init` until the `Graphics` object built on `resumed` arrives
through the event loop proxy (`user_event`). From then on, `App` forwards
window and device events to it. `Graphics` owns:

- the surface configuration and the depth texture;
- the camera;
- host-side metadata (two instants, the pressed-key set, and the mouse
  motion since the last update);
- the `Globals` and `View` uniforms;
- a render pipeline, three buffers, two sets of bind group layouts
  (compute and render) and the bind groups that pair those layouts with
  the buffers.

Each `RedrawRequested` does four things in order:

1. it updates the camera;
2. it advances the frame counter and the times;
3. it uploads the uniforms;
4. it acquires a swapchain image, records one render pass into it, submits
   the pass and presents the image.

This project models that core, one module per source file.

- `Types`: Rust `u32`/`u64` with explicit wrap-around, `Instant` as clock
  ticks with saturating subtraction, and the glam vectors.
- `Input`: the winit event types the handlers look at.
- `Cameras`: the `Camera` record and `Camera::new`.
- `Structures`: the `#[repr(C)]` layout rules (field placement, alignment,
  size). It computes the layouts of `Globals`, `View` and `VertexBuffer`,
  and models `Metadata::new`.
- `Gpu`: texture descriptors and views.
- `Layouts`, `BufferPool` and `Bindings`: bind group layouts, buffers and
  bind groups as descriptor records, with the slot-by-slot wiring between
  them.
- `Rendering`: the pipeline descriptor of `RenderPass::new`. It also holds
  a `CommandEncoder` class, and `Encode` appends to it the command sequence
  of `RenderPass::encode` in a loop over the bind groups.
- `Orchestrator`: `Graphics`.
  - Each operation is a function on a `GraphicsState` value.
  - The class `Graphics` performs the operation on its fields and proves
    that its new state is that function of the old state.
  - GPU and window calls are appended, in order, to an effect trace.
  - Every operation keeps `Consistent`: surface at least 1x1, resolution
    uniform equal to it, depth texture of the same size, and camera aspect
    ratio taken from it.
- `Application`: `App`, the `Init`/`Ready` state machine.
  - A ready application's reaction to an event is a function on the
    graphics state (`HandleWindowEvent`).
  - The class `App` performs that reaction.
  - In `Init`, every handler except `resumed` and `user_event` has an
    empty `modifies` frame, so none of them can change anything. `resumed`
    takes the proxy and `user_event` installs the graphics.
  - A panic (`expect` failing) is reported as a `Panic` flow, and the
    handler stops there.

Platform answers are parameters:

- the clock, read once by `update` and once more by `draw` on each redraw;
- the surface image `get_current_texture` returns;
- whether each cursor grab is granted;
- whether the window, adapter and device could be created.

## Model

| member | source | states |
|---|---|---|
| Types.WrapU32 | src/graphics/graphics.rs:257 | The `u32` frame counter and the `as u32` casts stay below 2^32, and a value already in range is unchanged |
| Types.WrapU64 | src/graphics/buffers.rs:28 | The `u64` buffer size product is the exact product whenever it fits in 64 bits |
| Types.Elapsed | src/graphics/graphics.rs:258-259 | Instant subtraction gives the ticks from the earlier to the later instant, and zero if the later one is not later |
| Cameras.WithPose | src/graphics/graphics.rs:249-250 | Moving the camera and turning it keep its fov, aspect ratio, speed and sensitivity |
| Cameras.New | src/graphics/camera.rs:20-31 | `Camera::new`: at the origin with no rotation, yaw or pitch, a 90-degree fov, speed 5, sensitivity 0.002 and the given aspect ratio |
| Structures.AlignUp | src/graphics/structures.rs:7-16 | Rounding a field offset up gives the least multiple of the alignment at or after the cursor |
| Structures.PlacementSound | src/graphics/structures.rs:7-43 | Fields placed in declaration order are each aligned, lie inside the struct and never overlap |
| Structures.LayoutSound | src/graphics/structures.rs:7-43 | A repr(C) struct's alignment is at least its `align(N)`; its size is a multiple of that alignment; every field is aligned, inside the size and disjoint from the others |
| Structures.GlobalsLayout | src/graphics/structures.rs:7-16 | `Globals` has offsets 0, 8, 16, 20, 24, 28, size 32 and alignment 16 |
| Structures.ViewLayout | src/graphics/structures.rs:18-26 | `View` is four matrices at 0, 64, 128, 192 with `camera_position` at 256; size 272, alignment 16 |
| Structures.VertexBufferLayout | src/graphics/structures.rs:36-43 | `VertexBuffer` has position at 0, normal at 16, uv at 32, size 64 and alignment 64 |
| Structures.NewMetadata | src/graphics/structures.rs:45-53 | `Metadata::new` starts with no keys held, zero mouse motion and the two instants it read |
| Structures.DefaultGlobals | src/graphics/structures.rs:8-16 | `Globals::default()`: mouse position, resolution, both times and the frame counter are all zero |
| Layouts.StageAccess | src/graphics/bind_group_layouts.rs:15-24 | The compute stage sees a layout iff the usage is Compute, and the vertex stage and the fragment stage each iff it is Render; storage is read-only iff Render |
| Layouts.New | src/graphics/bind_group_layouts.rs:14-69 | Each of the three layouts has one entry, at binding 0, visible to the usage's stages; only the vertices slot is a storage binding (see `Layouts.LayoutEntries` for the remaining fields) |
| Layouts.AsSlice | src/graphics/bind_group_layouts.rs:71-73 | The slice has three layouts, each slot's layout at that slot's index: globals, view, vertices |
| Layouts.LayoutEntries | src/graphics/bind_group_layouts.rs:26-68 | Each layout has exactly one entry: binding 0, the usage's stages, no dynamic offset, no minimum size, no count. Uniform for globals and view; storage for vertices, read-only iff Render |
| Layouts.WritableIffComputeVertices | src/graphics/bind_group_layouts.rs:14-68 | A layout is shader-writable iff it is the compute usage's vertices layout |
| Layouts.RenderStagesOnlyRead | src/graphics/bind_group_layouts.rs:20-23 | No entry visible to the vertex or fragment stage is writable |
| Layouts.UsagesDifferOnlyInAccess | src/graphics/bind_group_layouts.rs:14-68 | A slot's compute and render layouts are equal once visibility and storage access are erased, and differ otherwise |
| BufferPool.VertexStride | src/graphics/buffers.rs:28 | One vertex record is 64 bytes |
| BufferPool.New | src/graphics/buffers.rs:12-33 | The uniform buffers are 32 and 272 bytes; the vertices buffer is `vertex_count * 64` bytes whenever that fits in a `u64`; every buffer accepts copies and starts unmapped (roles in `BufferPool.BufferRoles`) |
| BufferPool.UniformBuffersHoldOneRecord | src/graphics/buffers.rs:14-31 | The globals buffer is `size_of::<Globals>()` = 32 bytes and the view buffer `size_of::<View>()` = 272; every buffer allows copies in; none is mapped at creation |
| BufferPool.BufferRoles | src/graphics/buffers.rs:17-29 | Only the vertices buffer has VERTEX and STORAGE usage; exactly the globals and view buffers have UNIFORM; no other usage appears |
| BufferPool.VertexBufferRecords | src/graphics/buffers.rs:26-31 | The vertices buffer holds a whole number of 64-byte records, `vertex_count` of them modulo the `u64` wrap |
| Bindings.AsSlice | src/graphics/bind_groups.rs:57-59 | The slice has three groups, each slot's group at that slot's index: globals, bview, vertices |
| Bindings.New | src/graphics/bind_groups.rs:12-55 | The group of each slot uses that slot's layout and binds that slot's buffer whole at binding 0, offset 0 |
| Bindings.NewIsCompatible | src/graphics/bind_groups.rs:12-55 | For either usage, each group's entries fit its layout: uniform slots get uniform buffers and the storage slot gets the storage buffer |
| Bindings.SlicesAgree | src/graphics/bind_groups.rs:12-59 | Group i of the slice uses layout i of the layout slice and binds the buffer of slot i whole (binding 0, offset 0, no size) |
| Bindings.UsagesShareBuffers | src/graphics/graphics.rs:58-61 | Compute and render groups bind the same buffers slot for slot, against different layouts |
| Rendering.SetBindGroups | src/graphics/render_pass.rs:115-117 | The bind-group loop records one command per group |
| Rendering.VertexLayout | src/graphics/render_pass.rs:28-47 | One per-vertex layout with a 64-byte stride and three attributes at shader locations 0, 1, 2 (offsets and widths in `Rendering.VertexLayoutMatchesRecord`) |
| Rendering.New | src/graphics/render_pass.rs:10-83 | The pipeline uses the given bind group layouts and the single vertex layout, has one colour target of format `Bgra8UnormSrgb` and a Depth32Float depth attachment |
| Rendering.DrawCount | src/graphics/render_pass.rs:119-122 | The vertex count `size / 64` as `u32`: never more records than the buffer holds, and exactly `size / 64` when that fits in a `u32` |
| Rendering.PassCommands | src/graphics/render_pass.rs:92-122 | One command per bind group plus five: begin first, the pipeline second, the draw fourth from last, end last (full order in `Rendering.PassStructure`) |
| Rendering.SetBindGroupsAt | src/graphics/render_pass.rs:115-117 | The k-th bind command binds group k at index `k as u32` |
| Rendering.Encode | src/graphics/render_pass.rs:84-123 | `encode` appends exactly the pass commands to the encoder's earlier commands |
| Rendering.PassStructure | src/graphics/render_pass.rs:92-122 | The pass begins with the colour and depth attachments, sets the pipeline, binds group k at index k in slice order, binds the whole vertex buffer at slot 0, draws `0..size/64` vertices and `0..1` instances, then ends; no other command draws |
| Rendering.DrawsEveryVertex | src/graphics/render_pass.rs:119-122 | On the buffer `Buffers::new(n)` makes, the draw covers n vertices (mod 2^32) |
| Rendering.VertexLayoutMatchesRecord | src/graphics/render_pass.rs:28-47 | The stride is `size_of::<VertexBuffer>()`. Location i reads field i at that field's offset, with a format as wide as the field. The attributes lie inside the stride and do not overlap |
| Rendering.ReversedZ | src/graphics/render_pass.rs:66-76 | Back faces are culled, depth is Depth32Float and written. A fragment passes iff its depth is at least the stored one, so every depth ≥ 0 passes against the 0.0 clear |
| Orchestrator.MaxOne | src/graphics/graphics.rs:168-169 | `max(x, 1)`: at least 1 and at least x, and either x or 1 |
| Orchestrator.DepthTextureDescriptor | src/graphics/graphics.rs:94-115 | The depth texture is the surface's width and height, one layer, one sample, Depth32Float, usable only as a render attachment |
| Orchestrator.InitialWiring | src/graphics/graphics.rs:48-61 | The compute and render layouts of `BindGroupLayouts::new`; the pipeline declares the render layouts in slot order; each usage's groups pair its own layouts slot by slot; the vertex buffer holds three 64-byte records |
| Orchestrator.InitialState | src/graphics/graphics.rs:39-89 | The initial state is consistent, takes the surface's preferred format, and keeps a non-zero window size as it is |
| Orchestrator.SurfaceFormatMeetsColorTarget | src/graphics/graphics.rs:42 | The surface format agrees with the pipeline's single colour target exactly when the adapter prefers `Bgra8UnormSrgb` |
| Orchestrator.InitialStateConsistent | src/graphics/graphics.rs:39-89 | `create_graphics`: surface clamped to at least 1x1; resolution equals it; frame 0, times 0, no keys, no motion; `Camera::new(w/h)`; zero view. The surface is configured before the depth texture is created |
| Orchestrator.ResizeEffect | src/graphics/graphics.rs:167-183 | Both sides clamp to at least 1 (a non-zero size is kept). The resolution uniform and depth texture follow the new size. The camera changes only its aspect ratio, to w/h. Configure happens before texture creation. The state stays consistent |
| Orchestrator.ResizeToZero | src/graphics/graphics.rs:168-177 | `resize(0, 0)` gives a 1x1 surface and resolution |
| Orchestrator.AfterResize | src/graphics/graphics.rs:167-183 | A resize always gives a consistent state, keeps the surface format, and keeps a non-zero width or height as given |
| Orchestrator.KeysAfterEvent | src/graphics/graphics.rs:151-161 | A press inserts its key code and a release removes it. An unidentified key changes nothing. No other key is affected |
| Orchestrator.KeysAfter | src/graphics/graphics.rs:151-161 | After an identified key event, that key is held iff the event is a press; every other key is held iff it was before |
| Orchestrator.KeyboardInputOnlyTouchesKeys | src/graphics/graphics.rs:151-161 | Keyboard input changes only the pressed-key set |
| Orchestrator.PointerInputOnlyTouchesPointer | src/graphics/graphics.rs:143-149 | Mouse motion adds to `delta_mouse` and changes nothing else; `set_mouse_pos` changes only `globals.mouse_pos` |
| Orchestrator.MotionsAccumulate | src/graphics/graphics.rs:147-149 | A run of motion events adds their sum to `delta_mouse` and changes nothing else |
| Orchestrator.IntentReadsMovementKeys | src/graphics/graphics.rs:205-244 | Movement depends only on W, A, S, D and left Shift: each axis is -1, 0 or 1, opposite keys cancel, Shift multiplies by 5 |
| Orchestrator.Intent | src/graphics/graphics.rs:206-244 | Each movement axis is -1, 0 or 1 and is 0 exactly when both or neither of its keys are held; the boost is 5 with left Shift held and 1 otherwise |
| Orchestrator.UpdateEffect | src/graphics/graphics.rs:204-252 | `update` zeroes `delta_mouse`. It keeps the key set, both instants, the uniforms and the surface, and changes only the camera's pose |
| Orchestrator.AfterUpdate | src/graphics/graphics.rs:204-252 | `update` zeroes `delta_mouse`, leaves the rest of the metadata, the uniforms and the effects alone, and keeps the state consistent |
| Orchestrator.MouseLookSeesAccumulatedMotion | src/graphics/graphics.rs:204-252 | Between two updates, mouse look receives exactly the sum of the motion reported in between |
| Orchestrator.DrawAdvancesFrame | src/graphics/graphics.rs:254-262 | `draw` adds one to the frame counter (wrapping at 2^32). It takes both times from one `now`, which becomes the new frame start, derives the view from the camera, and keeps input state and consistency |
| Orchestrator.AfterFrameStart | src/graphics/graphics.rs:254-262 | The frame counter advances by one mod 2^32, the frame time is the ticks since the previous frame start, `now` becomes the frame start, and consistency is kept |
| Orchestrator.AfterDraw | src/graphics/graphics.rs:254-279 | `draw` only appends effects: three when no image is acquired and five when one is, the third always the acquisition; consistency is kept |
| Orchestrator.DrawEffectOrder | src/graphics/graphics.rs:262-278 | A frame's effects, in order: globals upload (new counter), view upload (new view), acquire. If an image was acquired: one submission, then presenting that image, with no other present |
| Orchestrator.UploadsFitBuffers | src/graphics/graphics.rs:197-202 | Each uniform upload writes a whole record at offset 0 of a copy-destination buffer of exactly that record's size, globals first |
| Orchestrator.FrameRendersAcquiredImage | src/graphics/graphics.rs:187-195 | The submitted pass renders into the acquired image (cleared black) with the state's depth texture (cleared to 0). It binds render group k at k with the layout the pipeline declares at k, and draws 3 vertices once |
| Orchestrator.Graphics.constructor | src/graphics/graphics.rs:14-92 | The built object has the initial wiring and the initial state, and is consistent |
| Orchestrator.Graphics.SetMousePos | src/graphics/graphics.rs:143-145 | The new state is `AfterMousePos` of the old one |
| Orchestrator.Graphics.HandleMouseMotion | src/graphics/graphics.rs:147-149 | The new state is `AfterMouseMotion` of the old one |
| Orchestrator.Graphics.HandleKeyboardInput | src/graphics/graphics.rs:151-161 | The new state is the old one with the key set after the event |
| Orchestrator.Graphics.RequestRedraw | src/graphics/graphics.rs:163-165 | A redraw request is appended to the effects |
| Orchestrator.Graphics.Resize | src/graphics/graphics.rs:167-183 | The new state is `AfterResize` of the old one and stays consistent |
| Orchestrator.Graphics.RunCs | src/graphics/graphics.rs:185 | The compute stage records nothing |
| Orchestrator.Graphics.RunRs | src/graphics/graphics.rs:187-195 | The render stage appends the render pass into the frame, with the depth texture, render bind groups and vertex buffer |
| Orchestrator.Graphics.UpdateUniforms | src/graphics/graphics.rs:197-202 | The globals then the view upload are appended |
| Orchestrator.Graphics.Update | src/graphics/graphics.rs:204-252 | The new state is `AfterUpdate` of the old one |
| Orchestrator.Graphics.Draw | src/graphics/graphics.rs:254-279 | The new state is `AfterDraw` of the old one; `ok` is false exactly when no image was acquired (the source panics there) |
| Application.CaptureMouseOutcome | src/app.rs:60-73 | Locking is tried first, and confining only if locking is refused. The cursor is hidden iff a grab was granted. The handler panics iff both are refused. Only the effect log changes |
| Application.ReleaseMouseOutcome | src/app.rs:75-84 | Releasing requests no grab; the cursor is shown iff the release is granted; otherwise the handler panics |
| Application.AfterCaptureMouse | src/app.rs:60-73 | Only the effect log grows; the handler continues iff locking or confining is granted, and otherwise panics with the grab message |
| Application.AfterReleaseMouse | src/app.rs:75-84 | Only the effect log grows; the handler continues iff the release is granted, and otherwise panics with the release message |
| Application.HandleWindowEvent | src/app.rs:117-165 | A ready application exits exactly on `CloseRequested`, and every window event keeps the graphics consistent |
| Application.HandleDeviceEvent | src/app.rs:167-180 | A device event changes at most the accumulated mouse motion; an event other than mouse motion changes nothing |
| Application.RedrawUpdatesThenDraws | src/app.rs:125-128 | Update runs before draw: the camera moves by the ticks up to `update`'s own clock reading, the view is derived from the updated camera and the motion is consumed. Frame time, time passed and the new frame start come from `draw`'s separate clock reading. The next redraw is requested after presenting, or the handler panics if no image was acquired |
| Application.EscapeReleasesThenForwards | src/app.rs:151-162 | A pressed Escape releases the mouse and is still forwarded, so Escape is then held. If the release panics, the key set is untouched |
| Application.OtherKeysOnlyForwarded | src/app.rs:151-162 | Any other key event only updates the key set |
| Application.MouseButtonsRoute | src/app.rs:134-150 | A left press captures the mouse and a right press releases it; any other button event changes nothing |
| Application.CloseExits | src/app.rs:129 | Closing the window exits the loop and changes nothing |
| Application.WindowEventsKeepConsistent | src/app.rs:117-165 | Every window event keeps the graphics consistent. Only `CloseRequested` exits. Only a redraw can fail to acquire an image. Only redraw, mouse and keyboard events can panic |
| Application.App.constructor | src/app.rs:23-27 | The app starts in `Init` holding the proxy |
| Application.App.Update | src/app.rs:29-33 | The app state is unchanged; when ready, the graphics state is `AfterUpdate` of the old one; in `Init` nothing can change |
| Application.App.Draw | src/app.rs:35-40 | When ready: draw, then request a redraw if an image was acquired, else panic; in `Init` nothing changes |
| Application.App.Resized | src/app.rs:42-46 | When ready the graphics are resized; in `Init` nothing changes |
| Application.App.CursorMoved | src/app.rs:48-52 | When ready the mouse position is set; in `Init` nothing changes |
| Application.App.MouseMotion | src/app.rs:54-58 | When ready the motion is accumulated; in `Init` nothing changes |
| Application.App.CaptureMouse | src/app.rs:60-73 | When ready the effects and outcome are those of `AfterCaptureMouse`; in `Init` nothing changes |
| Application.App.ReleaseMouse | src/app.rs:75-84 | When ready the effects and outcome are those of `AfterReleaseMouse`; in `Init` nothing changes |
| Application.App.KeyboardInput | src/app.rs:86-90 | When ready the key set is updated; in `Init` nothing changes |
| Application.App.Resumed | src/app.rs:94-110 | Only `Init` with a proxy acts: it takes the proxy (leaving `Init(None)`) and posts fresh, consistent initial graphics unless window, adapter or device creation panics. Any other state is left as it was and nothing is posted |
| Application.App.UserEvent | src/app.rs:112-115 | The delivered graphics request a redraw, and the app becomes `Ready` with them |
| Application.App.WindowEvent | src/app.rs:117-165 | The app state never changes. When ready, graphics and flow are `HandleWindowEvent`'s, with `update` and `draw` each given their own clock reading. In `Init` only `CloseRequested` has an effect (exit) |
| Application.App.DeviceEvent | src/app.rs:167-180 | When ready, mouse motion is accumulated and other device events are ignored; in `Init` nothing changes |

## Left out

- Camera math (src/graphics/camera.rs: `get_view`, `update_rotation`, `forward`, `right`, the pitch clamp) is not modelled. The same goes for the f32 movement integration in `Graphics::update` (src/graphics/graphics.rs:245-250). Both are f32 vector and quaternion arithmetic. `update` is modelled up to a `CameraIntegrator` parameter, which receives the camera, the movement intent of the held keys, the accumulated mouse motion and the elapsed ticks. The view uniform is recorded as "derived from this camera", not as matrices.
- Orchestrator.Graphics.Update: states only which inputs the new pose is computed from, not the pose itself, because the pose is f32 vector math.
- f32 and f64 values (mouse positions, motion deltas, aspect ratio) are exact reals. `width as f32 / height as f32` is an exact quotient, and the `f64 as f32` casts in `cursor_moved` and `device_event` do not round.
- Times are clock ticks, not `as_secs_f32` seconds.
- Integer overflow follows the release profile, which wraps. `globals.frame += 1` wraps at 2^32 and the vertex buffer size product wraps at 2^64. A debug build would panic in both places.
- `Vec3A` and `Mat4` are taken at glam's SIMD layout (16-byte size and alignment for `Vec3A`, 64-byte size and 16-byte alignment for `Mat4`).
- Rendering.PassStructure: states bind indices only for slices of at most 2^32 groups. Beyond that, `i as u32` truncation would repeat indices. `Encode` models the truncation regardless.
- The `(dx, dy)` motion tuple is modelled as two reals. Device ids and window ids are not modelled.
- GPU and window calls are effects in a trace, or descriptor records, never behaviour. This covers surface configuration, texture and view creation, `write_buffer`, `submit`, `present`, `request_redraw`, cursor grab and visibility, and pipeline and shader module creation. `Instance`, `Surface`, `Adapter`, `Device` and `Queue` are not modelled. The pipeline layout object is folded into the pipeline descriptor.
- WGSL shader contents (`include_str!` of `render_pass.wgsl`) are not part of this model; only the file and entry point names are recorded.
- Surface creation `unwrap` and the `get_default_config(...).unwrap()` in `create_graphics` are not modelled. The surface's preferred format is a parameter and may be any format. When it is not `Bgra8UnormSrgb`, the pipeline's colour target differs from the surface; the model records that mismatch (`Orchestrator.SurfaceFormatMeetsColorTarget`) but not what wgpu then does. The window, adapter and device failures are modelled, as the panics `resumed` reports.
- The async plumbing (`pollster::block_on`, `async fn create_graphics`) and the delivery of the posted graphics are not modelled. `resumed` returns what `create_graphics` posts, and `user_event` takes it.
- src/main.rs is not part of this model: the event loop, `ControlFlow::Poll` and the logger setup are I/O.
- The window title (`"WebGPU example"`) is not recorded.
