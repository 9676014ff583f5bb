/** The render pipeline and the one render pass it records each frame
    (`RenderPass`). The pipeline is a descriptor record; recording appends
    commands to a command encoder, the only mutable object here. */
module Rendering {
  import opened Types
  import opened Gpu
  import Layouts
  import BufferPool
  import Bindings
  import Structures

  datatype VertexFormat = Float32x2 | Float32x4

  /** Bytes a vertex attribute of this format reads. */
  function FormatSize(f: VertexFormat): nat {
    match f
    case Float32x2 => 8
    case Float32x4 => 16
  }

  datatype VertexStepMode = PerVertex | PerInstance

  datatype VertexAttribute = VertexAttribute(format: VertexFormat, offset: nat, shaderLocation: nat)

  datatype VertexBufferLayout = VertexBufferLayout(
    arrayStride: nat,
    stepMode: VertexStepMode,
    attributes: seq<VertexAttribute>)

  datatype Face = Front | Back

  datatype CompareFunction = Never | Less | Equal | LessEqual | Greater | NotEqual | GreaterEqual | Always

  datatype DepthStencilState = DepthStencilState(
    format: TextureFormat,
    depthWriteEnabled: bool,
    depthCompare: CompareFunction)

  datatype BlendState = Replace | AlphaBlending

  datatype ColorTargetState = ColorTargetState(format: TextureFormat, blend: Option<BlendState>, writeAll: bool)

  /** A shader stage: the WGSL file it is compiled from and its entry point. */
  datatype ShaderStageDescriptor = ShaderStageDescriptor(source: string, entryPoint: string)

  datatype PipelineDescriptor = PipelineDescriptor(
    name: string,
    bindGroupLayouts: seq<Layouts.BindGroupLayout>,
    vertex: ShaderStageDescriptor,
    vertexBuffers: seq<VertexBufferLayout>,
    fragment: ShaderStageDescriptor,
    targets: seq<ColorTargetState>,
    cullMode: Option<Face>,
    depthStencil: Option<DepthStencilState>)

  datatype RenderPass = RenderPass(pipeline: PipelineDescriptor)

  const SHADER_SOURCE: string := "../assets/shaders/render_pass.wgsl"

  /** The single vertex buffer layout: one `VertexBuffer` record per vertex,
      position, normal and uv read at their field offsets. */
  function VertexLayout(): (l: VertexBufferLayout)
    ensures l.arrayStride == 64 && l.stepMode == PerVertex && |l.attributes| == 3
    ensures forall i :: 0 <= i < 3 ==> l.attributes[i].shaderLocation == i
  {
    Structures.VertexBufferLayout();
    VertexBufferLayout(
      Structures.SizeOf(Structures.VERTEX_BUFFER_DECL),
      PerVertex,
      [ VertexAttribute(Float32x4, 0, 0),
        VertexAttribute(Float32x4, Structures.OffsetOf(Structures.VERTEX_BUFFER_DECL, "normal"), 1),
        VertexAttribute(Float32x2, Structures.OffsetOf(Structures.VERTEX_BUFFER_DECL, "uv"), 2) ])
  }

  /** `RenderPass::new` */
  function New(bindGroupLayouts: seq<Layouts.BindGroupLayout>): (p: RenderPass)
    ensures p.pipeline.bindGroupLayouts == bindGroupLayouts
    ensures p.pipeline.vertexBuffers == [VertexLayout()]
    ensures |p.pipeline.targets| == 1 && p.pipeline.targets[0].format == Bgra8UnormSrgb
    ensures p.pipeline.depthStencil.Some? && p.pipeline.depthStencil.value.format == Depth32Float
  {
    RenderPass(PipelineDescriptor(
      "Render Pass Pipeline",
      bindGroupLayouts,
      ShaderStageDescriptor(SHADER_SOURCE, "main_vertex"),
      [VertexLayout()],
      ShaderStageDescriptor(SHADER_SOURCE, "main_fragment"),
      [ColorTargetState(Bgra8UnormSrgb, Some(Replace), true)],
      Some(Back),
      Some(DepthStencilState(Depth32Float, true, GreaterEqual))))
  }

  /** Whether a fragment at depth `incoming` passes the depth test against `stored`. */
  predicate DepthPasses(compare: CompareFunction, incoming: real, stored: real) {
    match compare
    case Never => false
    case Less => incoming < stored
    case Equal => incoming == stored
    case LessEqual => incoming <= stored
    case Greater => incoming > stored
    case NotEqual => incoming != stored
    case GreaterEqual => incoming >= stored
    case Always => true
  }

  // ---- Commands recorded into an encoder ----

  datatype Range = Range(start: nat, end: nat)

  datatype Color = Color(r: real, g: real, b: real, a: real)

  const BLACK: Color := Color(0.0, 0.0, 0.0, 1.0)

  datatype LoadOp<T> = Clear(value: T) | Load

  datatype StoreOp = Store | Discard

  datatype Operations<T> = Operations(load: LoadOp<T>, store: StoreOp)

  datatype ColorAttachment = ColorAttachment(
    view: TextureView,
    resolveTarget: Option<TextureView>,
    ops: Operations<Color>)

  datatype DepthAttachment = DepthAttachment(
    depthView: TextureView,
    depthOps: Option<Operations<real>>,
    stencilOps: Option<Operations<nat>>)

  datatype Command =
    | BeginRenderPass(passName: string, colorAttachments: seq<ColorAttachment>, depthStencilAttachment: Option<DepthAttachment>)
    | SetPipeline(pipeline: PipelineDescriptor)
    | SetBindGroup(index: U32, group: Bindings.BindGroup, dynamicOffsets: seq<nat>)
    | SetVertexBuffer(slot: nat, buffer: BufferPool.BufferDescriptor)
    | Draw(vertices: Range, instances: Range)
    | EndRenderPass

  /** A wgpu command encoder: the commands recorded so far, oldest first. */
  class CommandEncoder {
    var commands: seq<Command>

    constructor ()
      ensures commands == []
    {
      commands := [];
    }
  }

  /** The colour target, cleared to opaque black and kept. */
  function ColorAttachmentFor(view: TextureView): ColorAttachment {
    ColorAttachment(view, None, Operations(Clear(BLACK), Store))
  }

  /** The depth target, cleared to 0.0 (the far plane under reversed-Z) and kept. */
  function DepthAttachmentFor(depthView: TextureView): DepthAttachment {
    DepthAttachment(depthView, Some(Operations(Clear(0.0), Store)), None)
  }

  /** Vertices drawn for a vertex buffer of `size` bytes: whole records, cast to `u32`. */
  function DrawCount(size: U64): (n: U32)
    ensures n * BufferPool.VertexStride() <= size
    ensures size / BufferPool.VertexStride() < U32_MODULUS ==> n == size / BufferPool.VertexStride()
  {
    WrapU32(size / BufferPool.VertexStride())
  }

  /** The first `count` bind group commands: group `k` at index `k as u32`. */
  function SetBindGroups(groups: seq<Bindings.BindGroup>, count: nat): (cmds: seq<Command>)
    requires count <= |groups|
    ensures |cmds| == count
  {
    if count == 0 then []
    else SetBindGroups(groups, count - 1) + [SetBindGroup(WrapU32(count - 1), groups[count - 1], [])]
  }

  /** The commands `encode` records for one frame. */
  function PassCommands(
    pass: RenderPass,
    view: TextureView,
    depthView: TextureView,
    groups: seq<Bindings.BindGroup>,
    vertexBuffer: BufferPool.BufferDescriptor): (c: seq<Command>)
    ensures |c| == |groups| + 5
    ensures c[0].BeginRenderPass? && c[1] == SetPipeline(pass.pipeline) && c[|c| - 1] == EndRenderPass
    ensures c[|groups| + 3] == Draw(Range(0, DrawCount(vertexBuffer.size)), Range(0, 1))
  {
    [ BeginRenderPass("Render Pass Descriptor", [ColorAttachmentFor(view)], Some(DepthAttachmentFor(depthView))),
      SetPipeline(pass.pipeline) ]
    + SetBindGroups(groups, |groups|)
    + [ SetVertexBuffer(0, vertexBuffer),
        Draw(Range(0, DrawCount(vertexBuffer.size)), Range(0, 1)),
        EndRenderPass ]
  }

  /** `RenderPass::encode`: records one render pass into `encoder`. */
  method Encode(
    pass: RenderPass,
    encoder: CommandEncoder,
    view: TextureView,
    depthView: TextureView,
    groups: seq<Bindings.BindGroup>,
    vertexBuffer: BufferPool.BufferDescriptor)
    modifies encoder
    ensures encoder.commands == old(encoder.commands) + PassCommands(pass, view, depthView, groups, vertexBuffer)
  {
    var prefix := encoder.commands
      + [BeginRenderPass("Render Pass Descriptor", [ColorAttachmentFor(view)], Some(DepthAttachmentFor(depthView)))]
      + [SetPipeline(pass.pipeline)];
    encoder.commands := prefix;
    for i := 0 to |groups|
      invariant encoder.commands == prefix + SetBindGroups(groups, i)
    {
      encoder.commands := encoder.commands + [SetBindGroup(WrapU32(i), groups[i], [])];
    }
    encoder.commands := encoder.commands + [SetVertexBuffer(0, vertexBuffer)];
    encoder.commands := encoder.commands + [Draw(Range(0, DrawCount(vertexBuffer.size)), Range(0, 1))];
    encoder.commands := encoder.commands + [EndRenderPass];
  }

  // ---- Properties ----

  lemma {:induction false} SetBindGroupsAt(groups: seq<Bindings.BindGroup>, count: nat, k: nat)
    requires k < count <= |groups|
    ensures SetBindGroups(groups, count)[k] == SetBindGroup(WrapU32(k), groups[k], [])
  {
    if k < count - 1 {
      SetBindGroupsAt(groups, count - 1, k);
    }
  }

  /** The pass opens with its attachments, sets the pipeline, binds group
      `k` of the slice at index `k` for every `k` in slice order, binds the
      whole vertex buffer at slot 0, draws once over `DrawCount` vertices and
      one instance, and closes. No other command draws. */
  lemma PassStructure(
    pass: RenderPass,
    view: TextureView,
    depthView: TextureView,
    groups: seq<Bindings.BindGroup>,
    vertexBuffer: BufferPool.BufferDescriptor)
    requires |groups| <= U32_MODULUS
    ensures var c := PassCommands(pass, view, depthView, groups, vertexBuffer);
      && |c| == |groups| + 5
      && c[0].BeginRenderPass? && c[0].colorAttachments == [ColorAttachmentFor(view)]
      && c[0].depthStencilAttachment == Some(DepthAttachmentFor(depthView))
      && c[1] == SetPipeline(pass.pipeline)
      && (forall k :: 0 <= k < |groups| ==> c[2 + k] == SetBindGroup(k, groups[k], []))
      && c[|groups| + 2] == SetVertexBuffer(0, vertexBuffer)
      && c[|groups| + 3] == Draw(Range(0, DrawCount(vertexBuffer.size)), Range(0, 1))
      && c[|groups| + 4] == EndRenderPass
      && (forall k :: 0 <= k < |c| ==> (c[k].Draw? <==> k == |groups| + 3))
  {
    var c := PassCommands(pass, view, depthView, groups, vertexBuffer);
    forall k | 0 <= k < |groups|
      ensures c[2 + k] == SetBindGroup(k, groups[k], [])
    {
      SetBindGroupsAt(groups, |groups|, k);
    }
    forall k | 0 <= k < |c|
      ensures c[k].Draw? <==> k == |groups| + 3
    {
      if 2 <= k < |groups| + 2 {
        assert c[2 + (k - 2)] == SetBindGroup(k - 2, groups[k - 2], []);
      }
    }
  }

  /** The draw covers exactly the records `Buffers::new` allocated: with the
      buffer sized for `vertexCount` records, `encode` draws `vertexCount`
      vertices (modulo 2^32, the `u32` cast). */
  lemma DrawsEveryVertex(vertexCount: U64)
    ensures DrawCount(BufferPool.New(vertexCount).vertices.size) == vertexCount % U32_MODULUS
    ensures vertexCount < U32_MODULUS ==>
      DrawCount(BufferPool.New(vertexCount).vertices.size) == vertexCount
  {
    BufferPool.VertexBufferRecords(vertexCount);
    var n := vertexCount;
    var q, r := n / 0x400_0000_0000_0000, n % 0x400_0000_0000_0000;
    var q2, r2 := r / U32_MODULUS, r % U32_MODULUS;
    assert n == 0x400_0000_0000_0000 * q + r;
    assert r == U32_MODULUS * q2 + r2;
    assert n == U32_MODULUS * (0x400_0000 * q + q2) + r2;
    Structures.DivModUnique(U32_MODULUS, n, 0x400_0000 * q + q2, r2);
  }

  /** The vertex layout reads exactly the fields of `VertexBuffer`: its stride
      is the record size, attribute `i` feeds shader location `i` from the
      offset of field `i` and reads as many bytes as that field holds, so the
      attributes lie inside one record and never overlap. */
  lemma VertexLayoutMatchesRecord(bindGroupLayouts: seq<Layouts.BindGroupLayout>)
    ensures var buffers := New(bindGroupLayouts).pipeline.vertexBuffers;
      && |buffers| == 1
      && buffers[0].arrayStride == Structures.SizeOf(Structures.VERTEX_BUFFER_DECL) == 64
      && buffers[0].stepMode == PerVertex
      && |buffers[0].attributes| == 3
      && forall i :: 0 <= i < 3 ==>
        var a := buffers[0].attributes[i];
        && a.shaderLocation == i
        && a.offset == Structures.Offsets(Structures.VERTEX_BUFFER_DECL)[i]
        && FormatSize(a.format) == Structures.VERTEX_BUFFER_DECL.fields[i].ty.size
        && a.offset + FormatSize(a.format) <= buffers[0].arrayStride
        && forall j :: i < j < 3 ==> a.offset + FormatSize(a.format) <= buffers[0].attributes[j].offset
  {
    Structures.VertexBufferLayout();
    Structures.LayoutSound(Structures.VERTEX_BUFFER_DECL);
  }

  /** Reversed-Z: back faces are culled, depth is written, and a fragment
      passes exactly when it is at least as near (as large) as what is
      stored; since each pass clears depth to 0.0, the far plane, every
      fragment in [0, 1] passes against a freshly cleared target. */
  lemma ReversedZ(bindGroupLayouts: seq<Layouts.BindGroupLayout>, depthView: TextureView, incoming: real, stored: real)
    ensures var p := New(bindGroupLayouts).pipeline;
      && p.cullMode == Some(Back)
      && p.depthStencil.Some? && p.depthStencil.value.format == Depth32Float
      && p.depthStencil.value.depthWriteEnabled
      && (DepthPasses(p.depthStencil.value.depthCompare, incoming, stored) <==> incoming >= stored)
    ensures var ops := DepthAttachmentFor(depthView).depthOps;
      && ops.Some? && ops.value.load.Clear? && ops.value.store == Store
      && (0.0 <= incoming ==> DepthPasses(New(bindGroupLayouts).pipeline.depthStencil.value.depthCompare, incoming, ops.value.load.value))
  {
  }
}
