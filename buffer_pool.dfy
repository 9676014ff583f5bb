/** The GPU buffer pool (`Buffers`): the globals and view uniforms and the
    vertex storage, sized from the record layouts. */
module BufferPool {
  import opened Types
  import Layouts
  import Structures

  datatype BufferUsage =
    MapRead | MapWrite | CopySrc | CopyDst | Index | Vertex | Uniform | Storage | Indirect | QueryResolve

  datatype BufferDescriptor = BufferDescriptor(
    name: string,
    size: U64,
    usage: set<BufferUsage>,
    mappedAtCreation: bool)

  datatype Buffers = Buffers(
    globals: BufferDescriptor,
    view: BufferDescriptor,
    vertices: BufferDescriptor)

  /** The buffer that fills bind group slot `s`. */
  function Get(b: Buffers, s: Layouts.Slot): BufferDescriptor {
    if s.GlobalsSlot? then b.globals
    else if s.ViewSlot? then b.view
    else b.vertices
  }

  /** `size_of::<VertexBuffer>()`, the vertex stride. */
  function VertexStride(): (n: nat)
    ensures n == 64
  {
    Structures.VertexBufferLayout();
    Structures.SizeOf(Structures.VERTEX_BUFFER_DECL)
  }

  /** `Buffers::new`. The vertex buffer size is a `u64` product, which wraps
      when it overflows. */
  function New(vertexCount: U64): (b: Buffers)
    ensures b.globals.size == 32 && b.view.size == 272
    ensures vertexCount * 64 < U64_MODULUS ==> b.vertices.size == vertexCount * 64
    ensures forall s :: CopyDst in Get(b, s).usage && !Get(b, s).mappedAtCreation
  {
    Structures.GlobalsLayout();
    Structures.ViewLayout();
    Buffers(
      BufferDescriptor("Globals Buffer", Structures.SizeOf(Structures.GLOBALS_DECL), {Uniform, CopyDst}, false),
      BufferDescriptor("View Buffer", Structures.SizeOf(Structures.VIEW_DECL), {Uniform, CopyDst}, false),
      BufferDescriptor("Vertices Buffer", WrapU64(VertexStride() * vertexCount), {Vertex, Storage, CopyDst}, false))
  }

  /** Each uniform buffer holds exactly one record of its uniform type (32
      and 272 bytes), and every buffer the pool creates can be overwritten
      each frame and starts unmapped. */
  lemma UniformBuffersHoldOneRecord(vertexCount: U64)
    ensures New(vertexCount).globals.size == Structures.SizeOf(Structures.GLOBALS_DECL) == 32
    ensures New(vertexCount).view.size == Structures.SizeOf(Structures.VIEW_DECL) == 272
    ensures forall s :: CopyDst in Get(New(vertexCount), s).usage
    ensures forall s :: !Get(New(vertexCount), s).mappedAtCreation
  {
    Structures.GlobalsLayout();
    Structures.ViewLayout();
  }

  /** Each usage flag goes to the buffers that need it and no other: only the
      vertex buffer feeds vertex input and storage bindings, only the two
      uniform buffers feed uniform bindings, and nothing is mappable. */
  lemma BufferRoles(vertexCount: U64, s: Layouts.Slot)
    ensures Vertex in Get(New(vertexCount), s).usage <==> s == Layouts.VerticesSlot
    ensures Storage in Get(New(vertexCount), s).usage <==> s == Layouts.VerticesSlot
    ensures Uniform in Get(New(vertexCount), s).usage <==> s != Layouts.VerticesSlot
    ensures Get(New(vertexCount), s).usage <= {Vertex, Storage, Uniform, CopyDst}
  {
  }

  /** The vertex buffer holds `vertexCount` records modulo 2^58: the wrapped
      `u64` product loses exactly the high bits of the count. It is always a
      whole number of records. */
  lemma {:induction false} VertexBufferRecords(vertexCount: U64)
    ensures New(vertexCount).vertices.size % VertexStride() == 0
    ensures New(vertexCount).vertices.size / VertexStride() == vertexCount % 0x400_0000_0000_0000
  {
    var n := vertexCount;
    var k: nat := 0x400_0000_0000_0000;
    var q, r := n / k, n % k;
    assert n == k * q + r;
    var size := New(n).vertices.size;
    assert size == (64 * n) % U64_MODULUS;
    assert 64 * n == U64_MODULUS * q + 64 * r;
    Structures.DivModUnique(U64_MODULUS, 64 * n, q, 64 * r);
    assert size == 64 * r;
    Structures.DivModUnique(64, size, r, 0);
  }
}
