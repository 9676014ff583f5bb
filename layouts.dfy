/** Bind group layout declarations (`BindGroupLayouts`): three single-entry
    layouts — globals, view, vertices — whose shader visibility and storage
    access depend on whether they serve the compute or the render stage. */
module Layouts {
  import opened Types

  datatype BindGroupUsage = Compute | Render

  datatype ShaderStage = VertexStage | FragmentStage | ComputeStage

  datatype BufferBindingType = Uniform | Storage(readOnly: bool)

  datatype LayoutEntry = LayoutEntry(
    binding: nat,
    visibility: set<ShaderStage>,
    ty: BufferBindingType,
    hasDynamicOffset: bool,
    minBindingSize: Option<nat>,
    count: Option<nat>)

  datatype BindGroupLayout = BindGroupLayout(name: string, entries: seq<LayoutEntry>)

  datatype BindGroupLayouts = BindGroupLayouts(
    globals: BindGroupLayout,
    view: BindGroupLayout,
    vertices: BindGroupLayout)

  /** The three bind group slots, in the order the shaders number them. */
  datatype Slot = GlobalsSlot | ViewSlot | VerticesSlot

  function SlotIndex(s: Slot): (i: nat)
    ensures i < 3
  {
    match s
    case GlobalsSlot => 0
    case ViewSlot => 1
    case VerticesSlot => 2
  }

  /** The slot the shaders number `i`. */
  function SlotAt(i: nat): (s: Slot)
    requires i < 3
    ensures SlotIndex(s) == i
  {
    if i == 0 then GlobalsSlot else if i == 1 then ViewSlot else VerticesSlot
  }

  function Get(l: BindGroupLayouts, s: Slot): BindGroupLayout {
    match s
    case GlobalsSlot => l.globals
    case ViewSlot => l.view
    case VerticesSlot => l.vertices
  }

  /** Which shader stages see the bindings, and whether the vertex storage is
      read-only: the compute stage alone may write it. */
  function StageAccess(usage: BindGroupUsage): (r: (set<ShaderStage>, bool))
    ensures ComputeStage in r.0 <==> usage == Compute
    ensures VertexStage in r.0 <==> usage == Render
    ensures FragmentStage in r.0 <==> usage == Render
    ensures r.1 <==> usage == Render
  {
    match usage
    case Compute => ({ComputeStage}, false)
    case Render => ({VertexStage, FragmentStage}, true)
  }

  function BufferEntry(visibility: set<ShaderStage>, ty: BufferBindingType): LayoutEntry {
    LayoutEntry(0, visibility, ty, false, None, None)
  }

  /** `BindGroupLayouts::new` */
  function New(usage: BindGroupUsage): (l: BindGroupLayouts)
    ensures forall s :: |Get(l, s).entries| == 1
    ensures forall s :: Get(l, s).entries[0].binding == 0 && Get(l, s).entries[0].visibility == StageAccess(usage).0
    ensures forall s :: Get(l, s).entries[0].ty.Storage? <==> s == VerticesSlot
  {
    var (visibility, storageReadOnly) := StageAccess(usage);
    BindGroupLayouts(
      BindGroupLayout("Bind Group Layout Globals", [BufferEntry(visibility, Uniform)]),
      BindGroupLayout("Bind Group Layout View", [BufferEntry(visibility, Uniform)]),
      BindGroupLayout("Bind Group Layout Vertices", [BufferEntry(visibility, Storage(storageReadOnly))]))
  }

  /** `BindGroupLayouts::as_slice`: the layout of slot `s` sits at index `SlotIndex(s)`. */
  function AsSlice(l: BindGroupLayouts): (r: seq<BindGroupLayout>)
    ensures |r| == 3
    ensures forall s :: r[SlotIndex(s)] == Get(l, s)
  {
    [l.globals, l.view, l.vertices]
  }

  predicate WritableEntry(e: LayoutEntry) {
    e.ty == Storage(false)
  }

  /** Some entry of the layout lets a shader write the bound buffer. */
  predicate Writable(l: BindGroupLayout) {
    exists e :: e in l.entries && WritableEntry(e)
  }

  /** Every layout declares one buffer entry, at binding 0, seen by exactly the
      usage's stages, without dynamic offset or array count; globals and view
      are uniform buffers and the vertices a storage buffer that is read-only
      exactly for the render usage. */
  lemma LayoutEntries(usage: BindGroupUsage, s: Slot)
    ensures |Get(New(usage), s).entries| == 1
    ensures var e := Get(New(usage), s).entries[0];
      && e.binding == 0
      && e.visibility == StageAccess(usage).0
      && !e.hasDynamicOffset && e.minBindingSize == None && e.count == None
      && (s == VerticesSlot <==> e.ty.Storage?)
      && (e.ty.Storage? ==> (e.ty.readOnly <==> usage == Render))
  {
  }

  /** Only one binding anywhere is writable by a shader: the vertex storage of
      the compute layouts. */
  lemma WritableIffComputeVertices(usage: BindGroupUsage, s: Slot)
    ensures Writable(Get(New(usage), s)) <==> usage == Compute && s == VerticesSlot
  {
    var e := Get(New(usage), s).entries[0];
    assert Get(New(usage), s).entries == [e];
    if usage == Compute && s == VerticesSlot {
      assert WritableEntry(e);
    }
  }

  /** No binding that the vertex or fragment stage can see is writable: the
      render stage only samples what the compute stage may change. */
  lemma RenderStagesOnlyRead(usage: BindGroupUsage, s: Slot, e: LayoutEntry)
    requires e in Get(New(usage), s).entries
    requires VertexStage in e.visibility || FragmentStage in e.visibility
    ensures !WritableEntry(e)
  {
  }

  /** The compute and render layouts of a slot differ only in visibility and
      storage access: forgetting those, they are the same declaration. */
  lemma UsagesDifferOnlyInAccess(s: Slot)
    ensures Erased(Get(New(Compute), s)) == Erased(Get(New(Render), s))
    ensures Get(New(Compute), s) != Get(New(Render), s)
  {
  }

  function EraseEntry(e: LayoutEntry): LayoutEntry {
    e.(visibility := {}, ty := if e.ty.Storage? then Storage(false) else e.ty)
  }

  function Erased(l: BindGroupLayout): BindGroupLayout {
    l.(entries := seq(|l.entries|, i requires 0 <= i < |l.entries| => EraseEntry(l.entries[i])))
  }
}
