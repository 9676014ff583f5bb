/** Bind groups (`BindGroups`): each of the pool's three buffers bound,
    whole, at binding 0 of the matching layout. */
module Bindings {
  import opened Types
  import Layouts
  import BufferPool

  /** A buffer binding: `size == None` binds from `offset` to the end of the buffer. */
  datatype BufferBinding = BufferBinding(buffer: BufferPool.BufferDescriptor, offset: nat, size: Option<nat>)

  datatype BindGroupEntry = BindGroupEntry(binding: nat, resource: BufferBinding)

  datatype BindGroup = BindGroup(name: string, layout: Layouts.BindGroupLayout, entries: seq<BindGroupEntry>)

  datatype BindGroups = BindGroups(globals: BindGroup, bview: BindGroup, vertices: BindGroup)

  function WholeBuffer(buffer: BufferPool.BufferDescriptor): BindGroupEntry {
    BindGroupEntry(0, BufferBinding(buffer, 0, None))
  }

  /** `BindGroups::new` */
  function New(layouts: Layouts.BindGroupLayouts, buffers: BufferPool.Buffers): (g: BindGroups)
    ensures forall s :: Get(g, s).layout == Layouts.Get(layouts, s)
    ensures forall s :: Get(g, s).entries == [BindGroupEntry(0, BufferBinding(BufferPool.Get(buffers, s), 0, None))]
  {
    BindGroups(
      BindGroup("Bind Group Globals", layouts.globals, [WholeBuffer(buffers.globals)]),
      BindGroup("Bind Group View", layouts.view, [WholeBuffer(buffers.view)]),
      BindGroup("Bind Group Vertices", layouts.vertices, [WholeBuffer(buffers.vertices)]))
  }

  function Get(g: BindGroups, s: Layouts.Slot): BindGroup {
    if s.GlobalsSlot? then g.globals
    else if s.ViewSlot? then g.bview
    else g.vertices
  }

  /** `BindGroups::as_slice`: the group of slot `s` sits at index `SlotIndex(s)`. */
  function AsSlice(g: BindGroups): (r: seq<BindGroup>)
    ensures |r| == 3
    ensures forall s :: r[Layouts.SlotIndex(s)] == Get(g, s)
  {
    [g.globals, g.bview, g.vertices]
  }

  /** The buffer usage a binding of type `ty` demands. */
  function RequiredUsage(ty: Layouts.BufferBindingType): BufferPool.BufferUsage {
    if ty.Uniform? then BufferPool.Uniform else BufferPool.Storage
  }

  /** A bind group entry satisfies a layout entry: same binding number, a
      buffer created with the usage the binding type demands, and a bound
      range inside the buffer. */
  predicate EntryFits(le: Layouts.LayoutEntry, e: BindGroupEntry) {
    && e.binding == le.binding
    && RequiredUsage(le.ty) in e.resource.buffer.usage
    && e.resource.offset <= e.resource.buffer.size
    && (e.resource.size.Some? ==> e.resource.offset + e.resource.size.value <= e.resource.buffer.size)
  }

  /** The validation a device applies when it creates a bind group: one entry
      per layout entry, each fitting its layout entry. */
  predicate Compatible(g: BindGroup) {
    && |g.entries| == |g.layout.entries|
    && forall i :: 0 <= i < |g.entries| ==> EntryFits(g.layout.entries[i], g.entries[i])
  }

  /** Wiring the pool's buffers to either usage's layouts gives bind groups a
      device accepts: uniform slots get uniform buffers, the storage slot gets
      the storage buffer. */
  lemma NewIsCompatible(usage: Layouts.BindGroupUsage, vertexCount: U64, s: Layouts.Slot)
    ensures Compatible(Get(New(Layouts.New(usage), BufferPool.New(vertexCount)), s))
  {
    var g := Get(New(Layouts.New(usage), BufferPool.New(vertexCount)), s);
    Layouts.LayoutEntries(usage, s);
    BufferPool.BufferRoles(vertexCount, s);
    assert EntryFits(g.layout.entries[0], g.entries[0]);
  }

  /** Slot for slot, the group slice pairs the layout slice with the buffer
      of the same role, bound whole at binding 0. */
  lemma SlicesAgree(layouts: Layouts.BindGroupLayouts, buffers: BufferPool.Buffers, i: nat)
    requires i < 3
    ensures AsSlice(New(layouts, buffers))[i].layout == Layouts.AsSlice(layouts)[i]
    ensures AsSlice(New(layouts, buffers))[i].entries
         == [WholeBuffer(BufferPool.Get(buffers, Layouts.SlotAt(i)))]
  {
  }

  /** The compute and render groups bind the very same buffers, slot for
      slot; only the layouts they are checked against differ. */
  lemma UsagesShareBuffers(buffers: BufferPool.Buffers, s: Layouts.Slot)
    ensures Get(New(Layouts.New(Layouts.Compute), buffers), s).entries
         == Get(New(Layouts.New(Layouts.Render), buffers), s).entries
    ensures Get(New(Layouts.New(Layouts.Compute), buffers), s).layout
         != Get(New(Layouts.New(Layouts.Render), buffers), s).layout
  {
    Layouts.UsagesDifferOnlyInAccess(s);
  }
}
