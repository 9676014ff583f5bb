/** The GPU-shared records and their byte layouts, and the host-side frame
    metadata. Layouts follow Rust's `#[repr(C, align(N))]` rules: fields in
    declaration order, each at the first offset that is a multiple of its
    alignment, the struct aligned to the largest of N and its fields'
    alignments, and its size rounded up to that alignment. glam's `Vec3A` and
    `Mat4` are taken with their SIMD layout (16-byte aligned). */
module Structures {
  import opened Types
  import opened Input
  import Cameras

  /** Size and alignment, in bytes, of a field's type. */
  datatype FieldType = FieldType(size: nat, align: nat)

  const F32_TYPE: FieldType := FieldType(4, 4)
  const U32_TYPE: FieldType := FieldType(4, 4)
  const VEC2_TYPE: FieldType := FieldType(8, 4)
  const VEC3A_TYPE: FieldType := FieldType(16, 16)
  const MAT4_TYPE: FieldType := FieldType(64, 16)

  /** `[T; n]` */
  function ArrayOf(t: FieldType, n: nat): FieldType {
    FieldType(t.size * n, t.align)
  }

  datatype Field = Field(name: string, ty: FieldType)

  /** A `#[repr(C, align(alignAttr))]` struct declaration. */
  datatype StructDecl = StructDecl(fields: seq<Field>, alignAttr: nat)

  predicate PositiveAligns(fields: seq<Field>) {
    forall i :: 0 <= i < |fields| ==> fields[i].ty.align > 0
  }

  predicate WellFormed(d: StructDecl) {
    d.alignAttr > 0 && PositiveAligns(d.fields)
  }

  /** The least multiple of `a` that is at least `n`. */
  function AlignUp(n: nat, a: nat): (r: nat)
    requires a > 0
    ensures r % a == 0 && n <= r < n + a
  {
    if n % a == 0 then n
    else
      var q := n / a;
      assert n == a * q + n % a;
      DivModUnique(a, a * (q + 1), q + 1, 0);
      a * (q + 1)
  }

  lemma MulAtLeast(a: int, d: int)
    requires a > 0 && d >= 1
    ensures a * d >= a
  {
  }

  /** Euclidean division is unique: `x == a * q + r` with `0 <= r < a` fixes `x % a`. */
  lemma DivModUnique(a: int, x: int, q: int, r: int)
    requires a > 0 && 0 <= r < a && x == a * q + r
    ensures x % a == r
  {
    var q', r' := x / a, x % a;
    assert x == a * q' + r';
    assert a * (q - q') == r' - r;
    if q - q' >= 1 {
      MulAtLeast(a, q - q');
    } else if q' - q >= 1 {
      MulAtLeast(a, q' - q);
    }
  }

  /** Offsets of `fields` placed one after another from `cursor`. */
  function OffsetsFrom(cursor: nat, fields: seq<Field>): (offsets: seq<nat>)
    requires PositiveAligns(fields)
    ensures |offsets| == |fields|
    decreases |fields|
  {
    if fields == [] then []
    else
      var at := AlignUp(cursor, fields[0].ty.align);
      [at] + OffsetsFrom(at + fields[0].ty.size, fields[1..])
  }

  /** The first byte after the last of `fields` placed from `cursor`. */
  function EndFrom(cursor: nat, fields: seq<Field>): nat
    requires PositiveAligns(fields)
    decreases |fields|
  {
    if fields == [] then cursor
    else EndFrom(AlignUp(cursor, fields[0].ty.align) + fields[0].ty.size, fields[1..])
  }

  function MaxAlign(fields: seq<Field>): nat {
    if fields == [] then 1
    else if fields[0].ty.align >= MaxAlign(fields[1..]) then fields[0].ty.align
    else MaxAlign(fields[1..])
  }

  /** `std::mem::align_of` */
  function StructAlign(d: StructDecl): nat {
    if d.alignAttr >= MaxAlign(d.fields) then d.alignAttr else MaxAlign(d.fields)
  }

  /** The offset of every field, in declaration order. */
  function Offsets(d: StructDecl): seq<nat>
    requires WellFormed(d)
  {
    OffsetsFrom(0, d.fields)
  }

  /** `std::mem::size_of` */
  function SizeOf(d: StructDecl): nat
    requires WellFormed(d)
  {
    AlignUp(EndFrom(0, d.fields), StructAlign(d))
  }

  predicate HasField(d: StructDecl, name: string) {
    exists i :: 0 <= i < |d.fields| && d.fields[i].name == name
  }

  /** Position of the field called `name`. */
  function FieldIndex(fields: seq<Field>, name: string): (i: nat)
    requires exists k :: 0 <= k < |fields| && fields[k].name == name
    ensures i < |fields| && fields[i].name == name
    ensures forall k :: 0 <= k < i ==> fields[k].name != name
  {
    if fields[0].name == name then 0
    else
      var k :| 0 <= k < |fields| && fields[k].name == name;
      assert fields[1..][k - 1].name == name;
      1 + FieldIndex(fields[1..], name)
  }

  /** `std::mem::offset_of!` (which does not compile for a field the struct lacks). */
  function OffsetOf(d: StructDecl, name: string): nat
    requires WellFormed(d) && HasField(d, name)
  {
    Offsets(d)[FieldIndex(d.fields, name)]
  }

  /** Placing fields one after another keeps each field on its alignment,
      never overlaps two fields and keeps all of them before the end. */
  lemma {:induction false} PlacementSound(cursor: nat, fields: seq<Field>)
    requires PositiveAligns(fields)
    ensures cursor <= EndFrom(cursor, fields)
    ensures forall i :: 0 <= i < |fields| ==>
      cursor <= OffsetsFrom(cursor, fields)[i] &&
      OffsetsFrom(cursor, fields)[i] % fields[i].ty.align == 0 &&
      OffsetsFrom(cursor, fields)[i] + fields[i].ty.size <= EndFrom(cursor, fields)
    ensures forall i, j :: 0 <= i < j < |fields| ==>
      OffsetsFrom(cursor, fields)[i] + fields[i].ty.size <= OffsetsFrom(cursor, fields)[j]
    decreases |fields|
  {
    if fields != [] {
      var at := AlignUp(cursor, fields[0].ty.align);
      var next := at + fields[0].ty.size;
      var tail := fields[1..];
      assert PositiveAligns(tail) by {
        forall i | 0 <= i < |tail| ensures tail[i].ty.align > 0 {
          assert tail[i] == fields[i + 1];
        }
      }
      PlacementSound(next, tail);
      var offs := OffsetsFrom(cursor, fields);
      var rest := OffsetsFrom(next, tail);
      assert offs == [at] + rest;
      assert EndFrom(cursor, fields) == EndFrom(next, tail);
      forall i | 0 <= i < |fields|
        ensures cursor <= offs[i] && offs[i] % fields[i].ty.align == 0
        ensures offs[i] + fields[i].ty.size <= EndFrom(cursor, fields)
      {
        if i > 0 {
          assert offs[i] == rest[i - 1] && fields[i] == tail[i - 1];
        }
      }
      forall i, j | 0 <= i < j < |fields|
        ensures offs[i] + fields[i].ty.size <= offs[j]
      {
        assert offs[j] == rest[j - 1];
        if i > 0 {
          assert offs[i] == rest[i - 1] && fields[i] == tail[i - 1];
        }
      }
    }
  }

  /** The layout rustc gives a well-formed repr(C) struct: every field aligned,
      fields in declaration order without overlap, all inside the struct, and
      the size a multiple of the alignment so that arrays of the struct (a
      vertex buffer) keep every element aligned. */
  lemma LayoutSound(d: StructDecl)
    requires WellFormed(d)
    ensures StructAlign(d) >= d.alignAttr && SizeOf(d) % StructAlign(d) == 0
    ensures forall i :: 0 <= i < |d.fields| ==>
      Offsets(d)[i] % d.fields[i].ty.align == 0 &&
      Offsets(d)[i] + d.fields[i].ty.size <= SizeOf(d)
    ensures forall i, j :: 0 <= i < j < |d.fields| ==>
      Offsets(d)[i] + d.fields[i].ty.size <= Offsets(d)[j]
  {
    PlacementSound(0, d.fields);
  }

  const GLOBALS_DECL: StructDecl := StructDecl(
    [ Field("mouse_pos", VEC2_TYPE),
      Field("resolution", ArrayOf(U32_TYPE, 2)),
      Field("time_passed", F32_TYPE),
      Field("frame_time", F32_TYPE),
      Field("frame", U32_TYPE),
      Field("_pad", ArrayOf(F32_TYPE, 1)) ],
    16)

  const VIEW_DECL: StructDecl := StructDecl(
    [ Field("proj_view_rev_z", MAT4_TYPE),
      Field("inv_proj_view_rev_z", MAT4_TYPE),
      Field("proj_view", MAT4_TYPE),
      Field("inv_proj_view", MAT4_TYPE),
      Field("camera_position", VEC3A_TYPE) ],
    16)

  const VERTEX_BUFFER_DECL: StructDecl := StructDecl(
    [ Field("position", VEC3A_TYPE),
      Field("normal", VEC3A_TYPE),
      Field("uv", VEC2_TYPE),
      Field("_pad", ArrayOf(F32_TYPE, 6)) ],
    64)

  /** `Globals` packs into 32 bytes with no hole: mouse_pos, resolution,
      time_passed, frame_time, frame and the pad word, 16-byte aligned. */
  lemma GlobalsLayout()
    ensures WellFormed(GLOBALS_DECL)
    ensures Offsets(GLOBALS_DECL) == [0, 8, 16, 20, 24, 28]
    ensures SizeOf(GLOBALS_DECL) == 32 && StructAlign(GLOBALS_DECL) == 16
  {
    var f := GLOBALS_DECL.fields;
    assert OffsetsFrom(28, f[5..]) == [28] && EndFrom(28, f[5..]) == 32;
    assert OffsetsFrom(24, f[4..]) == [24, 28] && EndFrom(24, f[4..]) == 32;
    assert OffsetsFrom(20, f[3..]) == [20, 24, 28] && EndFrom(20, f[3..]) == 32;
    assert OffsetsFrom(16, f[2..]) == [16, 20, 24, 28] && EndFrom(16, f[2..]) == 32;
    assert OffsetsFrom(8, f[1..]) == [8, 16, 20, 24, 28] && EndFrom(8, f[1..]) == 32;
    assert f[4..][1..] == f[5..] && f[3..][1..] == f[4..] && f[2..][1..] == f[3..];
    assert MaxAlign(f[5..]) == 4 && MaxAlign(f[4..]) == 4 && MaxAlign(f[3..]) == 4;
    assert MaxAlign(f[2..]) == 4 && MaxAlign(f[1..]) == 4 && MaxAlign(f) == 4;
  }

  /** `View` is four 64-byte matrices and the camera position at byte 256. */
  lemma ViewLayout()
    ensures WellFormed(VIEW_DECL) && HasField(VIEW_DECL, "camera_position")
    ensures Offsets(VIEW_DECL) == [0, 64, 128, 192, 256]
    ensures OffsetOf(VIEW_DECL, "camera_position") == 256
    ensures SizeOf(VIEW_DECL) == 272 && StructAlign(VIEW_DECL) == 16
  {
    var f := VIEW_DECL.fields;
    assert f[4].name == "camera_position";
    assert OffsetsFrom(256, f[4..]) == [256] && EndFrom(256, f[4..]) == 272;
    assert OffsetsFrom(192, f[3..]) == [192, 256] && EndFrom(192, f[3..]) == 272;
    assert OffsetsFrom(128, f[2..]) == [128, 192, 256] && EndFrom(128, f[2..]) == 272;
    assert OffsetsFrom(64, f[1..]) == [64, 128, 192, 256] && EndFrom(64, f[1..]) == 272;
    assert f[3..][1..] == f[4..] && f[2..][1..] == f[3..] && f[1..][1..] == f[2..];
    assert MaxAlign(f[4..]) == 16 && MaxAlign(f[3..]) == 16 && MaxAlign(f[2..]) == 16;
    assert MaxAlign(f[1..]) == 16 && MaxAlign(f) == 16;
    assert FieldIndex(f, "camera_position") == 4;
  }

  /** `VertexBuffer`: position at 0, normal at 16, uv at 32, padded to a 64-byte stride. */
  lemma VertexBufferLayout()
    ensures WellFormed(VERTEX_BUFFER_DECL)
    ensures HasField(VERTEX_BUFFER_DECL, "normal") && HasField(VERTEX_BUFFER_DECL, "uv")
    ensures Offsets(VERTEX_BUFFER_DECL) == [0, 16, 32, 40]
    ensures OffsetOf(VERTEX_BUFFER_DECL, "normal") == 16
    ensures OffsetOf(VERTEX_BUFFER_DECL, "uv") == 32
    ensures SizeOf(VERTEX_BUFFER_DECL) == 64 && StructAlign(VERTEX_BUFFER_DECL) == 64
  {
    var f := VERTEX_BUFFER_DECL.fields;
    assert f[1].name == "normal" && f[2].name == "uv";
    assert OffsetsFrom(40, f[3..]) == [40] && EndFrom(40, f[3..]) == 64;
    assert OffsetsFrom(32, f[2..]) == [32, 40] && EndFrom(32, f[2..]) == 64;
    assert OffsetsFrom(16, f[1..]) == [16, 32, 40] && EndFrom(16, f[1..]) == 64;
    assert MaxAlign(f[3..]) == 4 && MaxAlign(f[2..]) == 4 && MaxAlign(f[1..]) == 16;
    assert MaxAlign(f) == 16;
    assert FieldIndex(f, "normal") == 1 && FieldIndex(f, "uv") == 2;
  }

  /** The per-frame globals uniform. `time_passed` and `frame_time` are
      durations in clock ticks; the pad word is always zero and not stored. */
  datatype Globals = Globals(
    mousePos: Vec2,
    resolution: (U32, U32),
    timePassed: nat,
    frameTime: nat,
    frame: U32)

  /** `Globals::default()`: every field zero. */
  function DefaultGlobals(): (g: Globals)
    ensures g.mousePos == VEC2_ZERO && g.resolution == (0, 0)
    ensures g.timePassed == 0 && g.frameTime == 0 && g.frame == 0
  {
    Globals(VEC2_ZERO, (0, 0), 0, 0, 0)
  }

  /** The view uniform: all zero (`View::default()`) or the bundle
      `Camera::get_view` derives from a camera; the matrices themselves are
      not modelled, the camera they come from is. */
  datatype View = ZeroView | DerivedFrom(camera: Cameras.Camera)

  /** Host-side frame metadata: two instants, the pressed keys and the mouse
      motion accumulated since the last update. */
  datatype Metadata = Metadata(
    startInstant: Tick,
    prevFrameStartInstant: Tick,
    keyboardState: set<KeyCode>,
    deltaMouse: Vec2)

  /** `Metadata::new`, given the two readings of `Instant::now()` it takes. */
  function NewMetadata(start: Tick, prev: Tick): (m: Metadata)
    ensures m.keyboardState == {} && m.deltaMouse == VEC2_ZERO
    ensures m.startInstant == start && m.prevFrameStartInstant == prev
  {
    Metadata(start, prev, {}, VEC2_ZERO)
  }
}
