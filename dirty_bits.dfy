/**
 * Hydra's change-tracking bits (HdDirtyBits is a 32-bit unsigned mask) and
 * the queries the mesh and light syncs use to decide what to pull.
 *
 * The bit positions are Hydra's own (HdChangeTracker::RprimDirtyBits and
 * HdLight::DirtyBits); nothing in the model depends on a particular position
 * beyond the bits being distinct and the rprim scene bits lying below
 * AllSceneDirtyBits.
 */
module DirtyBits {

  type Bits = bv32

  // HdChangeTracker::RprimDirtyBits
  const Clean: Bits := 0
  const InitRepr: Bits := 0x1
  const Varying: Bits := 0x2
  const DirtyPrimID: Bits := 0x4
  const DirtyExtent: Bits := 0x8
  const DirtyDisplayStyle: Bits := 0x10
  const DirtyPoints: Bits := 0x20
  const DirtyPrimvar: Bits := 0x40
  const DirtyMaterialId: Bits := 0x80
  const DirtyTopology: Bits := 0x100
  const DirtyTransform: Bits := 0x200
  const DirtyVisibility: Bits := 0x400
  const DirtyNormals: Bits := 0x800
  const DirtyDoubleSided: Bits := 0x1000
  const DirtyCullStyle: Bits := 0x2000
  const DirtySubdivTags: Bits := 0x4000
  const DirtyWidths: Bits := 0x8000
  const DirtyInstancer: Bits := 0x10000
  const DirtyInstanceIndex: Bits := 0x20000
  const DirtyRepr: Bits := 0x40000
  const DirtyRenderTag: Bits := 0x80000
  const DirtyComputationPrimvarDesc: Bits := 0x100000
  const DirtyCategories: Bits := 0x200000
  const AllSceneDirtyBits: Bits := 0x3F_FFFF
  const NewRepr: Bits := 0x400000

  // HdLight::DirtyBits
  const LightDirtyTransform: Bits := 0x1
  const LightDirtyParams: Bits := 0x2

  predicate IsSet(bits: Bits, flag: Bits) {
    bits & flag != 0
  }

  // Primvar names with a dedicated dirty bit (HdTokens).
  const Points: string := "points"
  const Normals: string := "normals"
  const Widths: string := "widths"
  const PrimvarToken: string := "primvar"

  /** HdChangeTracker::IsPrimvarDirty: which bit guards the primvar `name`. */
  predicate IsPrimvarDirty(bits: Bits, name: string) {
    if name == Points then IsSet(bits, DirtyPoints)
    else if name == Normals then IsSet(bits, DirtyNormals)
    else if name == Widths then IsSet(bits, DirtyWidths)
    else IsSet(bits, DirtyPrimvar)
  }

  predicate IsTopologyDirty(bits: Bits) { IsSet(bits, DirtyTopology) }
  predicate IsSubdivTagsDirty(bits: Bits) { IsSet(bits, DirtySubdivTags) }
  predicate IsDisplayStyleDirty(bits: Bits) { IsSet(bits, DirtyDisplayStyle) }
  predicate IsTransformDirty(bits: Bits) { IsSet(bits, DirtyTransform) }
  predicate IsVisibilityDirty(bits: Bits) { IsSet(bits, DirtyVisibility) }
  predicate IsCullStyleDirty(bits: Bits) { IsSet(bits, DirtyCullStyle) }
  predicate IsDoubleSidedDirty(bits: Bits) { IsSet(bits, DirtyDoubleSided) }

  /** The mask left after a sync cleans every scene bit: `bits & ~AllSceneDirtyBits`. */
  function CleanSceneBits(bits: Bits): (r: Bits)
    ensures r & AllSceneDirtyBits == 0
    ensures IsSet(bits, NewRepr) <==> IsSet(r, NewRepr)
  {
    bits & !AllSceneDirtyBits
  }
}
