/**
 * The render delegate's fixed tables: the default descriptor it proposes
 * for each AOV, the prim types it supports and the factories that build
 * them, and the shared resource registry counted across live delegates.
 */
module RenderDelegate {
  import opened Values
  import opened Aov

  /** The default descriptor of an AOV, by its full token (prefix included). */
  function DefaultAovDescriptor(name: string): (d: AovDescriptor)
    ensures d.multiSampled <==> name == Color
    ensures d == DefaultDescriptor <==>
      !(name == Color || IsNormalName(name) || IsDepthName(name) || IsIdName(name) ||
        ParseAov(name).isPrimvar)
    ensures d != DefaultDescriptor ==> d.clearValue.Single?
  {
    if name == Color then
      AovDescriptor(UNorm8Vec4, true, Single(FloatVec4Elem(Vec4(0.0, 0.0, 0.0, 0.0))))
    else if name == Normal || name == Neye then
      AovDescriptor(Float32Vec3, false, Single(FloatVec3Elem(Vec3(-1.0, -1.0, -1.0))))
    else if name == Depth then
      AovDescriptor(Float32, false, Single(FloatElem(1.0)))
    else if name == LinearDepth then
      AovDescriptor(Float32, false, Single(FloatElem(0.0)))
    else if name == PrimId || name == InstanceId || name == ElementId then
      AovDescriptor(Int32, false, Single(Int32Elem(-1)))
    else if ParseAov(name).isPrimvar then
      AovDescriptor(Float32Vec3, false, Single(FloatVec3Elem(Vec3(0.0, 0.0, 0.0))))
    else
      DefaultDescriptor
  }

  /** No fixed AOV token starts with the primvar prefix. */
  lemma PrimvarTokenNotFixed(name: string)
    requires PrimvarsPrefix <= name
    ensures !(name == Color || IsNormalName(name) || IsDepthName(name) || IsIdName(name))
  {
    assert name[0] == 'p' && name[1] == 'r';
  }

  /**
   * The fixed default descriptors of the named AOVs, and the one every
   * primvar AOV gets.
   */
  lemma DefaultAovDescriptorTable()
    ensures DefaultAovDescriptor(Color) ==
      AovDescriptor(UNorm8Vec4, true, Single(FloatVec4Elem(Vec4(0.0, 0.0, 0.0, 0.0))))
    ensures DefaultAovDescriptor(Normal) == DefaultAovDescriptor(Neye) ==
      AovDescriptor(Float32Vec3, false, Single(FloatVec3Elem(Vec3(-1.0, -1.0, -1.0))))
    ensures DefaultAovDescriptor(Depth) == AovDescriptor(Float32, false, Single(FloatElem(1.0)))
    ensures DefaultAovDescriptor(LinearDepth) == AovDescriptor(Float32, false, Single(FloatElem(0.0)))
    ensures DefaultAovDescriptor(PrimId) == DefaultAovDescriptor(InstanceId) ==
      DefaultAovDescriptor(ElementId) == AovDescriptor(Int32, false, Single(Int32Elem(-1)))
    ensures DefaultAovDescriptor("lpe:C.*") == DefaultDescriptor
    ensures forall name | PrimvarsPrefix <= name ::
      DefaultAovDescriptor(name) == AovDescriptor(Float32Vec3, false, Single(FloatVec3Elem(Vec3(0.0, 0.0, 0.0))))
  {
    forall name | PrimvarsPrefix <= name
      ensures DefaultAovDescriptor(name) == AovDescriptor(Float32Vec3, false, Single(FloatVec3Elem(Vec3(0.0, 0.0, 0.0))))
    {
      PrimvarTokenNotFixed(name);
    }
    assert !(PrimvarsPrefix <= "lpe:C.*") by { assert "lpe:C.*"[0] != PrimvarsPrefix[0]; }
  }

  /**
   * A buffer allocated from a non-empty default descriptor, at the
   * viewport's size and with the descriptor's clear value, passes every
   * rule of the validator -- except for a primvar AOV whose name after the
   * prefix is a depth or id name, which the validator reads as that AOV.
   */
  lemma DefaultDescriptorAccepted(name: string, width: nat, height: nat)
    requires DefaultAovDescriptor(name) != DefaultDescriptor
    requires var p := ParseAov(name); !(p.isPrimvar && (IsDepthName(p.name) || IsIdName(p.name)))
    ensures var d := DefaultAovDescriptor(name);
      BindingAccepted(ParseAov(name), Some(BufferView(d.format, width, height)), d.clearValue, width, height)
  {
    var p := ParseAov(name);
    if !p.isPrimvar {
      assert !(LpePrefix <= name) && !(ShaderPrefix <= name) by {
        assert name[0] != 's';
        assert name[0] == 'l' ==> name[1] != 'p';
      }
    } else {
      assert !(name == Color || IsNormalName(name) || IsDepthName(name) || IsIdName(name)) by {
        assert PrimvarsPrefix <= name;
        assert name[0] == 'p';
      }
    }
  }

  /**
   * The exception above happens: "primvars:depth" gets the Float32Vec3
   * primvar descriptor, but the validator sees the name "depth" and asks for
   * Float32, so a buffer allocated from that descriptor never validates.
   */
  lemma PrimvarDepthDescriptorRejected(width: nat, height: nat)
    ensures var d := DefaultAovDescriptor("primvars:depth");
      d.format == Float32Vec3 &&
      !BindingAccepted(ParseAov("primvars:depth"), Some(BufferView(d.format, width, height)),
                       d.clearValue, width, height)
  {
    assert PrimvarsPrefix <= "primvars:depth";
    assert "primvars:depth"[|PrimvarsPrefix|..] == Depth;
  }

  // HdPrimTypeTokens
  const MeshType: string := "mesh"
  const CameraType: string := "camera"
  const ExtComputationType: string := "extComputation"
  const RenderBufferType: string := "renderBuffer"

  const SupportedRprimTypes: seq<string> := [MeshType]
  const SupportedSprimTypes: seq<string> := [CameraType, ExtComputationType]
  const SupportedBprimTypes: seq<string> := [RenderBufferType]

  /** SdfPath::EmptyPath, the id of a fallback prim. */
  const EmptyPath: string := ""

  /** A prim a factory builds, with the ids it was built from. */
  datatype Prim =
    | MeshPrim(id: string, instancerId: string)
    | CameraPrim(id: string)
    | ExtComputationPrim(id: string)
    | RenderBufferPrim(id: string)

  /** The type token of a prim. */
  function TypeOfPrim(p: Prim): string {
    match p
    case MeshPrim(_, _) => MeshType
    case CameraPrim(_) => CameraType
    case ExtComputationPrim(_) => ExtComputationType
    case RenderBufferPrim(_) => RenderBufferType
  }

  /** CreateRprim: a mesh for the mesh type, nothing (None for nullptr) for any other type. */
  function CreateRprim(typeId: string, rprimId: string, instancerId: string): (r: Option<Prim>)
    ensures r.Some? <==> typeId in SupportedRprimTypes
    ensures r.Some? ==> TypeOfPrim(r.value) == typeId && r.value.id == rprimId
    ensures r.Some? ==> r.value.instancerId == instancerId
  {
    if typeId == MeshType then Some(MeshPrim(rprimId, instancerId)) else None
  }

  /** CreateSprim: a camera or an external computation, nothing for any other type. */
  function CreateSprim(typeId: string, sprimId: string): (r: Option<Prim>)
    ensures r.Some? <==> typeId in SupportedSprimTypes
    ensures r.Some? ==> TypeOfPrim(r.value) == typeId && r.value.id == sprimId
  {
    if typeId == CameraType then Some(CameraPrim(sprimId))
    else if typeId == ExtComputationType then Some(ExtComputationPrim(sprimId))
    else None
  }

  /** CreateFallbackSprim: as CreateSprim, with the empty path as id. */
  function CreateFallbackSprim(typeId: string): (r: Option<Prim>)
    ensures r.Some? <==> typeId in SupportedSprimTypes
    ensures r.Some? ==> TypeOfPrim(r.value) == typeId && r.value.id == EmptyPath
  {
    if typeId == CameraType then Some(CameraPrim(EmptyPath))
    else if typeId == ExtComputationType then Some(ExtComputationPrim(EmptyPath))
    else None
  }

  /** CreateBprim: a render buffer for the render-buffer type, nothing for any other type. */
  function CreateBprim(typeId: string, bprimId: string): (r: Option<Prim>)
    ensures r.Some? <==> typeId in SupportedBprimTypes
    ensures r.Some? ==> TypeOfPrim(r.value) == typeId && r.value.id == bprimId
  {
    if typeId == RenderBufferType then Some(RenderBufferPrim(bprimId)) else None
  }

  /** CreateFallbackBprim: as CreateBprim, with the empty path as id. */
  function CreateFallbackBprim(typeId: string): (r: Option<Prim>)
    ensures r.Some? <==> typeId in SupportedBprimTypes
    ensures r.Some? ==> TypeOfPrim(r.value) == typeId && r.value.id == EmptyPath
  {
    if typeId == RenderBufferType then Some(RenderBufferPrim(EmptyPath)) else None
  }

  /**
   * The resource registry shared by every live delegate, with the count of
   * live delegates: the first delegate creates it and the last one to go
   * resets it.
   */
  class RegistryCounter {
    var counter: int
    var registryExists: bool

    /** The registry exists exactly while some delegate is alive. */
    predicate Valid()
      reads this
    {
      counter >= 0 && (registryExists <==> counter > 0)
    }

    constructor ()
      ensures Valid() && counter == 0 && !registryExists
    {
      counter := 0;
      registryExists := false;
    }

    /** The registry part of _Initialize: fetch_add(1), creating the registry when the old count was 0. */
    method Initialize()
      requires Valid()
      modifies this
      ensures Valid()
      ensures counter == old(counter) + 1 && registryExists
      ensures old(counter) == 0 ==> !old(registryExists)
    {
      var previous := counter;
      counter := counter + 1;
      if previous == 0 {
        registryExists := true;
      }
    }

    /** The registry part of the destructor: fetch_sub(1), resetting the registry when the old count was 1. */
    method Destroy()
      requires Valid() && counter > 0
      modifies this
      ensures Valid()
      ensures counter == old(counter) - 1
      ensures registryExists <==> counter > 0
      ensures old(counter) > 1 ==> registryExists
    {
      var previous := counter;
      counter := counter - 1;
      if previous == 1 {
        registryExists := false;
      }
    }
  }
}
