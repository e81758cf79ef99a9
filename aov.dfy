/**
 * Output bindings (AOVs): buffer formats, clear values, parsed AOV names and
 * the render buffers they are bound to, together with the acceptance rules
 * the renderer applies to one binding.
 */
module Aov {
  import opened Values

  /** HdFormat */
  datatype Format =
    | FormatInvalid
    | UNorm8 | UNorm8Vec2 | UNorm8Vec3 | UNorm8Vec4
    | SNorm8 | SNorm8Vec2 | SNorm8Vec3 | SNorm8Vec4
    | Float16 | Float16Vec2 | Float16Vec3 | Float16Vec4
    | Float32 | Float32Vec2 | Float32Vec3 | Float32Vec4
    | Int32 | Int32Vec2 | Int32Vec3 | Int32Vec4

  /**
   * HdType of a value's elements. The six types whose data the renderer reads
   * are named; every other Hydra type is one of TypeOther's tags.
   */
  datatype HdType =
    | TypeInvalid
    | TypeInt32 | TypeFloat
    | TypeFloatVec3 | TypeFloatVec4
    | TypeDoubleVec3 | TypeDoubleVec4
    | TypeOther(tag: nat)

  /** The first element of a value, with its data where the renderer reads it. */
  datatype Element =
    | Int32Elem(i: int)
    | FloatElem(f: real)
    | FloatVec3Elem(v3: Vec3)
    | FloatVec4Elem(v4: Vec4)
    | DoubleVec3Elem(v3: Vec3)
    | DoubleVec4Elem(v4: Vec4)
    | OtherElem(tag: nat)

  function TypeOf(e: Element): HdType {
    match e
    case Int32Elem(_) => TypeInt32
    case FloatElem(_) => TypeFloat
    case FloatVec3Elem(_) => TypeFloatVec3
    case FloatVec4Elem(_) => TypeFloatVec4
    case DoubleVec3Elem(_) => TypeDoubleVec3
    case DoubleVec4Elem(_) => TypeDoubleVec4
    case OtherElem(t) => TypeOther(t)
  }

  /**
   * A clear value (VtValue): empty, a single value, or an array (VtArray) of
   * `size` values of one element type. An array keeps its first element,
   * which is all the renderer can read of it; an empty array keeps only its
   * element type, through an element whose data nothing reads.
   */
  datatype ClearValue = Empty | Single(elem: Element) | Array(elem: Element, size: nat)

  /**
   * HdGetValueTupleType: an empty value has type TypeInvalid and count 0, a
   * single value count 1 and an array its size.
   */
  function TupleType(v: ClearValue): (t: (HdType, nat))
    ensures v.Empty? <==> t.0 == TypeInvalid
    ensures !v.Empty? ==> t.0 == TypeOf(v.elem)
    ensures v.Single? ==> t.1 == 1
    ensures v.Array? ==> t.1 == v.size
  {
    match v
    case Empty => (TypeInvalid, 0)
    case Single(e) => (TypeOf(e), 1)
    case Array(e, n) => (TypeOf(e), n)
  }

  // HdAovTokens
  const Color: string := "color"
  const Depth: string := "depth"
  const LinearDepth: string := "linearDepth"
  const PrimId: string := "primId"
  const InstanceId: string := "instanceId"
  const ElementId: string := "elementId"
  const Normal: string := "normal"
  const Neye: string := "Neye"
  const PrimvarsPrefix: string := "primvars:"
  const LpePrefix: string := "lpe:"
  const ShaderPrefix: string := "shader:"

  /** HdParsedAovToken */
  datatype ParsedAov = ParsedAov(name: string, isPrimvar: bool, isLpe: bool, isShader: bool)

  /** Splits a namespaced AOV token ("primvars:st") into its kind and the name after the prefix. */
  function ParseAov(token: string): (p: ParsedAov)
    ensures p.isPrimvar <==> PrimvarsPrefix <= token
    ensures p.isPrimvar ==> token == PrimvarsPrefix + p.name
    ensures !p.isPrimvar && !p.isLpe && !p.isShader ==> p.name == token
    ensures !(p.isPrimvar && p.isLpe) && !(p.isPrimvar && p.isShader) && !(p.isLpe && p.isShader)
  {
    if PrimvarsPrefix <= token then ParsedAov(token[|PrimvarsPrefix|..], true, false, false)
    else if LpePrefix <= token then ParsedAov(token[|LpePrefix|..], false, true, false)
    else if ShaderPrefix <= token then ParsedAov(token[|ShaderPrefix|..], false, false, true)
    else ParsedAov(token, false, false, false)
  }

  predicate IsDepthName(name: string) { name == LinearDepth || name == Depth }
  predicate IsIdName(name: string) { name == PrimId || name == InstanceId || name == ElementId }
  predicate IsNormalName(name: string) { name == Neye || name == Normal }

  /** The AOVs the renderer knows how to fill. */
  predicate IsSupportedAov(p: ParsedAov) {
    p.name == Color || IsDepthName(p.name) || IsIdName(p.name) || IsNormalName(p.name) || p.isPrimvar
  }

  /** The six formats a color AOV may use: UNorm8, SNorm8 or Float32, as Vec3 or Vec4. */
  predicate IsColorFormat(f: Format) {
    f == UNorm8Vec4 || f == UNorm8Vec3 || f == SNorm8Vec4 ||
    f == SNorm8Vec3 || f == Float32Vec4 || f == Float32Vec3
  }

  /** Clear value types a color AOV accepts: float or double, Vec3 or Vec4. */
  predicate IsColorType(t: HdType) {
    t == TypeFloatVec3 || t == TypeFloatVec4 || t == TypeDoubleVec3 || t == TypeDoubleVec4
  }

  /** The format rules: what each AOV name demands of its buffer's format. */
  predicate FormatAccepted(p: ParsedAov, f: Format) {
    && (IsDepthName(p.name) ==> f == Float32)
    && (IsIdName(p.name) ==> f == Int32)
    && (IsNormalName(p.name) ==> f == Float32Vec3)
    && (p.isPrimvar ==> f == Float32Vec3)
    && (p.name == Color ==> IsColorFormat(f))
  }

  /** The clear-value rules: a single value, of a type compatible with the name and the format. */
  predicate ClearValueAccepted(p: ParsedAov, f: Format, v: ClearValue) {
    v.Empty? ||
    var (t, count) := TupleType(v);
    && count == 1
    && (p.name == Color ==> IsColorType(t))
    && (f == Float32 ==> t == TypeFloat)
    && (f == Int32 ==> t == TypeInt32)
    && (f == Float32Vec3 ==> t == TypeFloatVec3)
  }

  /** What the validator reads from a bound render buffer. */
  datatype BufferView = BufferView(format: Format, width: nat, height: nat)

  /** One binding is accepted when it has a buffer that meets every rule and matches the viewport. */
  predicate BindingAccepted(p: ParsedAov, buffer: Option<BufferView>, v: ClearValue,
                            width: nat, height: nat)
  {
    && buffer.Some?
    && FormatAccepted(p, buffer.value.format)
    && ClearValueAccepted(p, buffer.value.format, v)
    && buffer.value.width == width
    && buffer.value.height == height
  }

  /** A binding with no buffer, or with a buffer whose size is not the viewport's, is rejected. */
  lemma UnboundOrMisSizedRejected(p: ParsedAov, buffer: Option<BufferView>, v: ClearValue, width: nat, height: nat)
    requires buffer.None? || buffer.value.width != width || buffer.value.height != height
    ensures !BindingAccepted(p, buffer, v, width, height)
  {
  }

  /**
   * Each format rule rejects on its own: depth names need Float32, id names
   * Int32, normal names and primvars Float32Vec3, and colour one of the six
   * colour formats.
   */
  lemma FormatViolationsRejected(p: ParsedAov, buffer: BufferView, v: ClearValue, width: nat, height: nat)
    requires
      || (IsDepthName(p.name) && buffer.format != Float32)
      || (IsIdName(p.name) && buffer.format != Int32)
      || (IsNormalName(p.name) && buffer.format != Float32Vec3)
      || (p.isPrimvar && buffer.format != Float32Vec3)
      || (p.name == Color && !IsColorFormat(buffer.format))
    ensures !BindingAccepted(p, Some(buffer), v, width, height)
  {
  }

  /**
   * Clear values that are arrays of other than one element, that are not
   * colours on the colour AOV, or whose type does not match a Float32, Int32
   * or Float32Vec3 buffer are rejected. A one-element array passes the count
   * rule like a single value.
   */
  lemma ClearValueViolationsRejected(p: ParsedAov, buffer: BufferView, v: ClearValue, width: nat, height: nat)
    requires !v.Empty?
    requires
      || (v.Array? && v.size != 1)
      || (p.name == Color && !IsColorType(TypeOf(v.elem)))
      || (buffer.format == Float32 && TypeOf(v.elem) != TypeFloat)
      || (buffer.format == Int32 && TypeOf(v.elem) != TypeInt32)
      || (buffer.format == Float32Vec3 && TypeOf(v.elem) != TypeFloatVec3)
    ensures !BindingAccepted(p, Some(buffer), v, width, height)
  {
  }

  /**
   * A name the renderer does not support only draws a warning: bound to a
   * buffer of the viewport's size with no clear value, it is accepted
   * whatever the buffer's format.
   */
  lemma UnsupportedNameAccepted(p: ParsedAov, format: Format, width: nat, height: nat)
    requires !IsSupportedAov(p)
    ensures BindingAccepted(p, Some(BufferView(format, width, height)), Empty, width, height)
  {
  }

  /** HdAovDescriptor: the format, multisampling and clear value a renderer proposes for an AOV. */
  datatype AovDescriptor = AovDescriptor(format: Format, multiSampled: bool, clearValue: ClearValue)

  /** HdAovDescriptor(): invalid format, single-sampled, empty clear value. */
  const DefaultDescriptor: AovDescriptor := AovDescriptor(FormatInvalid, false, Empty)

  /** What a clear has written into a buffer: nothing yet, or one pixel value everywhere. */
  datatype Fill = NotCleared | ClearedTo(pixel: seq<real>)

  /**
   * The render buffer a binding writes to. Only the state the renderer and
   * the render pass touch is kept: size, format, convergence and the last
   * clear.
   */
  class RenderBuffer {
    var width: nat
    var height: nat
    var format: Format
    var converged: bool
    var fill: Fill

    constructor (width: nat, height: nat, format: Format)
      ensures this.width == width && this.height == height && this.format == format
      ensures !converged && fill == NotCleared
    {
      this.width := width;
      this.height := height;
      this.format := format;
      converged := false;
      fill := NotCleared;
    }
  }

  /** HdRenderPassAovBinding: an AOV name, the buffer it is bound to (possibly none) and its clear value. */
  datatype AovBinding = AovBinding(aovName: string, renderBuffer: RenderBuffer?, clearValue: ClearValue)
}
