/**
 * The renderer object that owns the AOV bindings: it parses their names,
 * validates them against the viewport (caching the verdict until the
 * bindings or the viewport change), clears the bound buffers and marks them
 * unconverged.
 */
module Renderer {
  import opened Values
  import opened Aov

  /** What the validator sees of a binding's buffer: nothing when none is bound. */
  function BufferOf(b: AovBinding): (v: Option<BufferView>)
    reads if b.renderBuffer == null then {} else {b.renderBuffer}
    ensures v.Some? <==> b.renderBuffer != null
    ensures v.Some? ==> v.value.format == b.renderBuffer.format
    ensures v.Some? ==> v.value.width == b.renderBuffer.width && v.value.height == b.renderBuffer.height
  {
    if b.renderBuffer == null then None
    else Some(BufferView(b.renderBuffer.format, b.renderBuffer.width, b.renderBuffer.height))
  }

  /** The colour part of a colour-typed clear element. */
  function ColorPart(e: Element): Option<Vec3> {
    match e
    case FloatVec3Elem(v) => Some(v)
    case FloatVec4Elem(v) => Some(Vec3(v.x, v.y, v.z))
    case DoubleVec3Elem(v) => Some(v)
    case DoubleVec4Elem(v) => Some(Vec3(v.x, v.y, v.z))
    case _ => None
  }

  const OpaqueBlack: Vec4 := Vec4(0.0, 0.0, 0.0, 1.0)

  /**
   * A clear value of count one -- a single value or a one-element array --
   * of one of the four colour types.
   */
  predicate IsColorClear(v: ClearValue) {
    !v.Empty? && TupleType(v).1 == 1 && IsColorType(TypeOf(v.elem))
  }

  /**
   * The colour a colour AOV is cleared to: the clear value's red, green and
   * blue with alpha forced to one; opaque black for anything that is not a
   * colour value of count one. The data is read through HdGetValueData,
   * which for a one-element array is its element.
   */
  function GetClearColor(v: ClearValue): (c: Vec4)
    ensures c.w == 1.0
    ensures IsColorClear(v) ==> ColorPart(v.elem) == Some(Vec3(c.x, c.y, c.z))
    ensures !IsColorClear(v) ==> c == OpaqueBlack
  {
    if v.Empty? || TupleType(v).1 != 1 then OpaqueBlack
    else match v.elem
      case FloatVec3Elem(f) => Vec4(f.x, f.y, f.z, 1.0)
      case FloatVec4Elem(f) => Vec4(f.x, f.y, f.z, 1.0)
      case DoubleVec3Elem(f) => Vec4(f.x, f.y, f.z, 1.0)
      case DoubleVec4Elem(f) => Vec4(f.x, f.y, f.z, 1.0)
      case _ => OpaqueBlack
  }

  /**
   * VtValue::Get<int32_t>: the held int, or 0 when the value holds anything
   * else -- another type, or an array, even of one int (Hydra reports a
   * coding error and hands back a default value).
   */
  function GetInt(v: ClearValue): (r: int)
    ensures v.Single? && v.elem.Int32Elem? ==> r == v.elem.i
    ensures !(v.Single? && v.elem.Int32Elem?) ==> r == 0
  {
    if v.Single? && v.elem.Int32Elem? then v.elem.i else 0
  }

  /** VtValue::Get<float>: the held float, or 0 for anything else, arrays included. */
  function GetFloat(v: ClearValue): (r: real)
    ensures v.Single? && v.elem.FloatElem? ==> r == v.elem.f
    ensures !(v.Single? && v.elem.FloatElem?) ==> r == 0.0
  {
    if v.Single? && v.elem.FloatElem? then v.elem.f else 0.0
  }

  /** VtValue::Get<GfVec3f>: the held vector, or the zero vector for anything else, arrays included. */
  function GetFloatVec3(v: ClearValue): (r: Vec3)
    ensures v.Single? && v.elem.FloatVec3Elem? ==> r == v.elem.v3
    ensures !(v.Single? && v.elem.FloatVec3Elem?) ==> r == Vec3(0.0, 0.0, 0.0)
  {
    if v.Single? && v.elem.FloatVec3Elem? then v.elem.v3 else Vec3(0.0, 0.0, 0.0)
  }

  /**
   * The pixel a clear writes into a buffer of format `format` bound to
   * `name`: four channels of clear colour for the colour AOV, one int, one
   * float or three floats by format otherwise, and nothing for any other
   * format.
   */
  function ClearPixel(name: ParsedAov, format: Format, v: ClearValue): (p: Option<seq<real>>)
    ensures name.name == Color ==> p.Some? && |p.value| == 4 && p.value[3] == 1.0
    ensures name.name != Color ==>
      (p.Some? <==> format == Int32 || format == Float32 || format == Float32Vec3)
    ensures name.name != Color && format == Int32 ==> p == Some([GetInt(v) as real])
    ensures name.name != Color && format == Float32 ==> p == Some([GetFloat(v)])
    ensures name.name != Color && format == Float32Vec3 ==>
      var f := GetFloatVec3(v); p == Some([f.x, f.y, f.z])
  {
    if name.name == Color then
      var c := GetClearColor(v);
      Some([c.x, c.y, c.z, c.w])
    else if format == Int32 then Some([GetInt(v) as real])
    else if format == Float32 then Some([GetFloat(v)])
    else if format == Float32Vec3 then
      var f := GetFloatVec3(v);
      Some([f.x, f.y, f.z])
    else None
  }

  /** The data of a single int, float or float-vec3 value, as the channels of one pixel. */
  function ValueChannels(e: Element): seq<real> {
    match e
    case Int32Elem(i) => [i as real]
    case FloatElem(f) => [f]
    case FloatVec3Elem(v) => [v.x, v.y, v.z]
    case _ => []
  }

  /**
   * For a binding the validator accepts with a single clear value, clearing a
   * non-colour AOV of format Int32, Float32 or Float32Vec3 writes exactly the
   * clear value: the type-mismatch fallbacks of VtValue::Get are not reached.
   * A one-element array is accepted too but does reach them
   * (OneElementArrayClearsToZero).
   */
  lemma AcceptedClearWritesValue(name: ParsedAov, buffer: BufferView, v: ClearValue, width: nat, height: nat)
    requires BindingAccepted(name, Some(buffer), v, width, height)
    requires v.Single? && name.name != Color
    requires buffer.format == Int32 || buffer.format == Float32 || buffer.format == Float32Vec3
    ensures ClearPixel(name, buffer.format, v) == Some(ValueChannels(v.elem))
  {
    match v.elem
    case Int32Elem(_) =>
    case FloatElem(_) =>
    case FloatVec3Elem(_) =>
    case _ =>
  }

  /** For an accepted colour binding, the clear writes the clear value's colour with alpha one. */
  lemma AcceptedColorClear(name: ParsedAov, buffer: BufferView, v: ClearValue, width: nat, height: nat)
    requires BindingAccepted(name, Some(buffer), v, width, height)
    requires !v.Empty? && name.name == Color
    ensures ClearPixel(name, buffer.format, v).Some?
    ensures var p := ClearPixel(name, buffer.format, v).value;
      ColorPart(v.elem) == Some(Vec3(p[0], p[1], p[2])) && p[3] == 1.0
  {
    assert IsColorClear(v);
  }

  /**
   * A one-element array of the buffer's element type passes the validator,
   * whose count rule cannot tell it from a single value, yet VtValue::Get
   * does not read through an array: a non-colour AOV is cleared to zero,
   * whatever the element holds.
   */
  lemma OneElementArrayClearsToZero(name: ParsedAov, buffer: BufferView, e: Element, width: nat, height: nat)
    requires name.name != Color && FormatAccepted(name, buffer.format)
    requires buffer.width == width && buffer.height == height
    requires || (buffer.format == Int32 && e.Int32Elem?)
             || (buffer.format == Float32 && e.FloatElem?)
             || (buffer.format == Float32Vec3 && e.FloatVec3Elem?)
    ensures BindingAccepted(name, Some(buffer), Array(e, 1), width, height)
    ensures buffer.format == Int32 || buffer.format == Float32 ==>
      ClearPixel(name, buffer.format, Array(e, 1)) == Some([0.0])
    ensures buffer.format == Float32Vec3 ==>
      ClearPixel(name, buffer.format, Array(e, 1)) == Some([0.0, 0.0, 0.0])
  {
  }

  /** The same one-element array on the colour AOV is read through, as a single value is. */
  lemma OneElementArrayColorClear(e: Element)
    requires IsColorType(TypeOf(e))
    ensures GetClearColor(Array(e, 1)) == GetClearColor(Single(e))
    ensures ColorPart(e).Some?
  {
  }

  /** What one cleared binding leaves in a buffer that already held `before`. */
  function ClearedFill(name: ParsedAov, format: Format, v: ClearValue, before: Fill): Fill {
    match ClearPixel(name, format, v)
    case Some(p) => ClearedTo(p)
    case None => before
  }

  /**
   * The fill of buffer `b` (of format `format`) after the bindings `bs` are
   * cleared in order, starting from `before`. When several bindings share a
   * buffer, the last one with a clear value decides.
   */
  function FillAfter(bs: seq<AovBinding>, b: RenderBuffer, format: Format, before: Fill): Fill
    decreases |bs|
  {
    if bs == [] then before
    else
      var last := bs[|bs| - 1];
      var prev := FillAfter(bs[..|bs| - 1], b, format, before);
      if last.renderBuffer == b && !last.clearValue.Empty?
      then ClearedFill(ParseAov(last.aovName), format, last.clearValue, prev)
      else prev
  }

  /** Some binding in `bs` with a clear value is bound to `b`. */
  predicate ClearsBuffer(bs: seq<AovBinding>, b: RenderBuffer)
    decreases |bs|
  {
    bs != [] &&
    var last := bs[|bs| - 1];
    (ClearsBuffer(bs[..|bs| - 1], b) || (last.renderBuffer == b && !last.clearValue.Empty?))
  }

  /** ClearsBuffer holds exactly when some binding with a clear value is bound to the buffer. */
  lemma {:induction false} ClearsBufferSome(bs: seq<AovBinding>, b: RenderBuffer)
    ensures ClearsBuffer(bs, b) <==>
      exists i :: 0 <= i < |bs| && bs[i].renderBuffer == b && !bs[i].clearValue.Empty?
    decreases |bs|
  {
    if bs != [] {
      var init := bs[..|bs| - 1];
      ClearsBufferSome(init, b);
      if ClearsBuffer(init, b) {
        var i :| 0 <= i < |init| && init[i].renderBuffer == b && !init[i].clearValue.Empty?;
        assert bs[i] == init[i];
      }
      if exists i :: 0 <= i < |bs| && bs[i].renderBuffer == b && !bs[i].clearValue.Empty? {
        var i :| 0 <= i < |bs| && bs[i].renderBuffer == b && !bs[i].clearValue.Empty?;
        if i < |init| {
          assert init[i] == bs[i];
        }
      }
    }
  }

  /** A buffer no binding of `bs` clears keeps its fill. */
  lemma {:induction false} FillAfterUntouched(bs: seq<AovBinding>, b: RenderBuffer, format: Format, before: Fill)
    requires !ClearsBuffer(bs, b)
    ensures FillAfter(bs, b, format, before) == before
    decreases |bs|
  {
    if bs != [] {
      FillAfterUntouched(bs[..|bs| - 1], b, format, before);
    }
  }

  /**
   * HdLuxCoreRenderer. The LuxCore scene handle and the camera matrices it
   * holds are not part of this model.
   */
  class Renderer {
    var aovBindings: seq<AovBinding>
    var aovNames: seq<ParsedAov>
    var aovBindingsNeedValidation: bool
    var aovBindingsValid: bool
    var width: nat
    var height: nat
    var samplesToConvergence: int
    var ambientOcclusionSamples: int
    var enableSceneColors: bool
    var completedSamples: int

    /** The buffers the bindings point at. */
    function Buffers(): set<RenderBuffer?>
      reads this`aovBindings
    {
      set i | 0 <= i < |aovBindings| && aovBindings[i].renderBuffer != null :: aovBindings[i].renderBuffer
    }

    /**
     * aovNames holds the parsed name of every binding; a cached positive
     * verdict implies every binding has a buffer; no sample is ever counted
     * (the tile renderer is disabled).
     */
    predicate Valid()
      reads this`aovNames, this`aovBindings, this`aovBindingsNeedValidation, this`aovBindingsValid,
            this`completedSamples
    {
      && |aovNames| == |aovBindings|
      && (forall i :: 0 <= i < |aovBindings| ==> aovNames[i] == ParseAov(aovBindings[i].aovName))
      && (!aovBindingsNeedValidation && aovBindingsValid ==>
            forall i :: 0 <= i < |aovBindings| ==> aovBindings[i].renderBuffer != null)
      && completedSamples == 0
    }

    /** Binding `i` meets every rule for the current viewport. */
    predicate BindingOk(i: nat)
      requires i < |aovBindings| && |aovNames| == |aovBindings|
      reads this`aovBindings, this`aovNames, this`width, this`height, Buffers()
    {
      assert aovBindings[i].renderBuffer != null ==> aovBindings[i].renderBuffer in Buffers();
      BindingAccepted(aovNames[i], BufferOf(aovBindings[i]), aovBindings[i].clearValue, width, height)
    }

    /** The verdict a fresh validation reaches: every binding meets every rule. */
    predicate AllBindingsOk()
      requires |aovNames| == |aovBindings|
      reads this`aovBindings, this`aovNames, this`width, this`height, Buffers()
    {
      forall i :: 0 <= i < |aovBindings| ==> BindingOk(i)
    }

    constructor ()
      ensures Valid()
      ensures aovBindings == [] && aovNames == []
      ensures !aovBindingsNeedValidation && !aovBindingsValid
      ensures width == 0 && height == 0
      ensures samplesToConvergence == 0 && ambientOcclusionSamples == 0 && !enableSceneColors
    {
      aovBindings := [];
      aovNames := [];
      aovBindingsNeedValidation := false;
      aovBindingsValid := false;
      width := 0;
      height := 0;
      samplesToConvergence := 0;
      ambientOcclusionSamples := 0;
      enableSceneColors := false;
      completedSamples := 0;
    }

    method SetSamplesToConvergence(n: int)
      modifies this`samplesToConvergence
      ensures samplesToConvergence == n
    {
      samplesToConvergence := n;
    }

    method SetAmbientOcclusionSamples(n: int)
      modifies this`ambientOcclusionSamples
      ensures ambientOcclusionSamples == n
    {
      ambientOcclusionSamples := n;
    }

    method SetEnableSceneColors(enable: bool)
      modifies this`enableSceneColors
      ensures enableSceneColors == enable
    {
      enableSceneColors := enable;
    }

    /** A new viewport invalidates the cached verdict: buffer and render sizes must match. */
    method SetViewport(w: nat, h: nat)
      requires Valid()
      modifies this`width, this`height, this`aovBindingsNeedValidation
      ensures Valid()
      ensures width == w && height == h && aovBindingsNeedValidation
    {
      width := w;
      height := h;
      aovBindingsNeedValidation := true;
    }

    /** Stores the bindings, parses each name in place, and invalidates the cached verdict. */
    method SetAovBindings(bindings: seq<AovBinding>)
      requires Valid()
      modifies this`aovBindings, this`aovNames, this`aovBindingsNeedValidation
      ensures Valid()
      ensures aovBindings == bindings && aovBindingsNeedValidation
    {
      aovBindings := bindings;
      // std::vector::resize: keep the old prefix, pad with default tokens.
      if |aovNames| >= |aovBindings| {
        aovNames := aovNames[..|aovBindings|];
      } else {
        aovNames := aovNames + seq(|aovBindings| - |aovNames|, _ => ParsedAov("", false, false, false));
      }
      var i := 0;
      while i < |aovBindings|
        invariant 0 <= i <= |aovBindings| == |aovNames|
        invariant aovBindings == bindings
        invariant forall j :: 0 <= j < i ==> aovNames[j] == ParseAov(aovBindings[j].aovName)
      {
        aovNames := aovNames[i := ParseAov(aovBindings[i].aovName)];
        i := i + 1;
      }
      aovBindingsNeedValidation := true;
    }

    /**
     * _ValidateAovBindings: returns the cached verdict unless the bindings
     * or viewport changed since it was computed; otherwise checks every
     * binding and caches the result. Unsupported AOV names only draw a
     * warning and do not fail validation.
     */
    method ValidateAovBindings() returns (ok: bool)
      requires Valid()
      modifies this`aovBindingsNeedValidation, this`aovBindingsValid
      ensures Valid()
      ensures ok == aovBindingsValid && !aovBindingsNeedValidation
      ensures !old(aovBindingsNeedValidation) ==> ok == old(aovBindingsValid)
      ensures old(aovBindingsNeedValidation) ==> (ok <==> AllBindingsOk())
    {
      if !aovBindingsNeedValidation {
        return aovBindingsValid;
      }
      aovBindingsNeedValidation := false;
      aovBindingsValid := true;
      CheckAllBindings();
      ok := aovBindingsValid;
    }

    /** The validator's loop: every binding is checked in turn, and any rejection clears the verdict. */
    method CheckAllBindings()
      requires |aovNames| == |aovBindings|
      modifies this`aovBindingsValid
      ensures aovBindingsValid <==> old(aovBindingsValid) && AllBindingsOk()
      ensures aovBindingsValid ==> forall j :: 0 <= j < |aovBindings| ==> aovBindings[j].renderBuffer != null
    {
      var i := 0;
      while i < |aovBindings|
        invariant 0 <= i <= |aovBindings|
        invariant aovBindingsValid <==> old(aovBindingsValid) && forall j :: 0 <= j < i ==> BindingOk(j)
        invariant aovBindingsValid ==> forall j :: 0 <= j < i ==> aovBindings[j].renderBuffer != null
      {
        label before:
        CheckBinding(i);
        assert aovBindings[i].renderBuffer != null ==> aovBindings[i].renderBuffer in Buffers();
        forall j | 0 <= j < i
          ensures BindingOk(j) == old@before(BindingOk(j))
        {
          assert aovBindings[j].renderBuffer != null ==> aovBindings[j].renderBuffer in Buffers();
        }
        assert BindingOk(i) ==
          BindingAccepted(aovNames[i], BufferOf(aovBindings[i]), aovBindings[i].clearValue, width, height);
        i := i + 1;
      }
    }

    /**
     * The checks of one binding, in the validator's order. A binding without
     * a buffer clears the verdict at once; otherwise every failed rule
     * rejects the binding (the rules are all checked, whatever fails first),
     * and a rejected binding clears the verdict.
     */
    method CheckBinding(i: nat)
      requires i < |aovBindings| && |aovNames| == |aovBindings|
      modifies this`aovBindingsValid
      ensures aovBindingsValid ==
        (old(aovBindingsValid) &&
         BindingAccepted(aovNames[i], BufferOf(aovBindings[i]), aovBindings[i].clearValue, width, height))
    {
      var accepted := true;
      var binding := aovBindings[i];
      var name := aovNames[i];
      if binding.renderBuffer == null {
        aovBindingsValid := false;
        return;
      }
      var format := binding.renderBuffer.format;
      var bufferWidth, bufferHeight := binding.renderBuffer.width, binding.renderBuffer.height;
      ghost var view := BufferOf(binding);
      if IsDepthName(name.name) && format != Float32 {
        accepted := false;
      }
      if IsIdName(name.name) && format != Int32 {
        accepted := false;
      }
      if IsNormalName(name.name) && format != Float32Vec3 {
        accepted := false;
      }
      if name.isPrimvar && format != Float32Vec3 {
        accepted := false;
      }
      if name.name == Color && !IsColorFormat(format) {
        accepted := false;
      }
      assert accepted == FormatAccepted(name, format);
      if !binding.clearValue.Empty? {
        var (clearType, count) := TupleType(binding.clearValue);
        if count != 1 {
          accepted := false;
        }
        if name.name == Color && !IsColorType(clearType) {
          accepted := false;
        }
        if (format == Float32 && clearType != TypeFloat) ||
           (format == Int32 && clearType != TypeInt32) ||
           (format == Float32Vec3 && clearType != TypeFloatVec3) {
          accepted := false;
        }
      }
      assert accepted ==
        (FormatAccepted(name, format) && ClearValueAccepted(name, format, binding.clearValue));
      if bufferWidth != width || bufferHeight != height {
        accepted := false;
      }
      assert view == Some(BufferView(format, bufferWidth, bufferHeight));
      aovBindingsValid := aovBindingsValid && accepted;
    }

    /** Every bound buffer is marked unconverged; nothing else about it changes. */
    method MarkAovBuffersUnconverged()
      requires Valid()
      requires forall i :: 0 <= i < |aovBindings| ==> aovBindings[i].renderBuffer != null
      modifies Buffers()
      ensures forall b :: b in Buffers() ==> !b.converged
      ensures forall b :: b in Buffers() ==>
        b.fill == old(b.fill) && b.format == old(b.format) &&
        b.width == old(b.width) && b.height == old(b.height)
    {
      var i := 0;
      while i < |aovBindings|
        invariant 0 <= i <= |aovBindings|
        invariant forall j :: 0 <= j < i ==> !aovBindings[j].renderBuffer.converged
        invariant forall b :: b in Buffers() ==>
          b.fill == old(b.fill) && b.format == old(b.format) &&
          b.width == old(b.width) && b.height == old(b.height)
      {
        var rb := aovBindings[i].renderBuffer;
        assert rb in Buffers();
        rb.converged := false;
        i := i + 1;
      }
      forall b | b in Buffers()
        ensures !b.converged
      {
        var j :| 0 <= j < |aovBindings| && aovBindings[j].renderBuffer == b;
      }
    }

    /**
     * Clear: when validation fails nothing is touched; otherwise every
     * binding with a clear value has its buffer filled with its clear pixel
     * and marked unconverged, in binding order.
     */
    method Clear()
      requires Valid()
      modifies this`aovBindingsNeedValidation, this`aovBindingsValid, Buffers()
      ensures Valid() && !aovBindingsNeedValidation
      ensures old(aovBindingsNeedValidation) ==> (aovBindingsValid <==> old(AllBindingsOk()))
      ensures !old(aovBindingsNeedValidation) ==> aovBindingsValid == old(aovBindingsValid)
      ensures forall b :: b in Buffers() ==>
        b.format == old(b.format) && b.width == old(b.width) && b.height == old(b.height)
      ensures !aovBindingsValid ==> forall b :: b in Buffers() ==>
        b.fill == old(b.fill) && b.converged == old(b.converged)
      ensures aovBindingsValid ==> forall b :: b in Buffers() ==>
        && b.fill == FillAfter(aovBindings, b, b.format, old(b.fill))
        && b.converged == (old(b.converged) && !ClearsBuffer(aovBindings, b))
    {
      var ok := ValidateAovBindings();
      if !ok {
        return;
      }
      ClearBuffers();
    }

    /** The clearing loop of Clear, over bindings that all have a buffer. */
    method ClearBuffers()
      requires Valid()
      requires forall i :: 0 <= i < |aovBindings| ==> aovBindings[i].renderBuffer != null
      modifies Buffers()
      ensures forall b :: b in Buffers() ==>
        b.format == old(b.format) && b.width == old(b.width) && b.height == old(b.height)
      ensures forall b :: b in Buffers() ==>
        && b.fill == FillAfter(aovBindings, b, b.format, old(b.fill))
        && b.converged == (old(b.converged) && !ClearsBuffer(aovBindings, b))
    {
      var i := 0;
      while i < |aovBindings|
        invariant 0 <= i <= |aovBindings|
        invariant forall b :: b in Buffers() ==>
          b.format == old(b.format) && b.width == old(b.width) && b.height == old(b.height)
        invariant forall b :: b in Buffers() ==>
          && b.fill == FillAfter(aovBindings[..i], b, b.format, old(b.fill))
          && b.converged == (old(b.converged) && !ClearsBuffer(aovBindings[..i], b))
      {
        var binding := aovBindings[i];
        if !binding.clearValue.Empty? {
          assert binding.renderBuffer in Buffers();
          ClearBuffer(binding.renderBuffer, aovNames[i], binding.clearValue);
        }
        ClearStep(aovBindings, i);
        i := i + 1;
      }
      assert aovBindings[..|aovBindings|] == aovBindings;
    }
  }

  /** One binding's clear: the buffer takes the clear pixel, when there is one, and is marked unconverged. */
  method ClearBuffer(rb: RenderBuffer, name: ParsedAov, v: ClearValue)
    modifies rb`fill, rb`converged
    ensures rb.fill == ClearedFill(name, rb.format, v, old(rb.fill)) && !rb.converged
  {
    var pixel := ClearPixel(name, rb.format, v);
    if pixel.Some? {
      rb.fill := ClearedTo(pixel.value);
    }
    rb.converged := false;
  }

  /** How FillAfter and ClearsBuffer extend by one binding. */
  lemma ClearStep(bs: seq<AovBinding>, i: nat)
    requires i < |bs|
    ensures forall b: RenderBuffer, format, before ::
      FillAfter(bs[..i + 1], b, format, before) ==
        if bs[i].renderBuffer == b && !bs[i].clearValue.Empty?
        then ClearedFill(ParseAov(bs[i].aovName), format, bs[i].clearValue,
                         FillAfter(bs[..i], b, format, before))
        else FillAfter(bs[..i], b, format, before)
    ensures forall b: RenderBuffer :: ClearsBuffer(bs[..i + 1], b) <==>
      ClearsBuffer(bs[..i], b) || (bs[i].renderBuffer == b && !bs[i].clearValue.Empty?)
  {
    var next := bs[..i + 1];
    assert next[..|next| - 1] == bs[..i];
    assert next[|next| - 1] == bs[i];
    forall b: RenderBuffer
      ensures ClearsBuffer(next, b) <==>
        ClearsBuffer(bs[..i], b) || (bs[i].renderBuffer == b && !bs[i].clearValue.Empty?)
    {
    }
  }
}
