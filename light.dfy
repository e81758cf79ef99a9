/**
 * The light prim: a cache of the light's transform and parameters, pulled
 * from the scene delegate under the light's two dirty bits, with fixed
 * defaults for the parameters and a flag saying whether the light has been
 * created in LuxCore.
 */
module Light {
  import opened Values
  import opened DirtyBits

  const DefaultIntensity: real := 1.0
  const DefaultExposure: real := 1.0
  const DefaultColor: Vec3 := Vec3(1.0, 1.0, 1.0)

  /**
   * What the scene delegate answers for a light: the transform, if the
   * value holds a matrix, and the four parameters (treat-as-point only if
   * one was authored).
   */
  datatype LightInputs = LightInputs(transform: Option<Matrix4>, color: Vec3, intensity: real,
                                     exposure: real, treatAsPoint: Option<bool>)

  /** The cached state a sync may overwrite. */
  datatype LightParams = LightParams(transform: Matrix4, color: Vec3, intensity: real,
                                     exposure: real, treatAsPoint: bool)

  /** GetInitialDirtyBitsMask: the transform and the parameters. */
  function InitialDirtyBitsMask(): (mask: Bits)
    ensures IsSet(mask, LightDirtyTransform) && IsSet(mask, LightDirtyParams)
    ensures mask & !(LightDirtyTransform | LightDirtyParams) == 0
  {
    LightDirtyTransform | LightDirtyParams
  }

  /**
   * The cache after a sync: the transform only under its bit (the
   * delegate's matrix, or the identity when the value holds none), the four
   * parameters only under the parameters bit (treat-as-point false when
   * none was authored).
   */
  function SyncedParams(p: LightParams, d: LightInputs, bits: Bits): (r: LightParams)
    ensures !IsSet(bits, LightDirtyTransform) ==> r.transform == p.transform
    ensures IsSet(bits, LightDirtyTransform) && d.transform.None? ==> r.transform == Identity
    ensures !IsSet(bits, LightDirtyParams) ==>
      r.color == p.color && r.intensity == p.intensity && r.exposure == p.exposure &&
      r.treatAsPoint == p.treatAsPoint
    ensures IsSet(bits, LightDirtyParams) && d.treatAsPoint.None? ==> !r.treatAsPoint
  {
    var transform := if IsSet(bits, LightDirtyTransform) then d.transform.GetOr(Identity) else p.transform;
    if IsSet(bits, LightDirtyParams) then
      LightParams(transform, d.color, d.intensity, d.exposure, d.treatAsPoint.GetOr(false))
    else
      LightParams(transform, p.color, p.intensity, p.exposure, p.treatAsPoint)
  }

  /** A sync under no light bit keeps the cache. */
  lemma CleanSyncKeeps(p: LightParams, d: LightInputs, bits: Bits)
    requires !IsSet(bits, LightDirtyTransform) && !IsSet(bits, LightDirtyParams)
    ensures SyncedParams(p, d, bits) == p
  {
  }

  /** Syncing twice from the same delegate answers is syncing once. */
  lemma SyncIdempotent(p: LightParams, d: LightInputs, bits: Bits)
    ensures SyncedParams(SyncedParams(p, d, bits), d, bits) == SyncedParams(p, d, bits)
  {
  }

  /**
   * The first sync, under the initial mask, overwrites the whole cache, so
   * its result does not depend on what the cache held before (the
   * transform and treat-as-point start undetermined).
   */
  lemma InitialSyncOverwritesAll(p1: LightParams, p2: LightParams, d: LightInputs)
    ensures SyncedParams(p1, d, InitialDirtyBitsMask()) == SyncedParams(p2, d, InitialDirtyBitsMask())
    ensures SyncedParams(p1, d, InitialDirtyBitsMask()) ==
      LightParams(d.transform.GetOr(Identity), d.color, d.intensity, d.exposure, d.treatAsPoint.GetOr(false))
  {
  }

  class Light {
    const id: string
    /** The light type, fixed at construction. */
    const lightType: string
    var transform: Matrix4
    var intensity: real
    var exposure: real
    var color: Vec3
    var created: bool
    var treatAsPoint: bool

    /** The part of the state Sync may overwrite. */
    function Params(): LightParams
      reads this`transform, this`color, this`intensity, this`exposure, this`treatAsPoint
    {
      LightParams(transform, color, intensity, exposure, treatAsPoint)
    }

    /**
     * Not created, intensity 1, exposure 1, colour (1,1,1). The transform
     * and treat-as-point are left undetermined, as their construction
     * leaves them.
     */
    constructor (id: string, lightType: string)
      ensures this.id == id && this.lightType == lightType
      ensures !created
      ensures intensity == DefaultIntensity && exposure == DefaultExposure && color == DefaultColor
    {
      this.id := id;
      this.lightType := lightType;
      intensity := DefaultIntensity;
      exposure := DefaultExposure;
      color := DefaultColor;
      created := false;
    }

    function GetCreated(): (r: bool)
      reads this`created
      ensures r == created
    {
      created
    }

    method SetCreated(c: bool)
      modifies this`created
      ensures GetCreated() == c
    {
      created := c;
    }

    /**
     * Sync: updates the cache as SyncedParams says. It touches neither the
     * created flag nor the light type, and the dirty bits are an input it
     * does not write back.
     */
    method Sync(d: LightInputs, bits: Bits)
      modifies this`transform, this`color, this`intensity, this`exposure, this`treatAsPoint
      ensures Params() == SyncedParams(old(Params()), d, bits)
      ensures created == old(created)
    {
      if IsSet(bits, LightDirtyTransform) {
        match d.transform
        case Some(m) => transform := m;
        case None => transform := Identity;
      }
      if IsSet(bits, LightDirtyParams) {
        color := d.color;
        intensity := d.intensity;
        exposure := d.exposure;
        treatAsPoint := d.treatAsPoint.GetOr(false);
      }
    }

    /** Finalize: releases nothing and changes no state. */
    method Finalize()
      ensures unchanged(this)
    {
    }
  }
}
