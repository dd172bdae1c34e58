/**
 * The Windows and DirectInput 8 vocabulary the force-feedback layer works on:
 * fixed-width integers, GUIDs, HRESULTs, and the DIEFFECT parameter block with
 * its type-specific payloads.
 *
 * DIEFFECT is a value here. Its pointer fields that the force-feedback layer
 * writes through (the type-specific block, and the sample array of a custom
 * force) are heap objects, so that aliasing between a struct and its shallow
 * copies is visible; the pointer fields it only reads (axes, directions,
 * envelope) are optional values.
 */
module DirectInput {
  import opened Wrappers

  /** DWORD */
  type Dword = x: int | 0 <= x < 0x1_0000_0000
  /** LONG */
  type Long = x: int | -0x8000_0000 <= x < 0x8000_0000

  /** HRESULT: negative values are failures. */
  type HResult = Long

  const DI_OK: HResult := 0
  /** E_POINTER, 0x80004003 as a signed 32-bit value. */
  const E_POINTER: HResult := -2147467261
  /** DIERR_UNSUPPORTED, defined as E_NOTIMPL, 0x80004001 as a signed 32-bit value. */
  const DIERR_UNSUPPORTED: HResult := -2147467263

  predicate Succeeded(hr: HResult) { hr >= 0 }

  /** A GUID as the 16 bytes it occupies in memory. */
  type Guid = s: seq<bv8> | |s| == 16 witness [0, 0, 0, 0, 0, 0, 0, 0, 0, 0, 0, 0, 0, 0, 0, 0]

  const ZERO_GUID: Guid := [0, 0, 0, 0, 0, 0, 0, 0, 0, 0, 0, 0, 0, 0, 0, 0]

  /**
   * The predefined effect GUIDs of dinput.h are 13541C2x-8E33-11D0-9AD0-00A0C9A06E35;
   * in memory Data1 is little-endian, so only the first byte differs between them.
   */
  function PredefinedEffectGuid(low: bv8): Guid {
    [low, 0x1C, 0x54, 0x13, 0x33, 0x8E, 0xD0, 0x11, 0x9A, 0xD0, 0x00, 0xA0, 0xC9, 0xA0, 0x6E, 0x35]
  }

  const GUID_ConstantForce: Guid := PredefinedEffectGuid(0x20)
  const GUID_RampForce: Guid := PredefinedEffectGuid(0x21)
  const GUID_Square: Guid := PredefinedEffectGuid(0x22)
  const GUID_Sine: Guid := PredefinedEffectGuid(0x23)
  const GUID_Triangle: Guid := PredefinedEffectGuid(0x24)
  const GUID_SawtoothUp: Guid := PredefinedEffectGuid(0x25)
  const GUID_SawtoothDown: Guid := PredefinedEffectGuid(0x26)
  const GUID_Spring: Guid := PredefinedEffectGuid(0x27)
  const GUID_Damper: Guid := PredefinedEffectGuid(0x28)
  const GUID_Inertia: Guid := PredefinedEffectGuid(0x29)
  const GUID_Friction: Guid := PredefinedEffectGuid(0x2A)
  const GUID_CustomForce: Guid := PredefinedEffectGuid(0x2B)

  /** Sizes of the type-specific structures (64-bit layout). */
  const SIZEOF_DICONSTANTFORCE: nat := 4
  const SIZEOF_DIRAMPFORCE: nat := 8
  const SIZEOF_DIPERIODIC: nat := 16
  const SIZEOF_DICONDITION: nat := 24
  /** Three DWORDs, then an 8-byte-aligned pointer. */
  const SIZEOF_DICUSTOMFORCE: nat := 24

  /** DISFFC_* commands of SendForceFeedbackCommand. */
  const DISFFC_RESET: Dword := 0x01
  const DISFFC_STOPALL: Dword := 0x02
  const DISFFC_PAUSE: Dword := 0x04
  const DISFFC_CONTINUE: Dword := 0x08
  const DISFFC_SETACTUATORSON: Dword := 0x10
  const DISFFC_SETACTUATORSOFF: Dword := 0x20

  /** DICONDITION: one entry per axis. */
  datatype Condition = Condition(
    lOffset: Long,
    lPositiveCoefficient: Long,
    lNegativeCoefficient: Long,
    dwPositiveSaturation: Dword,
    dwNegativeSaturation: Dword,
    lDeadBand: Long)

  /**
   * What lies in the memory lpvTypeSpecificParams points at, tagged by the
   * structure the caller put there. Opaque is a block of some other layout,
   * known only by its size in bytes.
   */
  datatype Layout =
    | ConstantForce(lMagnitude: Long)
    | RampForce(lStart: Long, lEnd: Long)
    | Periodic(dwMagnitude: Dword, lOffset: Long, dwPhase: Dword, dwPeriod: Dword)
    | Conditions(conds: seq<Condition>)
    | CustomForce(cChannels: Dword, cSamples: Dword, dwSamplePeriod: Dword, rglForceData: array?<Long>)
    | Opaque(size: nat)

  /** The number of bytes a block of this layout occupies. */
  function LayoutSize(l: Layout): nat {
    match l
    case ConstantForce(_) => SIZEOF_DICONSTANTFORCE
    case RampForce(_, _) => SIZEOF_DIRAMPFORCE
    case Periodic(_, _, _, _) => SIZEOF_DIPERIODIC
    case Conditions(conds) => SIZEOF_DICONDITION * |conds|
    case CustomForce(_, _, _, _) => SIZEOF_DICUSTOMFORCE
    case Opaque(size) => size
  }

  /** cSamples * cChannels as the DWORD product the source computes (it wraps modulo 2^32). */
  function SampleCount(cChannels: Dword, cSamples: Dword): nat {
    (cSamples * cChannels) % 0x1_0000_0000
  }

  /** The memory block behind lpvTypeSpecificParams. */
  class ParamBuffer {
    var layout: Layout

    constructor (layout: Layout)
      ensures this.layout == layout
    {
      this.layout := layout;
    }
  }

  /** DIENVELOPE */
  datatype Envelope = Envelope(
    dwSize: Dword, dwAttackLevel: Dword, dwAttackTime: Dword, dwFadeLevel: Dword, dwFadeTime: Dword)

  const ZERO_ENVELOPE := Envelope(0, 0, 0, 0, 0)

  /** DIEFFECT */
  datatype DiEffect = DiEffect(
    dwSize: Dword,
    dwFlags: Dword,
    dwDuration: Dword,
    dwSamplePeriod: Dword,
    dwGain: Dword,
    dwTriggerButton: Dword,
    dwTriggerRepeatInterval: Dword,
    cAxes: Dword,
    rgdwAxes: Option<seq<Dword>>,
    rglDirection: Option<seq<Long>>,
    lpEnvelope: Option<Envelope>,
    cbTypeSpecificParams: Dword,
    lpvTypeSpecificParams: ParamBuffer?,
    dwStartDelay: Dword)

  /** A DIEFFECT after memset(0): every count zero, every pointer null. */
  const ZERO_EFFECT := DiEffect(0, 0, 0, 0, 0, 0, 0, 0, None, None, None, 0, null, 0)

  /**
   * The memory a DIEFFECT describes really exists: the axis and direction
   * arrays hold cAxes entries, the type-specific block holds cbTypeSpecificParams
   * bytes, and a custom force's sample array holds cSamples * cChannels samples.
   * Reading past these is undefined behaviour in the source, not modelled.
   */
  predicate MemoryOk(e: DiEffect)
    reads e.lpvTypeSpecificParams
  {
    && ArraysOk(e)
    && (e.lpvTypeSpecificParams != null ==>
          var l := e.lpvTypeSpecificParams.layout;
          && e.cbTypeSpecificParams <= LayoutSize(l)
          && (l.CustomForce? && l.rglForceData != null ==>
                SampleCount(l.cChannels, l.cSamples) <= l.rglForceData.Length))
  }

  /** The axis and direction arrays hold cAxes entries. */
  predicate ArraysOk(e: DiEffect) {
    && (e.rgdwAxes.Some? ==> e.cAxes <= |e.rgdwAxes.value|)
    && (e.rglDirection.Some? ==> e.cAxes <= |e.rglDirection.value|)
  }

  /** The heap objects a DIEFFECT points at and the scaler may write. */
  function Footprint(e: DiEffect): set<object>
    reads e.lpvTypeSpecificParams
  {
    if e.lpvTypeSpecificParams == null then {}
    else
      var l := e.lpvTypeSpecificParams.layout;
      {e.lpvTypeSpecificParams} +
      (if l.CustomForce? && l.rglForceData != null then {l.rglForceData} else {})
  }

  /** An out-pointer a callee writes through; null when the caller passed none. */
  class Out<T> {
    var value: T

    constructor (value: T)
      ensures this.value == value
    {
      this.value := value;
    }
  }
}
