/**
 * The per-device FFB policy and the force scaler (ffb_filter.h / ffb_filter.cpp).
 */
module Filter {
  import opened Wrappers
  import opened DirectInput

  /** The policy resolved from the configuration for one device. */
  datatype FFBPolicy = FFBPolicy(enabled: bool, scale: int)

  /** The member initialisers of FFBPolicy: allowed, full strength. */
  const DEFAULT_POLICY := FFBPolicy(true, 100)

  // ---- Effect classification ----

  predicate IsConditionEffect(guid: Guid) {
    guid == GUID_Spring || guid == GUID_Damper || guid == GUID_Inertia || guid == GUID_Friction
  }

  predicate IsPeriodicEffect(guid: Guid) {
    guid == GUID_Square || guid == GUID_Sine || guid == GUID_Triangle ||
    guid == GUID_SawtoothUp || guid == GUID_SawtoothDown
  }

  /** Two predefined effect GUIDs are equal only when their first bytes are. */
  lemma PredefinedGuidsDistinct(a: bv8, b: bv8)
    ensures PredefinedEffectGuid(a) == PredefinedEffectGuid(b) <==> a == b
  {
    if PredefinedEffectGuid(a) == PredefinedEffectGuid(b) {
      assert PredefinedEffectGuid(a)[0] == PredefinedEffectGuid(b)[0];
    }
  }

  /** No effect GUID is both a condition and a periodic effect, and neither is constant, ramp or custom. */
  lemma EffectClassesDisjoint(guid: Guid)
    ensures !(IsConditionEffect(guid) && IsPeriodicEffect(guid))
    ensures IsConditionEffect(guid) || IsPeriodicEffect(guid) ==>
      guid != GUID_ConstantForce && guid != GUID_RampForce && guid != GUID_CustomForce
  {
    if IsConditionEffect(guid) || IsPeriodicEffect(guid) {
      assert guid[0] in {0x22 as bv8, 0x23, 0x24, 0x25, 0x26, 0x27, 0x28, 0x29, 0x2A};
    }
  }

  /** The name effectGuidToString gives each predefined effect type. */
  function EffectGuidToString(guid: Guid): (r: string)
    ensures r == "Unknown" <==>
      !(guid == GUID_ConstantForce || guid == GUID_RampForce || IsPeriodicEffect(guid) ||
        IsConditionEffect(guid) || guid == GUID_CustomForce)
    ensures IsConditionEffect(guid) <==> r in {"Spring", "Damper", "Inertia", "Friction"}
    ensures IsPeriodicEffect(guid) <==> r in {"Square", "Sine", "Triangle", "SawtoothUp", "SawtoothDown"}
    ensures guid == GUID_ConstantForce <==> r == "ConstantForce"
    ensures guid == GUID_RampForce <==> r == "RampForce"
    ensures guid == GUID_Square <==> r == "Square"
    ensures guid == GUID_Sine <==> r == "Sine"
    ensures guid == GUID_Triangle <==> r == "Triangle"
    ensures guid == GUID_SawtoothUp <==> r == "SawtoothUp"
    ensures guid == GUID_SawtoothDown <==> r == "SawtoothDown"
    ensures guid == GUID_Spring <==> r == "Spring"
    ensures guid == GUID_Damper <==> r == "Damper"
    ensures guid == GUID_Inertia <==> r == "Inertia"
    ensures guid == GUID_Friction <==> r == "Friction"
    ensures guid == GUID_CustomForce <==> r == "CustomForce"
  {
    if guid == GUID_ConstantForce then "ConstantForce"
    else if guid == GUID_RampForce then "RampForce"
    else if guid == GUID_Square then "Square"
    else if guid == GUID_Sine then "Sine"
    else if guid == GUID_Triangle then "Triangle"
    else if guid == GUID_SawtoothUp then "SawtoothUp"
    else if guid == GUID_SawtoothDown then "SawtoothDown"
    else if guid == GUID_Spring then "Spring"
    else if guid == GUID_Damper then "Damper"
    else if guid == GUID_Inertia then "Inertia"
    else if guid == GUID_Friction then "Friction"
    else if guid == GUID_CustomForce then "CustomForce"
    else "Unknown"
  }

  /** Different predefined effect types never share a name. */
  lemma EffectNamesInjective(a: Guid, b: Guid)
    requires EffectGuidToString(a) != "Unknown"
    ensures EffectGuidToString(a) == EffectGuidToString(b) <==> a == b
  {
  }

  /** The name ffbCommandToString gives each DISFFC_* command. */
  function FfbCommandToString(cmd: Dword): (r: string)
    ensures r == "UNKNOWN" <==> cmd !in {DISFFC_RESET, DISFFC_STOPALL, DISFFC_PAUSE, DISFFC_CONTINUE,
                                         DISFFC_SETACTUATORSON, DISFFC_SETACTUATORSOFF}
    ensures cmd == DISFFC_RESET <==> r == "RESET"
    ensures cmd == DISFFC_STOPALL <==> r == "STOPALL"
    ensures cmd == DISFFC_PAUSE <==> r == "PAUSE"
    ensures cmd == DISFFC_CONTINUE <==> r == "CONTINUE"
    ensures cmd == DISFFC_SETACTUATORSON <==> r == "SETACTUATORSON"
    ensures cmd == DISFFC_SETACTUATORSOFF <==> r == "SETACTUATORSOFF"
  {
    match cmd
    case 0x01 => "RESET"
    case 0x02 => "STOPALL"
    case 0x04 => "PAUSE"
    case 0x08 => "CONTINUE"
    case 0x10 => "SETACTUATORSON"
    case 0x20 => "SETACTUATORSOFF"
    case _ => "UNKNOWN"
  }

  /** A known command's name identifies the command: two commands share it exactly when they are equal. */
  lemma FfbCommandNamesInjective(a: Dword, b: Dword)
    requires FfbCommandToString(a) != "UNKNOWN"
    ensures FfbCommandToString(a) == FfbCommandToString(b) <==> a == b
  {
  }

  // ---- Scaling arithmetic ----

  /** n / d rounded toward zero, as C++ integer conversion of a quotient rounds. */
  function TruncDiv(n: int, d: int): (q: int)
    requires d > 0
    ensures n >= 0 ==> q * d <= n < q * d + d
    ensures n < 0 ==> q * d - d < n <= q * d
  {
    if n >= 0 then n / d else -((-n) / d)
  }

  /** v multiplied by scale / 100 and truncated toward zero. */
  function ScaleValue(v: int, scale: int): (r: int)
    requires 0 <= scale <= 100
    ensures v >= 0 ==> 0 <= r <= v
    ensures v <= 0 ==> v <= r <= 0
    ensures scale == 0 ==> r == 0
    ensures scale == 100 ==> r == v
    ensures v >= 0 ==> r * 100 <= v * scale < r * 100 + 100
    ensures v < 0 ==> r * 100 - 100 < v * scale <= r * 100
    ensures (v * scale) % 100 == 0 ==> r * 100 == v * scale
  {
    TruncDiv(v * scale, 100)
  }

  /** Scaling toward zero never increases a magnitude, of either sign. */
  lemma ScaleValueMonotone(v: int, w: int, scale: int)
    requires 0 <= scale <= 100 && v <= w
    ensures ScaleValue(v, scale) <= ScaleValue(w, scale)
  {
    var a, b := v * scale, w * scale;
    assert a <= b by {
      assert b - a == (w - v) * scale;
    }
    TruncDivMonotone(a, b);
  }

  /** Division by 100 rounded toward zero preserves order. */
  lemma TruncDivMonotone(n: int, m: int)
    requires n <= m
    ensures TruncDiv(n, 100) <= TruncDiv(m, 100)
  {
  }

  function ScaleLong(v: Long, scale: int): Long
    requires 0 <= scale <= 100
  {
    ScaleValue(v, scale)
  }

  function ScaleDword(v: Dword, scale: int): Dword
    requires 0 <= scale <= 100
  {
    ScaleValue(v, scale)
  }

  /** The coefficients and saturations scale; offset and dead band are positions, not forces. */
  function ScaleCondition(c: Condition, scale: int): (r: Condition)
    requires 0 <= scale <= 100
    ensures r.lOffset == c.lOffset && r.lDeadBand == c.lDeadBand
    ensures r.lPositiveCoefficient == ScaleValue(c.lPositiveCoefficient, scale)
    ensures r.lNegativeCoefficient == ScaleValue(c.lNegativeCoefficient, scale)
    ensures r.dwPositiveSaturation == ScaleValue(c.dwPositiveSaturation, scale) <= c.dwPositiveSaturation
    ensures r.dwNegativeSaturation == ScaleValue(c.dwNegativeSaturation, scale) <= c.dwNegativeSaturation
  {
    c.(lPositiveCoefficient := ScaleLong(c.lPositiveCoefficient, scale),
       lNegativeCoefficient := ScaleLong(c.lNegativeCoefficient, scale),
       dwPositiveSaturation := ScaleDword(c.dwPositiveSaturation, scale),
       dwNegativeSaturation := ScaleDword(c.dwNegativeSaturation, scale))
  }

  /** The first count conditions scaled, the rest as they were. */
  function ScaledConditions(conds: seq<Condition>, count: nat, scale: int): (r: seq<Condition>)
    requires 0 <= scale <= 100
    ensures |r| == |conds|
    ensures forall i :: 0 <= i < |r| ==> r[i] == if i < count then ScaleCondition(conds[i], scale) else conds[i]
  {
    seq(|conds|, i requires 0 <= i < |conds| => if i < count then ScaleCondition(conds[i], scale) else conds[i])
  }

  /** The first count samples scaled, the rest as they were. */
  function ScaledSamples(samples: seq<Long>, count: nat, scale: int): (r: seq<Long>)
    requires 0 <= scale <= 100
    ensures |r| == |samples|
    ensures forall i :: 0 <= i < |r| ==> r[i] == if i < count then ScaleLong(samples[i], scale) else samples[i]
  {
    seq(|samples|, i requires 0 <= i < |samples| => if i < count then ScaleLong(samples[i], scale) else samples[i])
  }

  /**
   * Which branch of scaleEffect's else-if chain a type-specific block of cb bytes
   * takes for this GUID, or None when it falls through every branch.
   */
  datatype Branch = BConstant | BRamp | BPeriodic | BCondition | BCustom

  function BranchOf(guid: Guid, cb: Dword): (r: Option<Branch>)
    ensures r == Some(BConstant) <==> guid == GUID_ConstantForce && cb >= SIZEOF_DICONSTANTFORCE
    ensures r == Some(BRamp) <==> guid == GUID_RampForce && cb >= SIZEOF_DIRAMPFORCE
    ensures r == Some(BPeriodic) <==> IsPeriodicEffect(guid) && cb >= SIZEOF_DIPERIODIC
    ensures r == Some(BCondition) <==> IsConditionEffect(guid) && cb >= SIZEOF_DICONDITION
    ensures r == Some(BCustom) <==> guid == GUID_CustomForce && cb >= SIZEOF_DICUSTOMFORCE
  {
    EffectClassesDisjoint(guid);
    if guid == GUID_ConstantForce && cb >= SIZEOF_DICONSTANTFORCE then Some(BConstant)
    else if guid == GUID_RampForce && cb >= SIZEOF_DIRAMPFORCE then Some(BRamp)
    else if IsPeriodicEffect(guid) && cb >= SIZEOF_DIPERIODIC then Some(BPeriodic)
    else if IsConditionEffect(guid) && cb >= SIZEOF_DICONDITION then Some(BCondition)
    else if guid == GUID_CustomForce && cb >= SIZEOF_DICUSTOMFORCE then Some(BCustom)
    else None
  }

  /**
   * The type-specific block after scaling, when the block holds the structure
   * its branch expects; a block of another layout is left as it is. Custom-force
   * samples live in their own array and are handled by ScaleEffect.
   */
  function ScaledLayout(l: Layout, guid: Guid, cb: Dword, scale: int): (r: Layout)
    requires 0 <= scale <= 100
    ensures LayoutSize(r) == LayoutSize(l)
    ensures r.CustomForce? <==> l.CustomForce?
    ensures r.CustomForce? ==> r == l
  {
    match BranchOf(guid, cb)
    case Some(BConstant) =>
      if l.ConstantForce? then l.(lMagnitude := ScaleLong(l.lMagnitude, scale)) else l
    case Some(BRamp) =>
      if l.RampForce? then l.(lStart := ScaleLong(l.lStart, scale), lEnd := ScaleLong(l.lEnd, scale)) else l
    case Some(BPeriodic) =>
      if l.Periodic? then l.(dwMagnitude := ScaleDword(l.dwMagnitude, scale)) else l
    case Some(BCondition) =>
      if l.Conditions? then Conditions(ScaledConditions(l.conds, cb / SIZEOF_DICONDITION, scale)) else l
    case _ => l
  }

  /** Scaling moves forces toward zero and never touches a position, phase or period. */
  lemma ScaledLayoutKeepsPositions(l: Layout, guid: Guid, cb: Dword, scale: int)
    requires 0 <= scale <= 100
    ensures var r := ScaledLayout(l, guid, cb, scale);
      && (l.ConstantForce? ==> r.ConstantForce? && Abs(r.lMagnitude) <= Abs(l.lMagnitude))
      && (l.RampForce? ==> r.RampForce? && Abs(r.lStart) <= Abs(l.lStart) && Abs(r.lEnd) <= Abs(l.lEnd))
      && (l.Periodic? ==>
            && r.Periodic? && r.dwMagnitude <= l.dwMagnitude
            && r.lOffset == l.lOffset && r.dwPhase == l.dwPhase && r.dwPeriod == l.dwPeriod)
      && (l.Conditions? ==>
            && r.Conditions? && |r.conds| == |l.conds|
            && forall i :: 0 <= i < |l.conds| ==>
                 r.conds[i].lOffset == l.conds[i].lOffset && r.conds[i].lDeadBand == l.conds[i].lDeadBand)
      && (l.Opaque? ==> r == l)
  {
  }

  /** The result of the first branch the chain takes, for each branch when its layout matches. */
  lemma ScaledLayoutBranches(l: Layout, guid: Guid, cb: Dword, scale: int)
    requires 0 <= scale <= 100
    ensures guid == GUID_ConstantForce && cb >= SIZEOF_DICONSTANTFORCE && l.ConstantForce? ==>
      ScaledLayout(l, guid, cb, scale) == ConstantForce(ScaleValue(l.lMagnitude, scale))
    ensures guid == GUID_RampForce && cb >= SIZEOF_DIRAMPFORCE && l.RampForce? ==>
      ScaledLayout(l, guid, cb, scale) == RampForce(ScaleValue(l.lStart, scale), ScaleValue(l.lEnd, scale))
    ensures IsPeriodicEffect(guid) && cb >= SIZEOF_DIPERIODIC && l.Periodic? ==>
      ScaledLayout(l, guid, cb, scale) == l.(dwMagnitude := ScaleValue(l.dwMagnitude, scale))
    ensures IsConditionEffect(guid) && cb >= SIZEOF_DICONDITION && l.Conditions? ==>
      ScaledLayout(l, guid, cb, scale) == Conditions(ScaledConditions(l.conds, cb / SIZEOF_DICONDITION, scale))
    ensures BranchOf(guid, cb).None? ==> ScaledLayout(l, guid, cb, scale) == l
    ensures (!(guid == GUID_ConstantForce || guid == GUID_RampForce || IsPeriodicEffect(guid) ||
               IsConditionEffect(guid))) ==>
      ScaledLayout(l, guid, cb, scale) == l
  {
  }

  function Abs(x: int): nat {
    if x < 0 then -x else x
  }

  /** A stateless helper that applies one device's policy; shared by the device and its effects. */
  class FFBFilter {
    const policy: FFBPolicy
    const name: string

    constructor (policy: FFBPolicy, deviceName: string)
      requires policy.scale >= 0
      ensures this.policy == policy && this.name == deviceName
    {
      this.policy := policy;
      this.name := deviceName;
    }

    function IsFFBAllowed(): bool {
      policy.enabled
    }

    function GetScale(): int {
      policy.scale
    }

    function DeviceName(): string {
      name
    }

    /**
     * scaleEffect: scales the gain in the DIEFFECT (returned as the updated
     * struct), then the type-specific block and any custom-force samples in
     * place, unless there is no struct or the scale is 100 or more.
     */
    method ScaleEffect(pEffect: Option<DiEffect>, effectGuid: Guid) returns (r: Option<DiEffect>)
      requires policy.scale >= 0
      requires pEffect.Some? ==> MemoryOk(pEffect.value)
      modifies if pEffect.Some? then Footprint(pEffect.value) else {}
      ensures pEffect.None? || policy.scale >= 100 ==> r == pEffect
      ensures pEffect.Some? && policy.scale < 100 ==>
        r == Some(pEffect.value.(dwGain := ScaleValue(pEffect.value.dwGain, policy.scale)))
      ensures pEffect.Some? ==> ScaledEffectMemory(old(MemoryOf(pEffect.value)), pEffect.value, effectGuid, policy.scale) == MemoryOf(pEffect.value)
      ensures pEffect.Some? ==> MemoryOk(pEffect.value)
    {
      if pEffect.None? || policy.scale >= 100 {
        return pEffect;
      }
      var e := pEffect.value;
      var scale := policy.scale;
      e := e.(dwGain := ScaleDword(e.dwGain, scale));
      r := Some(e);
      if e.lpvTypeSpecificParams == null || e.cbTypeSpecificParams == 0 {
        return;
      }
      var buf := e.lpvTypeSpecificParams;
      var cb := e.cbTypeSpecificParams;
      var branch := BranchOf(effectGuid, cb);
      match branch
      case Some(BConstant) =>
        if buf.layout.ConstantForce? {
          buf.layout := buf.layout.(lMagnitude := ScaleLong(buf.layout.lMagnitude, scale));
        }
      case Some(BRamp) =>
        if buf.layout.RampForce? {
          buf.layout := buf.layout.(lStart := ScaleLong(buf.layout.lStart, scale), lEnd := ScaleLong(buf.layout.lEnd, scale));
        }
      case Some(BPeriodic) =>
        if buf.layout.Periodic? {
          buf.layout := buf.layout.(dwMagnitude := ScaleDword(buf.layout.dwMagnitude, scale));
        }
      case Some(BCondition) =>
        if buf.layout.Conditions? {
          ScaleConditionsInPlace(buf, cb / SIZEOF_DICONDITION, scale);
        }
      case Some(BCustom) =>
        if buf.layout.CustomForce? && buf.layout.rglForceData != null {
          var data := buf.layout.rglForceData;
          ScaleSamplesInPlace(data, SampleCount(buf.layout.cChannels, buf.layout.cSamples), scale);
        }
      case None =>
    }

    /** The loop over the DICONDITION array: one entry per axis, count entries. */
    static method ScaleConditionsInPlace(buf: ParamBuffer, count: nat, scale: int)
      requires 0 <= scale <= 100
      requires buf.layout.Conditions? && count <= |buf.layout.conds|
      modifies buf
      ensures buf.layout == Conditions(ScaledConditions(old(buf.layout.conds), count, scale))
    {
      ghost var conds0 := buf.layout.conds;
      var i := 0;
      while i < count
        invariant 0 <= i <= count
        invariant buf.layout.Conditions? && |buf.layout.conds| == |conds0|
        invariant forall k :: 0 <= k < |conds0| ==>
          buf.layout.conds[k] == if k < i then ScaleCondition(conds0[k], scale) else conds0[k]
      {
        var conds := buf.layout.conds;
        var c := conds[i];
        c := c.(lPositiveCoefficient := ScaleLong(c.lPositiveCoefficient, scale));
        c := c.(lNegativeCoefficient := ScaleLong(c.lNegativeCoefficient, scale));
        c := c.(dwPositiveSaturation := ScaleDword(c.dwPositiveSaturation, scale));
        c := c.(dwNegativeSaturation := ScaleDword(c.dwNegativeSaturation, scale));
        buf.layout := Conditions(conds[i := c]);
        i := i + 1;
      }
      assert buf.layout.conds == ScaledConditions(conds0, count, scale);
    }

    /** The loop over rglForceData: cSamples * cChannels samples. */
    static method ScaleSamplesInPlace(data: array<Long>, count: nat, scale: int)
      requires 0 <= scale <= 100
      requires count <= data.Length
      modifies data
      ensures data[..] == ScaledSamples(old(data[..]), count, scale)
    {
      var i := 0;
      while i < count
        invariant 0 <= i <= count
        invariant forall k :: 0 <= k < data.Length ==>
          data[k] == if k < i then ScaleLong(old(data[k]), scale) else old(data[k])
      {
        data[i] := ScaleLong(data[i], scale);
        i := i + 1;
      }
    }
  }

  /**
   * What lies in the memory a DIEFFECT points at, by value: its type-specific
   * block (a custom force's sample pointer blanked) and its custom-force samples.
   */
  datatype MemoryImage = MemoryImage(layout: Option<Layout>, samples: Option<seq<Long>>)

  function MemoryOf(e: DiEffect): (r: MemoryImage)
    reads e.lpvTypeSpecificParams, Footprint(e)
    ensures r.layout.None? <==> e.lpvTypeSpecificParams == null
    ensures r.samples.Some? <==>
      e.lpvTypeSpecificParams != null && e.lpvTypeSpecificParams.layout.CustomForce? &&
      e.lpvTypeSpecificParams.layout.rglForceData != null
    ensures r.samples.Some? ==>
      && r.samples.value == e.lpvTypeSpecificParams.layout.rglForceData[..]
      && r.layout == Some(e.lpvTypeSpecificParams.layout.(rglForceData := null))
    ensures r.layout.Some? && r.samples.None? ==> r.layout == Some(e.lpvTypeSpecificParams.layout)
  {
    if e.lpvTypeSpecificParams == null then MemoryImage(None, None)
    else
      var l := e.lpvTypeSpecificParams.layout;
      if l.CustomForce? && l.rglForceData != null then MemoryImage(Some(l.(rglForceData := null)), Some(l.rglForceData[..]))
      else MemoryImage(Some(l), None)
  }

  /**
   * The memory after scaleEffect, in terms of the memory before it: nothing
   * changes unless the scale is under 100 and a non-empty block is there; then
   * the block is scaled and, for a custom force, the first cSamples * cChannels samples.
   */
  function ScaledEffectMemory(m: MemoryImage, e: DiEffect, guid: Guid, scale: int): (r: MemoryImage)
    requires scale >= 0
    ensures scale >= 100 || e.cbTypeSpecificParams == 0 || m.layout.None? ==> r == m
    ensures r.layout.Some? <==> m.layout.Some?
    ensures r.samples.Some? <==> m.samples.Some?
    ensures r.samples.Some? ==> |r.samples.value| == |m.samples.value|
    ensures BranchOf(guid, e.cbTypeSpecificParams) != Some(BCustom) ==> r.samples == m.samples
    ensures scale < 100 && m.layout.Some? && m.layout.value.CustomForce? && m.samples.Some? &&
            BranchOf(guid, e.cbTypeSpecificParams) == Some(BCustom) ==>
      r.samples == Some(ScaledSamples(m.samples.value, SampleCount(m.layout.value.cChannels, m.layout.value.cSamples), scale))
    ensures m.layout.Some? ==> LayoutSize(r.layout.value) == LayoutSize(m.layout.value)
  {
    if scale >= 100 || m.layout.None? || e.cbTypeSpecificParams == 0 then m
    else
      var l := m.layout.value;
      var samples :=
        if l.CustomForce? && m.samples.Some? && BranchOf(guid, e.cbTypeSpecificParams) == Some(BCustom)
        then Some(ScaledSamples(m.samples.value, SampleCount(l.cChannels, l.cSamples), scale))
        else m.samples;
      MemoryImage(Some(ScaledLayout(l, guid, e.cbTypeSpecificParams, scale)), samples)
  }
}
