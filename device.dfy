/**
 * The device wrapper's FFB-intercepted calls (wrapper_device8.cpp): capabilities,
 * effect creation, force-feedback state and commands.
 */
module Device {
  import opened Wrappers
  import opened DirectInput
  import opened Filter
  import opened Effect

  /** DIDC_* capability flags that describe force feedback. */
  const DIDC_FORCEFEEDBACK: bv32 := 0x0000_0100
  const DIDC_FFATTACK: bv32 := 0x0000_0200
  const DIDC_FFFADE: bv32 := 0x0000_0400
  const DIDC_SATURATION: bv32 := 0x0000_0800
  const DIDC_POSNEGCOEFFICIENTS: bv32 := 0x0000_1000
  const DIDC_POSNEGSATURATION: bv32 := 0x0000_2000
  const DIDC_DEADBAND: bv32 := 0x0000_4000
  const DIDC_STARTDELAY: bv32 := 0x0000_8000

  /** The flags GetCapabilities clears for a blocked device. */
  const FFB_CAPS_FLAGS: bv32 :=
    DIDC_FORCEFEEDBACK | DIDC_FFATTACK | DIDC_FFFADE | DIDC_SATURATION |
    DIDC_POSNEGCOEFFICIENTS | DIDC_POSNEGSATURATION | DIDC_DEADBAND | DIDC_STARTDELAY

  /** The eight flags are the whole second byte of the DWORD. */
  lemma FFBCapsFlagsValue()
    ensures FFB_CAPS_FLAGS == 0xFF00
  {
  }

  /** DIDEVCAPS */
  datatype DevCaps = DevCaps(
    dwSize: Dword,
    dwFlags: bv32,
    dwDevType: Dword,
    dwAxes: Dword,
    dwButtons: Dword,
    dwPOVs: Dword,
    dwFFSamplePeriod: Dword,
    dwFFMinTimeResolution: Dword,
    dwFirmwareRevision: Dword,
    dwHardwareRevision: Dword,
    dwFFDriverVersion: Dword)

  /** What a blocked device reports: no FFB flag, no FFB timing, everything else as the device said. */
  function StripFFBCaps(c: DevCaps): (r: DevCaps)
    ensures r.dwFlags & FFB_CAPS_FLAGS == 0
    ensures r.dwFlags & !FFB_CAPS_FLAGS == c.dwFlags & !FFB_CAPS_FLAGS
    ensures r.dwFFSamplePeriod == 0 && r.dwFFMinTimeResolution == 0
    ensures r.(dwFlags := c.dwFlags, dwFFSamplePeriod := c.dwFFSamplePeriod,
               dwFFMinTimeResolution := c.dwFFMinTimeResolution) == c
  {
    c.(dwFlags := c.dwFlags & !FFB_CAPS_FLAGS, dwFFSamplePeriod := 0, dwFFMinTimeResolution := 0)
  }

  /** Stripping twice is stripping once, and a stripped device claims no force feedback at all. */
  lemma StripFFBCapsIdempotent(c: DevCaps)
    ensures StripFFBCaps(StripFFBCaps(c)) == StripFFBCaps(c)
    ensures StripFFBCaps(c).dwFlags & DIDC_FORCEFEEDBACK == 0
  {
    assert StripFFBCaps(c).dwFlags & DIDC_FORCEFEEDBACK == StripFFBCaps(c).dwFlags & FFB_CAPS_FLAGS & DIDC_FORCEFEEDBACK;
  }

  /** A call that reached the real device. */
  datatype DeviceCall =
    | CGetCapabilities
    | CCreateEffect(rguid: Guid, lpeff: Option<DiEffect>, punkOuter: nat)
    | CGetForceFeedbackState
    | CSendForceFeedbackCommand(dwFlags: Dword)

  /**
   * The real IDirectInputDevice8, which is not part of this model: it logs
   * every call, answers GetCapabilities with capsReply and caps, CreateEffect
   * with createReply and created (possibly null), and the other calls with reply.
   */
  class RealDevice {
    var calls: seq<DeviceCall>
    const capsReply: HResult
    const caps: DevCaps
    const createReply: HResult
    const created: RealEffect?
    const reply: HResult
    const ffState: Dword

    constructor (capsReply: HResult, caps: DevCaps, createReply: HResult, created: RealEffect?, reply: HResult, ffState: Dword)
      ensures calls == [] && this.capsReply == capsReply && this.caps == caps
      ensures this.createReply == createReply && this.created == created
      ensures this.reply == reply && this.ffState == ffState
    {
      calls := [];
      this.capsReply := capsReply;
      this.caps := caps;
      this.createReply := createReply;
      this.created := created;
      this.reply := reply;
      this.ffState := ffState;
    }

    method GetCapabilities(lpDIDevCaps: Out?<DevCaps>) returns (hr: HResult)
      modifies this, lpDIDevCaps
      ensures calls == old(calls) + [CGetCapabilities] && hr == capsReply
      ensures lpDIDevCaps != null ==> lpDIDevCaps.value == if Succeeded(hr) then caps else old(lpDIDevCaps.value)
    {
      calls := calls + [CGetCapabilities];
      hr := capsReply;
      if lpDIDevCaps != null && Succeeded(hr) {
        lpDIDevCaps.value := caps;
      }
    }

    method CreateEffect(rguid: Guid, lpeff: Option<DiEffect>, punkOuter: nat) returns (hr: HResult, effect: RealEffect?)
      modifies this
      ensures calls == old(calls) + [CCreateEffect(rguid, lpeff, punkOuter)]
      ensures hr == createReply && effect == created
    {
      calls := calls + [CCreateEffect(rguid, lpeff, punkOuter)];
      hr, effect := createReply, created;
    }

    method GetForceFeedbackState(pdwOut: Out?<Dword>) returns (hr: HResult)
      modifies this, pdwOut
      ensures calls == old(calls) + [CGetForceFeedbackState] && hr == reply
      ensures pdwOut != null ==> pdwOut.value == if Succeeded(hr) then ffState else old(pdwOut.value)
    {
      calls := calls + [CGetForceFeedbackState];
      hr := reply;
      if pdwOut != null && Succeeded(hr) {
        pdwOut.value := ffState;
      }
    }

    method SendForceFeedbackCommand(dwFlags: Dword) returns (hr: HResult)
      modifies this
      ensures calls == old(calls) + [CSendForceFeedbackCommand(dwFlags)] && hr == reply
    {
      calls := calls + [CSendForceFeedbackCommand(dwFlags)];
      hr := reply;
    }
  }

  // ---- CreateEffect's decision ----

  /** What the caller of CreateEffect ends up holding. */
  datatype Created = WrapsReal | NullEffect | NoEffect

  /**
   * CreateEffect's outcome, from whether the caller gave an out-pointer, what
   * the real device answered, whether it handed out an effect, and the policy.
   */
  function CreateOutcome(hasOut: bool, hr: HResult, gotEffect: bool, allowed: bool): (r: (Created, HResult))
    ensures !hasOut ==> r == (NoEffect, E_POINTER)
    ensures r.0 == WrapsReal <==> hasOut && Succeeded(hr) && gotEffect
    ensures r.0 == NullEffect <==> hasOut && !(Succeeded(hr) && gotEffect) && !allowed
    ensures r.0 == WrapsReal ==> r.1 == hr
    ensures r.0 == NullEffect ==> r.1 == DI_OK
    ensures hasOut && r.0 == NoEffect ==> r.1 == hr
  {
    if !hasOut then (NoEffect, E_POINTER)
    else if Succeeded(hr) && gotEffect then (WrapsReal, hr)
    else if !allowed then (NullEffect, DI_OK)
    else (NoEffect, hr)
  }

  /** A blocked device always hands the game an effect and a success code, so the game never sees an error. */
  lemma BlockedDeviceAlwaysCreates(hr: HResult, gotEffect: bool)
    ensures CreateOutcome(true, hr, gotEffect, false).0 != NoEffect
    ensures Succeeded(CreateOutcome(true, hr, gotEffect, false).1)
  {
  }

  /**
   * An allowed device passes the real device's failure through; when the real
   * device reports success without an effect, that success is passed on with no effect.
   */
  lemma AllowedDeviceIsTransparent(hr: HResult, gotEffect: bool)
    ensures CreateOutcome(true, hr, gotEffect, true).1 == hr
    ensures CreateOutcome(true, hr, gotEffect, true).0 == (if Succeeded(hr) && gotEffect then WrapsReal else NoEffect)
  {
  }

  class WrapperDevice8 {
    const inner: RealDevice
    const filter: FFBFilter

    constructor (inner: RealDevice, filter: FFBFilter)
      ensures this.inner == inner && this.filter == filter
    {
      this.inner := inner;
      this.filter := filter;
    }

    /** The real device is always asked; a blocked device's answer is stripped of force feedback. */
    method GetCapabilities(lpDIDevCaps: Out?<DevCaps>) returns (hr: HResult)
      modifies inner, lpDIDevCaps
      ensures inner.calls == old(inner.calls) + [CGetCapabilities] && hr == inner.capsReply
      ensures lpDIDevCaps != null ==>
        lpDIDevCaps.value ==
          if !Succeeded(hr) then old(lpDIDevCaps.value)
          else if filter.IsFFBAllowed() then inner.caps
          else StripFFBCaps(inner.caps)
    {
      hr := inner.GetCapabilities(lpDIDevCaps);
      if Succeeded(hr) && lpDIDevCaps != null && !filter.IsFFBAllowed() {
        var caps := lpDIDevCaps.value;
        caps := caps.(dwFlags := caps.dwFlags & !FFB_CAPS_FLAGS);
        caps := caps.(dwFFSamplePeriod := 0);
        caps := caps.(dwFFMinTimeResolution := 0);
        lpDIDevCaps.value := caps;
      }
    }

    /**
     * CreateEffect: wrap the real effect, or, when the real device made none and
     * FFB is blocked, hand out a null effect for the requested GUID.
     */
    method CreateEffect(rguid: Guid, lpeff: Option<DiEffect>, ppdeff: Out?<WrapperEffect?>, punkOuter: nat)
      returns (hr: HResult)
      modifies inner, ppdeff, inner.created
      ensures var outcome := CreateOutcome(ppdeff != null, inner.createReply, inner.created != null, filter.IsFFBAllowed());
        && hr == outcome.1
        && (ppdeff == null ==> inner.calls == old(inner.calls))
        && (ppdeff != null ==>
              && inner.calls == old(inner.calls) + [CCreateEffect(rguid, lpeff, punkOuter)]
              && (outcome.0 == NoEffect ==> ppdeff.value == null)
              && (outcome.0 != NoEffect ==> ppdeff.value != null && fresh(ppdeff.value) && ppdeff.value.filter == filter)
              && (outcome.0 == WrapsReal ==> ppdeff.value.inner == inner.created)
              && (outcome.0 == NullEffect ==> ppdeff.value.inner == null && ppdeff.value.guid == rguid))
    {
      if ppdeff == null {
        return E_POINTER;
      }
      var realHr, realEffect := inner.CreateEffect(rguid, lpeff, punkOuter);
      if Succeeded(realHr) && realEffect != null {
        var w := new WrapperEffect.Wrap(realEffect, filter);
        ppdeff.value := w;
        return realHr;
      }
      if !filter.IsFFBAllowed() {
        var w := new WrapperEffect.Null(rguid, filter);
        ppdeff.value := w;
        return DI_OK;
      }
      ppdeff.value := null;
      return realHr;
    }

    /** A blocked device reports state 0 without asking the real device. */
    method GetForceFeedbackState(pdwOut: Out?<Dword>) returns (hr: HResult)
      modifies inner, pdwOut
      ensures !filter.IsFFBAllowed() ==>
        hr == DI_OK && inner.calls == old(inner.calls) && (pdwOut != null ==> pdwOut.value == 0)
      ensures filter.IsFFBAllowed() ==>
        && inner.calls == old(inner.calls) + [CGetForceFeedbackState] && hr == inner.reply
        && (pdwOut != null ==> pdwOut.value == if Succeeded(hr) then inner.ffState else old(pdwOut.value))
    {
      if !filter.IsFFBAllowed() {
        if pdwOut != null {
          pdwOut.value := 0;
        }
        return DI_OK;
      }
      hr := inner.GetForceFeedbackState(pdwOut);
    }

    /** A blocked device swallows every command, with DI_OK. */
    method SendForceFeedbackCommand(dwFlags: Dword) returns (hr: HResult)
      modifies inner
      ensures !filter.IsFFBAllowed() ==> hr == DI_OK && inner.calls == old(inner.calls)
      ensures filter.IsFFBAllowed() ==>
        inner.calls == old(inner.calls) + [CSendForceFeedbackCommand(dwFlags)] && hr == inner.reply
    {
      if !filter.IsFFBAllowed() {
        return DI_OK;
      }
      hr := inner.SendForceFeedbackCommand(dwFlags);
    }
  }

  /** A vJoy-like device that cannot create effects, blocked: the game still gets an effect, and DI_OK. */
  method BlockedVirtualDeviceScenario() returns (hr: HResult, got: bool)
    ensures hr == DI_OK && got
  {
    var filter := new FFBFilter(FFBPolicy(false, 100), "vjoy device");
    var caps := DevCaps(44, 0xFF05, 0, 2, 8, 0, 1000, 1000, 0, 0, 0);
    var vjoy := new RealDevice(DI_OK, caps, DIERR_UNSUPPORTED, null, DI_OK, 0);
    var device := new WrapperDevice8(vjoy, filter);
    var out := new Out<WrapperEffect?>(null);
    hr := device.CreateEffect(GUID_ConstantForce, None, out, 0);
    got := out.value != null;
  }
}
