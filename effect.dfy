/**
 * The effect wrapper (wrapper_effect.h / wrapper_effect.cpp): forwards to the
 * real DirectInput effect, or answers itself, as the device's policy decides.
 */
module Effect {
  import opened Wrappers
  import opened DirectInput
  import opened Filter

  /** DIEFFESCAPE: a driver-specific command and its input bytes. */
  datatype EffEscape = EffEscape(dwCommand: Dword, inBuffer: seq<bv8>)

  /** A call that reached the real effect, with what it was given (for SetParameters, the memory it could read). */
  datatype EffectCall =
    | CInitialize(hinst: nat, dwVersion: Dword, rguid: Guid)
    | CGetEffectGuid
    | CGetParameters(dwFlags: Dword)
    | CSetParameters(peff: Option<DiEffect>, memory: MemoryImage, dwFlags: Dword)
    | CStart(dwIterations: Dword, dwFlags: Dword)
    | CStop
    | CGetEffectStatus
    | CDownload
    | CUnload
    | CEscape(pesc: Option<EffEscape>)

  /**
   * The real IDirectInputEffect, which is not part of this model: it logs every
   * call it receives and answers each with reply, writing its GUID, status or
   * parameters only when the reply is a success.
   */
  class RealEffect {
    var calls: seq<EffectCall>
    const reply: HResult
    const guid: Guid
    const status: Dword
    const params: DiEffect

    constructor (guid: Guid, reply: HResult, status: Dword, params: DiEffect)
      ensures calls == [] && this.guid == guid && this.reply == reply
      ensures this.status == status && this.params == params
    {
      calls := [];
      this.guid := guid;
      this.reply := reply;
      this.status := status;
      this.params := params;
    }

    method Initialize(hinst: nat, dwVersion: Dword, rguid: Guid) returns (hr: HResult)
      modifies this
      ensures calls == old(calls) + [CInitialize(hinst, dwVersion, rguid)] && hr == reply
    {
      calls := calls + [CInitialize(hinst, dwVersion, rguid)];
      hr := reply;
    }

    method GetEffectGuid(pguid: Out?<Guid>) returns (hr: HResult)
      modifies this, pguid
      ensures calls == old(calls) + [CGetEffectGuid] && hr == reply
      ensures pguid != null ==> pguid.value == if Succeeded(hr) then guid else old(pguid.value)
    {
      calls := calls + [CGetEffectGuid];
      hr := reply;
      if pguid != null && Succeeded(hr) {
        pguid.value := guid;
      }
    }

    method GetParameters(peff: Out?<DiEffect>, dwFlags: Dword) returns (hr: HResult)
      modifies this, peff
      ensures calls == old(calls) + [CGetParameters(dwFlags)] && hr == reply
      ensures peff != null ==> peff.value == if Succeeded(hr) then params else old(peff.value)
    {
      calls := calls + [CGetParameters(dwFlags)];
      hr := reply;
      if peff != null && Succeeded(hr) {
        peff.value := params;
      }
    }

    method SetParameters(peff: Option<DiEffect>, dwFlags: Dword) returns (hr: HResult)
      modifies this
      ensures calls == old(calls) + [CSetParameters(peff, Image(peff), dwFlags)] && hr == reply
    {
      calls := calls + [CSetParameters(peff, Image(peff), dwFlags)];
      hr := reply;
    }

    method Start(dwIterations: Dword, dwFlags: Dword) returns (hr: HResult)
      modifies this
      ensures calls == old(calls) + [CStart(dwIterations, dwFlags)] && hr == reply
    {
      calls := calls + [CStart(dwIterations, dwFlags)];
      hr := reply;
    }

    method Stop() returns (hr: HResult)
      modifies this
      ensures calls == old(calls) + [CStop] && hr == reply
    {
      calls := calls + [CStop];
      hr := reply;
    }

    method GetEffectStatus(pdwFlags: Out?<Dword>) returns (hr: HResult)
      modifies this, pdwFlags
      ensures calls == old(calls) + [CGetEffectStatus] && hr == reply
      ensures pdwFlags != null ==> pdwFlags.value == if Succeeded(hr) then status else old(pdwFlags.value)
    {
      calls := calls + [CGetEffectStatus];
      hr := reply;
      if pdwFlags != null && Succeeded(hr) {
        pdwFlags.value := status;
      }
    }

    method Download() returns (hr: HResult)
      modifies this
      ensures calls == old(calls) + [CDownload] && hr == reply
    {
      calls := calls + [CDownload];
      hr := reply;
    }

    method Unload() returns (hr: HResult)
      modifies this
      ensures calls == old(calls) + [CUnload] && hr == reply
    {
      calls := calls + [CUnload];
      hr := reply;
    }

    method Escape(pesc: Option<EffEscape>) returns (hr: HResult)
      modifies this
      ensures calls == old(calls) + [CEscape(pesc)] && hr == reply
    {
      calls := calls + [CEscape(pesc)];
      hr := reply;
    }
  }

  /** The memory a DIEFFECT pointer lets the callee read; nothing for a null pointer. */
  function Image(peff: Option<DiEffect>): MemoryImage
    reads if peff.Some? then {peff.value.lpvTypeSpecificParams} + Footprint(peff.value) else {}
  {
    if peff.Some? then MemoryOf(peff.value) else MemoryImage(None, None)
  }

  // ---- The gating decision ----

  /** The IDirectInputEffect calls the wrapper intercepts (GetEffectGuid never reaches the real effect). */
  datatype Op = OpInitialize | OpGetParameters | OpSetParameters | OpStart | OpStop
              | OpGetEffectStatus | OpDownload | OpUnload | OpEscape

  /** Forward to the real effect, or answer without calling it. */
  datatype Decision = Forward | Answer(hr: HResult)

  /** The calls a blocking policy swallows; the others reach the real effect whenever there is one. */
  predicate PolicyGated(op: Op) {
    op == OpSetParameters || op == OpStart || op == OpStop || op == OpGetEffectStatus || op == OpDownload
  }

  /** What each wrapper method does, given the policy and whether there is a real effect. */
  function Gate(op: Op, allowed: bool, hasReal: bool): (d: Decision)
    ensures d.Forward? <==> hasReal && (allowed || !PolicyGated(op))
    ensures d.Answer? ==> d.hr == if op == OpEscape then DIERR_UNSUPPORTED else DI_OK
  {
    match op
    case OpInitialize | OpGetParameters | OpUnload => if hasReal then Forward else Answer(DI_OK)
    case OpEscape => if hasReal then Forward else Answer(DIERR_UNSUPPORTED)
    case _ => if !allowed || !hasReal then Answer(DI_OK) else Forward
  }

  /** A blocked device's effect never lets a force reach the hardware, and reports success. */
  lemma BlockedEffectIsSilent(op: Op, hasReal: bool)
    requires PolicyGated(op)
    ensures Gate(op, false, hasReal) == Answer(DI_OK)
  {
  }

  /** A null effect never forwards; it answers DI_OK to every call except Escape. */
  lemma NullEffectAnswers(op: Op, allowed: bool)
    ensures Gate(op, allowed, false).Answer?
    ensures Gate(op, allowed, false).hr == DI_OK <==> op != OpEscape
  {
  }

  // ---- The wrapper ----

  class WrapperEffect {
    const inner: RealEffect?
    const guid: Guid
    const filter: FFBFilter

    /** Wrapping a real effect: the GUID is asked of it once, and cached. */
    constructor Wrap(inner: RealEffect?, filter: FFBFilter)
      modifies inner
      ensures this.inner == inner && this.filter == filter
      ensures inner == null ==> guid == ZERO_GUID
      ensures inner != null ==>
        && inner.calls == old(inner.calls) + [CGetEffectGuid]
        && guid == (if Succeeded(inner.reply) then inner.guid else ZERO_GUID)
    {
      var g := new Out<Guid>(ZERO_GUID);
      if inner != null {
        var _ := inner.GetEffectGuid(g);
      }
      this.inner := inner;
      this.filter := filter;
      this.guid := g.value;
    }

    /** A null effect for a device whose FFB is blocked: no real effect, the requested GUID cached. */
    constructor Null(effectGuid: Guid, filter: FFBFilter)
      ensures inner == null && guid == effectGuid && this.filter == filter
    {
      inner := null;
      guid := effectGuid;
      this.filter := filter;
    }

    method Initialize(hinst: nat, dwVersion: Dword, rguid: Guid) returns (hr: HResult)
      modifies inner
      ensures Gate(OpInitialize, filter.IsFFBAllowed(), inner != null).Answer? ==> hr == DI_OK && inner == null
      ensures inner != null ==> inner.calls == old(inner.calls) + [CInitialize(hinst, dwVersion, rguid)] && hr == inner.reply
    {
      if inner == null {
        return DI_OK;
      }
      hr := inner.Initialize(hinst, dwVersion, rguid);
    }

    /** The cached GUID, never asking the real effect. */
    method GetEffectGuid(pguid: Out?<Guid>) returns (hr: HResult)
      modifies pguid
      ensures pguid == null ==> hr == E_POINTER
      ensures pguid != null ==> hr == DI_OK && pguid.value == guid
    {
      if pguid == null {
        return E_POINTER;
      }
      pguid.value := guid;
      return DI_OK;
    }

    method GetParameters(peff: Out?<DiEffect>, dwFlags: Dword) returns (hr: HResult)
      modifies inner, peff
      ensures inner == null ==> hr == DI_OK && (peff != null ==> peff.value == ZERO_EFFECT)
      ensures inner != null ==>
        && inner.calls == old(inner.calls) + [CGetParameters(dwFlags)] && hr == inner.reply
        && (peff != null ==> peff.value == if Succeeded(hr) then inner.params else old(peff.value))
    {
      if inner == null {
        if peff != null {
          peff.value := ZERO_EFFECT;
        }
        return DI_OK;
      }
      hr := inner.GetParameters(peff, dwFlags);
    }

    /**
     * SetParameters as written: under a scale below 100 the struct is copied,
     * but the copy still points at the caller's type-specific block, and the
     * scaler rewrites that block in place.
     */
    method SetParametersAsWritten(peff: Option<DiEffect>, dwFlags: Dword) returns (hr: HResult)
      requires filter.policy.scale >= 0
      requires peff.Some? ==> MemoryOk(peff.value)
      requires inner == null || inner !in Caller(peff)
      modifies inner, Caller(peff)
      ensures Gate(OpSetParameters, filter.IsFFBAllowed(), inner != null).Answer? ==>
        hr == DI_OK && (inner != null ==> unchanged(inner)) && CallerUnchanged(peff)
      ensures Gate(OpSetParameters, filter.IsFFBAllowed(), inner != null).Forward? ==>
        && inner != null && hr == inner.reply
        && inner.calls == old(inner.calls) + [CSetParameters(Sent(peff, guid, filter.policy.scale),
                                                           SentMemory(old(Image(peff)), peff, guid, filter.policy.scale), dwFlags)]
        && Image(peff) == SentMemory(old(Image(peff)), peff, guid, filter.policy.scale)
    {
      ghost var before := Image(peff);
      if !filter.IsFFBAllowed() {
        return DI_OK;
      }
      if inner == null {
        return DI_OK;
      }
      if filter.GetScale() < 100 && peff.Some? {
        var copy := peff.value;
        var scaled := filter.ScaleEffect(Some(copy), guid);
        assert Image(peff) == SentMemory(before, peff, guid, filter.policy.scale);
        hr := inner.SetParameters(scaled, dwFlags);
        return;
      }
      hr := inner.SetParameters(peff, dwFlags);
    }

    /**
     * SetParameters working on a copy of the type-specific block too: the real
     * effect receives the same scaled parameters and the caller's memory is
     * left as it was.
     */
    method SetParameters(peff: Option<DiEffect>, dwFlags: Dword) returns (hr: HResult)
      requires filter.policy.scale >= 0
      requires peff.Some? ==> MemoryOk(peff.value)
      modifies inner
      ensures CallerUnchanged(peff)
      ensures Gate(OpSetParameters, filter.IsFFBAllowed(), inner != null).Answer? ==>
        hr == DI_OK && (inner != null ==> unchanged(inner))
      ensures Gate(OpSetParameters, filter.IsFFBAllowed(), inner != null).Forward? ==>
        && inner != null && hr == inner.reply
        && |inner.calls| == |old(inner.calls)| + 1 && inner.calls[..|old(inner.calls)|] == old(inner.calls)
        && var call := inner.calls[|old(inner.calls)|];
        && call.CSetParameters? && call.dwFlags == dwFlags
        && call.memory == SentMemory(Image(peff), peff, guid, filter.policy.scale)
        && SameStruct(call.peff, Sent(peff, guid, filter.policy.scale))
    {
      if !filter.IsFFBAllowed() {
        return DI_OK;
      }
      if inner == null {
        return DI_OK;
      }
      if filter.GetScale() < 100 && peff.Some? {
        var copy := CopyParams(peff.value);
        var scaled := filter.ScaleEffect(Some(copy), guid);
        hr := inner.SetParameters(scaled, dwFlags);
        return;
      }
      hr := inner.SetParameters(peff, dwFlags);
    }

    method Start(dwIterations: Dword, dwFlags: Dword) returns (hr: HResult)
      modifies inner
      ensures Gate(OpStart, filter.IsFFBAllowed(), inner != null).Answer? ==> hr == DI_OK && (inner != null ==> unchanged(inner))
      ensures Gate(OpStart, filter.IsFFBAllowed(), inner != null).Forward? ==>
        inner != null && inner.calls == old(inner.calls) + [CStart(dwIterations, dwFlags)] && hr == inner.reply
    {
      if !filter.IsFFBAllowed() {
        return DI_OK;
      }
      if inner == null {
        return DI_OK;
      }
      hr := inner.Start(dwIterations, dwFlags);
    }

    method Stop() returns (hr: HResult)
      modifies inner
      ensures Gate(OpStop, filter.IsFFBAllowed(), inner != null).Answer? ==> hr == DI_OK && (inner != null ==> unchanged(inner))
      ensures Gate(OpStop, filter.IsFFBAllowed(), inner != null).Forward? ==>
        inner != null && inner.calls == old(inner.calls) + [CStop] && hr == inner.reply
    {
      if !filter.IsFFBAllowed() {
        return DI_OK;
      }
      if inner == null {
        return DI_OK;
      }
      hr := inner.Stop();
    }

    /** A blocked or null effect reports status 0 (not playing). */
    method GetEffectStatus(pdwFlags: Out?<Dword>) returns (hr: HResult)
      modifies inner, pdwFlags
      ensures Gate(OpGetEffectStatus, filter.IsFFBAllowed(), inner != null).Answer? ==>
        hr == DI_OK && (inner != null ==> unchanged(inner)) && (pdwFlags != null ==> pdwFlags.value == 0)
      ensures Gate(OpGetEffectStatus, filter.IsFFBAllowed(), inner != null).Forward? ==>
        && inner != null && inner.calls == old(inner.calls) + [CGetEffectStatus] && hr == inner.reply
        && (pdwFlags != null ==> pdwFlags.value == if Succeeded(hr) then inner.status else old(pdwFlags.value))
    {
      if !filter.IsFFBAllowed() || inner == null {
        if pdwFlags != null {
          pdwFlags.value := 0;
        }
        return DI_OK;
      }
      hr := inner.GetEffectStatus(pdwFlags);
    }

    method Download() returns (hr: HResult)
      modifies inner
      ensures Gate(OpDownload, filter.IsFFBAllowed(), inner != null).Answer? ==> hr == DI_OK && (inner != null ==> unchanged(inner))
      ensures Gate(OpDownload, filter.IsFFBAllowed(), inner != null).Forward? ==>
        inner != null && inner.calls == old(inner.calls) + [CDownload] && hr == inner.reply
    {
      if !filter.IsFFBAllowed() {
        return DI_OK;
      }
      if inner == null {
        return DI_OK;
      }
      hr := inner.Download();
    }

    method Unload() returns (hr: HResult)
      modifies inner
      ensures Gate(OpUnload, filter.IsFFBAllowed(), inner != null).Answer? ==> hr == DI_OK && inner == null
      ensures inner != null ==> inner.calls == old(inner.calls) + [CUnload] && hr == inner.reply
    {
      if inner == null {
        return DI_OK;
      }
      hr := inner.Unload();
    }

    /** A null effect refuses escapes with DIERR_UNSUPPORTED. */
    method Escape(pesc: Option<EffEscape>) returns (hr: HResult)
      modifies inner
      ensures Gate(OpEscape, filter.IsFFBAllowed(), inner != null).Answer? ==> hr == DIERR_UNSUPPORTED && inner == null
      ensures inner != null ==> inner.calls == old(inner.calls) + [CEscape(pesc)] && hr == inner.reply
    {
      if inner == null {
        return DIERR_UNSUPPORTED;
      }
      hr := inner.Escape(pesc);
    }
  }

  // ---- What SetParameters hands on ----

  /** The heap objects behind a caller's DIEFFECT pointer. */
  function Caller(peff: Option<DiEffect>): set<object>
    reads if peff.Some? then {peff.value.lpvTypeSpecificParams} else {}
  {
    if peff.Some? then Footprint(peff.value) else {}
  }

  twostate predicate CallerUnchanged(peff: Option<DiEffect>)
    reads if peff.Some? then {peff.value.lpvTypeSpecificParams} + Footprint(peff.value) else {}
  {
    peff.Some? && peff.value.lpvTypeSpecificParams != null ==>
      && unchanged(peff.value.lpvTypeSpecificParams)
      && var l := peff.value.lpvTypeSpecificParams.layout;
      && (l.CustomForce? && l.rglForceData != null ==> unchanged(l.rglForceData))
  }

  /** The DIEFFECT struct the real effect is given: the gain scaled below 100. */
  function Sent(peff: Option<DiEffect>, guid: Guid, scale: int): Option<DiEffect>
    requires scale >= 0
  {
    if peff.Some? && scale < 100 then Some(peff.value.(dwGain := ScaleValue(peff.value.dwGain, scale))) else peff
  }

  /** The memory the real effect can read: the caller's, scaled below 100. */
  function SentMemory(m: MemoryImage, peff: Option<DiEffect>, guid: Guid, scale: int): (r: MemoryImage)
    requires scale >= 0
    ensures peff.None? || scale >= 100 ==> r == m
    ensures peff.Some? && m.layout.Some? && peff.value.cbTypeSpecificParams > 0 && scale < 100 ==>
      r.layout == Some(ScaledLayout(m.layout.value, guid, peff.value.cbTypeSpecificParams, scale))
  {
    if peff.Some? then ScaledEffectMemory(m, peff.value, guid, scale) else m
  }

  /** The same struct, up to where its type-specific block lives. */
  predicate SameStruct(a: Option<DiEffect>, b: Option<DiEffect>) {
    a.Some? == b.Some? &&
    (a.Some? ==> a.value.(lpvTypeSpecificParams := null) == b.value.(lpvTypeSpecificParams := null) &&
                 (a.value.lpvTypeSpecificParams == null <==> b.value.lpvTypeSpecificParams == null))
  }

  /** A copy of a DIEFFECT whose type-specific block, and custom-force samples, are fresh copies. */
  method CopyParams(e: DiEffect) returns (c: DiEffect)
    requires MemoryOk(e)
    ensures MemoryOk(c) && MemoryOf(c) == MemoryOf(e)
    ensures c.(lpvTypeSpecificParams := null) == e.(lpvTypeSpecificParams := null)
    ensures (c.lpvTypeSpecificParams == null <==> e.lpvTypeSpecificParams == null)
    ensures fresh(Footprint(c))
  {
    c := e;
    if e.lpvTypeSpecificParams == null {
      return;
    }
    var l := e.lpvTypeSpecificParams.layout;
    if l.CustomForce? && l.rglForceData != null {
      var data := new Long[l.rglForceData.Length](i requires 0 <= i < l.rglForceData.Length reads l.rglForceData => l.rglForceData[i]);
      assert data[..] == l.rglForceData[..];
      var block := new ParamBuffer(l.(rglForceData := data));
      c := e.(lpvTypeSpecificParams := block);
      assert MemoryOf(c).samples == Some(data[..]);
    } else {
      var block := new ParamBuffer(l);
      c := e.(lpvTypeSpecificParams := block);
    }
  }

  // ---- Submitting the same spring twice at 50% ----

  /** A spring on one axis, positive coefficient 10000, in a caller's block. */
  method SpringEffect() returns (e: DiEffect)
    ensures MemoryOk(e) && e.lpvTypeSpecificParams != null && fresh(e.lpvTypeSpecificParams)
    ensures e.cbTypeSpecificParams == SIZEOF_DICONDITION
    ensures e.lpvTypeSpecificParams.layout == Conditions([Condition(0, 10000, 10000, 10000, 10000, 0)])
  {
    var block := new ParamBuffer(Conditions([Condition(0, 10000, 10000, 10000, 10000, 0)]));
    e := ZERO_EFFECT.(dwGain := 10000, cbTypeSpecificParams := SIZEOF_DICONDITION, lpvTypeSpecificParams := block);
  }

  /** The positive coefficient the real effect received with its last SetParameters. */
  function LastCoefficient(calls: seq<EffectCall>): Long {
    if calls != [] && calls[|calls| - 1].CSetParameters? then
      var m := calls[|calls| - 1].memory;
      if m.layout.Some? && m.layout.value.Conditions? && m.layout.value.conds != [] then
        m.layout.value.conds[0].lPositiveCoefficient
      else 0
    else 0
  }

  /** As written: a game that submits the same spring twice sees its force halved twice. */
  method ResubmitAsWritten() returns (first: Long, second: Long)
    ensures first == 5000 && second == 2500
  {
    var filter := new FFBFilter(FFBPolicy(true, 50), "wheel");
    var device := new RealEffect(GUID_Spring, DI_OK, 0, ZERO_EFFECT);
    var effect := new WrapperEffect.Wrap(device, filter);
    var spring := SpringEffect();
    first := SubmitSpringAsWritten(effect, device, spring, 10000);
    second := SubmitSpringAsWritten(effect, device, spring, 5000);
  }

  /** Working on its own copy, the wrapper sends 5000 both times. */
  method ResubmitOwnCopy() returns (first: Long, second: Long)
    ensures first == 5000 && second == 5000
  {
    var filter := new FFBFilter(FFBPolicy(true, 50), "wheel");
    var device := new RealEffect(GUID_Spring, DI_OK, 0, ZERO_EFFECT);
    var effect := new WrapperEffect.Wrap(device, filter);
    var spring := SpringEffect();
    first := SubmitSpring(effect, device, spring, 10000);
    second := SubmitSpring(effect, device, spring, 10000);
  }

  /** One SetParametersAsWritten of a spring at strength p through a half-scale wrapper. */
  method SubmitSpringAsWritten(effect: WrapperEffect, device: RealEffect, spring: DiEffect, p: nat) returns (sent: Long)
    requires p == 10000 || p == 5000
    requires effect.inner == device && effect.guid == GUID_Spring && effect.filter.policy == FFBPolicy(true, 50)
    requires device.reply == DI_OK && SpringSubmitted(spring, p)
    modifies device, spring.lpvTypeSpecificParams
    ensures sent == p / 2 && device.reply == DI_OK && SpringSubmitted(spring, p / 2)
  {
    SpringAtHalf(Image(Some(spring)), spring, p);
    var _ := effect.SetParametersAsWritten(Some(spring), 0);
    sent := LastCoefficient(device.calls);
  }

  /** One SetParameters of a spring at strength p through a half-scale wrapper. */
  method SubmitSpring(effect: WrapperEffect, device: RealEffect, spring: DiEffect, p: nat) returns (sent: Long)
    requires p == 10000 || p == 5000
    requires effect.inner == device && effect.guid == GUID_Spring && effect.filter.policy == FFBPolicy(true, 50)
    requires device.reply == DI_OK && SpringSubmitted(spring, p)
    modifies device
    ensures sent == p / 2 && device.reply == DI_OK && SpringSubmitted(spring, p)
  {
    SpringAtHalf(Image(Some(spring)), spring, p);
    var _ := effect.SetParameters(Some(spring), 0);
    sent := LastCoefficient(device.calls);
  }

  /** The game's spring, with its block describing strength p. */
  predicate SpringSubmitted(spring: DiEffect, p: nat)
    reads spring.lpvTypeSpecificParams
  {
    && p <= 10000
    && spring.lpvTypeSpecificParams != null && spring.cbTypeSpecificParams == SIZEOF_DICONDITION
    && MemoryOk(spring)
    && spring.lpvTypeSpecificParams.layout == Conditions([Condition(0, p, p, p, p, 0)])
  }

  /** The memory of a spring whose coefficients and saturations are all p. */
  function SpringMemory(p: nat): MemoryImage
    requires p <= 10000
  {
    MemoryImage(Some(Conditions([Condition(0, p, p, p, p, 0)])), None)
  }

  /** One spring condition scaled by half: every coefficient and saturation halves. */
  lemma SpringAtHalf(m: MemoryImage, e: DiEffect, p: nat)
    requires p == 10000 || p == 5000
    requires e.cbTypeSpecificParams == SIZEOF_DICONDITION
    ensures m == SpringMemory(p) ==> SentMemory(m, Some(e), GUID_Spring, 50) == SpringMemory(p / 2)
  {
    assert BranchOf(GUID_Spring, SIZEOF_DICONDITION) == Some(BCondition);
    assert ScaleValue(p, 50) == p / 2;
    var c := Condition(0, p, p, p, p, 0);
    assert ScaleCondition(c, 50) == Condition(0, p / 2, p / 2, p / 2, p / 2, 0);
    assert ScaledConditions([c], 1, 50) == [ScaleCondition(c, 50)];
  }
}
