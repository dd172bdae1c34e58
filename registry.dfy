/**
 * The effect state registry (ffb_state_registry.h / ffb_state_registry.cpp):
 * last-known state of each effect, keyed by lower-cased device name and effect GUID.
 */
module Registry {
  import opened Wrappers
  import opened DirectInput
  import opened Text

  // ---- GUIDLess: memcmp order on the 16 bytes ----

  /** memcmp(a, b, n) < 0: the first differing byte of a is the smaller, as unsigned. */
  predicate BytesLess(a: seq<bv8>, b: seq<bv8>): (r: bool)
    requires |a| == |b|
    ensures r ==> a != b
  {
    a != [] && (a[0] < b[0] || (a[0] == b[0] && BytesLess(a[1..], b[1..])))
  }

  predicate GuidLess(a: Guid, b: Guid): (r: bool)
    ensures r ==> a != b
  {
    BytesLess(a, b)
  }

  /** memcmp's order, stated without recursion: a and b agree up to some byte, where a's is smaller. */
  lemma BytesLessIffFirstDifference(a: seq<bv8>, b: seq<bv8>)
    requires |a| == |b|
    ensures BytesLess(a, b) <==> exists i :: 0 <= i < |a| && a[..i] == b[..i] && a[i] < b[i]
  {
    if BytesLess(a, b) {
      var i := LessHasFirstDifference(a, b);
    }
    if exists i :: 0 <= i < |a| && a[..i] == b[..i] && a[i] < b[i] {
      var i :| 0 <= i < |a| && a[..i] == b[..i] && a[i] < b[i];
      FirstDifferenceIsLess(a, b, i);
    }
  }

  lemma {:induction false} LessHasFirstDifference(a: seq<bv8>, b: seq<bv8>) returns (i: nat)
    requires |a| == |b| && BytesLess(a, b)
    ensures i < |a| && a[..i] == b[..i] && a[i] < b[i]
  {
    if a[0] < b[0] {
      i := 0;
    } else {
      var j := LessHasFirstDifference(a[1..], b[1..]);
      i := j + 1;
      assert a[..i] == [a[0]] + a[1..][..j];
      assert b[..i] == [b[0]] + b[1..][..j];
    }
  }

  lemma {:induction false} FirstDifferenceIsLess(a: seq<bv8>, b: seq<bv8>, i: nat)
    requires |a| == |b| && i < |a| && a[..i] == b[..i] && a[i] < b[i]
    ensures BytesLess(a, b)
  {
    if i > 0 {
      assert a[0] == a[..i][0] && b[0] == b[..i][0];
      assert a[1..][..i - 1] == a[..i][1..] && b[1..][..i - 1] == b[..i][1..];
      FirstDifferenceIsLess(a[1..], b[1..], i - 1);
    }
  }

  /** GUIDLess is a strict total order, so std::map keyed by it identifies GUIDs exactly by equality. */
  lemma {:induction false} BytesLessTotal(a: seq<bv8>, b: seq<bv8>)
    requires |a| == |b|
    ensures !BytesLess(a, a)
    ensures !(BytesLess(a, b) && BytesLess(b, a))
    ensures a != b ==> BytesLess(a, b) || BytesLess(b, a)
  {
    if a != [] {
      BytesLessTotal(a[1..], b[1..]);
      BytesLessTotal(a[1..], a[1..]);
      if a != b && a[0] == b[0] {
        assert a == [a[0]] + a[1..] && b == [b[0]] + b[1..];
      }
    }
  }

  lemma {:induction false} BytesLessTransitive(a: seq<bv8>, b: seq<bv8>, c: seq<bv8>)
    requires |a| == |b| == |c|
    requires BytesLess(a, b) && BytesLess(b, c)
    ensures BytesLess(a, c)
  {
    if a[0] == b[0] && b[0] == c[0] {
      BytesLessTransitive(a[1..], b[1..], c[1..]);
    }
  }

  lemma GuidLessIsStrictTotalOrder(a: Guid, b: Guid, c: Guid)
    ensures !GuidLess(a, a)
    ensures GuidLess(a, b) ==> !GuidLess(b, a)
    ensures a != b <==> GuidLess(a, b) || GuidLess(b, a)
    ensures GuidLess(a, b) && GuidLess(b, c) ==> GuidLess(a, c)
  {
    BytesLessTotal(a, b);
    BytesLessTotal(b, b);
    if GuidLess(a, b) && GuidLess(b, c) {
      BytesLessTransitive(a, b, c);
    }
  }

  // ---- Records ----

  /** EffectStateRecord: the params struct plus the storage its pointers are redirected to. */
  datatype EffectStateRecord = EffectStateRecord(
    guid: Guid,
    wasRunning: bool,
    lastIterations: Dword,
    lastStartFlags: Dword,
    hasParams: bool,
    params: DiEffect,
    axes: seq<Dword>,
    directions: seq<Long>,
    typeSpecific: ParamBuffer?,
    envelope: Envelope,
    hasEnvelope: bool)

  /** A value-initialised record, as operator[] creates one. */
  const NEW_RECORD := EffectStateRecord(ZERO_GUID, false, 0, 0, false, ZERO_EFFECT, [], [], null, ZERO_ENVELOPE, false)

  /** The params struct points only at the record's own storage. */
  predicate Owned(rec: EffectStateRecord) {
    && rec.params.rgdwAxes == (if rec.axes != [] then Some(rec.axes) else None)
    && rec.params.rglDirection == (if rec.directions != [] then Some(rec.directions) else None)
    && rec.params.lpvTypeSpecificParams == rec.typeSpecific
    && (rec.typeSpecific == null ==> rec.params.cbTypeSpecificParams == 0)
    && rec.params.lpEnvelope == (if rec.hasEnvelope then Some(rec.envelope) else None)
  }

  /** The first cAxes entries of a caller's array, or nothing when there is none or cAxes is 0. */
  function CopyPrefix<T>(p: Option<seq<T>>, n: nat): (r: seq<T>)
    requires p.Some? ==> n <= |p.value|
    ensures p.Some? && n > 0 ==> r == p.value[..n]
    ensures p.None? || n == 0 <==> r == []
  {
    if p.Some? && n > 0 then p.value[..n] else []
  }

  /**
   * deepCopyParams for a non-null DIEFFECT, given the block allocated for the
   * type-specific copy (null when the caller had none): a shallow copy whose
   * pointers are then redirected to the record's storage.
   */
  function Captured(rec: EffectStateRecord, e: DiEffect, block: ParamBuffer?): (r: EffectStateRecord)
    requires ArraysOk(e)
    requires (block == null) == (e.lpvTypeSpecificParams == null || e.cbTypeSpecificParams == 0)
    ensures Owned(r) && r.hasParams
    ensures r.guid == rec.guid && r.wasRunning == rec.wasRunning
    ensures r.lastIterations == rec.lastIterations && r.lastStartFlags == rec.lastStartFlags
  {
    var axes := CopyPrefix(e.rgdwAxes, e.cAxes);
    var directions := CopyPrefix(e.rglDirection, e.cAxes);
    var params := e.(
      rgdwAxes := if axes != [] then Some(axes) else None,
      rglDirection := if directions != [] then Some(directions) else None,
      lpvTypeSpecificParams := block,
      cbTypeSpecificParams := if block == null then 0 else e.cbTypeSpecificParams,
      lpEnvelope := e.lpEnvelope);
    rec.(hasParams := true, params := params, axes := axes, directions := directions,
         typeSpecific := block,
         envelope := if e.lpEnvelope.Some? then e.lpEnvelope.value else rec.envelope,
         hasEnvelope := e.lpEnvelope.Some?)
  }

  /**
   * Two DIEFFECTs describe the same effect when their scalar fields agree and
   * their arrays agree on the first cAxes entries.
   */
  predicate SameDescription(a: DiEffect, b: DiEffect) {
    && a.dwSize == b.dwSize && a.dwFlags == b.dwFlags && a.dwDuration == b.dwDuration
    && a.dwSamplePeriod == b.dwSamplePeriod && a.dwGain == b.dwGain
    && a.dwTriggerButton == b.dwTriggerButton && a.dwTriggerRepeatInterval == b.dwTriggerRepeatInterval
    && a.cAxes == b.cAxes && a.dwStartDelay == b.dwStartDelay && a.lpEnvelope == b.lpEnvelope
    && (a.rgdwAxes.Some? && a.cAxes > 0 <==> b.rgdwAxes.Some? && b.cAxes > 0)
    && (a.rgdwAxes.Some? && b.rgdwAxes.Some? && a.cAxes > 0 && a.cAxes <= |a.rgdwAxes.value| && a.cAxes <= |b.rgdwAxes.value| ==>
          a.rgdwAxes.value[..a.cAxes] == b.rgdwAxes.value[..a.cAxes])
    && (a.rglDirection.Some? && a.cAxes > 0 <==> b.rglDirection.Some? && b.cAxes > 0)
    && (a.rglDirection.Some? && b.rglDirection.Some? && a.cAxes > 0 && a.cAxes <= |a.rglDirection.value| && a.cAxes <= |b.rglDirection.value| ==>
          a.rglDirection.value[..a.cAxes] == b.rglDirection.value[..a.cAxes])
  }

  /** The captured params describe the effect the caller passed, and are themselves valid memory. */
  lemma CapturedDescribesOriginal(rec: EffectStateRecord, e: DiEffect, block: ParamBuffer?)
    requires ArraysOk(e)
    requires (block == null) == (e.lpvTypeSpecificParams == null || e.cbTypeSpecificParams == 0)
    ensures SameDescription(Captured(rec, e, block).params, e)
    ensures Captured(rec, e, block).params.cbTypeSpecificParams == (if block == null then 0 else e.cbTypeSpecificParams)
  {
    var r := Captured(rec, e, block);
    if e.rgdwAxes.Some? && e.cAxes > 0 {
      assert r.params.rgdwAxes.value == e.rgdwAxes.value[..e.cAxes];
    }
    if e.rglDirection.Some? && e.cAxes > 0 {
      assert r.params.rglDirection.value == e.rglDirection.value[..e.cAxes];
    }
  }

  /**
   * deepCopyParams, as written: the type-specific block is copied into storage
   * the record owns, but a custom force's rglForceData pointer inside that block
   * is copied as a pointer, so the record keeps pointing at the caller's samples.
   */
  method DeepCopyParams(rec: EffectStateRecord, peff: Option<DiEffect>) returns (r: EffectStateRecord)
    requires peff.Some? ==> MemoryOk(peff.value)
    ensures peff.None? ==> r == rec.(hasParams := false)
    ensures peff.Some? ==>
      && var e := peff.value;
      && (r.typeSpecific == null <==> e.lpvTypeSpecificParams == null || e.cbTypeSpecificParams == 0)
      && r == Captured(rec, e, r.typeSpecific)
      && (r.typeSpecific != null ==> fresh(r.typeSpecific) && r.typeSpecific.layout == e.lpvTypeSpecificParams.layout)
  {
    if peff.None? {
      return rec.(hasParams := false);
    }
    var e := peff.value;
    var block: ParamBuffer? := null;
    if e.lpvTypeSpecificParams != null && e.cbTypeSpecificParams > 0 {
      block := new ParamBuffer(e.lpvTypeSpecificParams.layout);
    }
    r := Captured(rec, e, block);
  }

  /**
   * The deep copy the header describes: like DeepCopyParams, and a custom
   * force's samples are copied too, into an array the record owns.
   */
  method DeepCopyParamsOwned(rec: EffectStateRecord, peff: Option<DiEffect>) returns (r: EffectStateRecord)
    requires peff.Some? ==> MemoryOk(peff.value)
    ensures peff.None? ==> r == rec.(hasParams := false)
    ensures peff.Some? ==>
      && var e := peff.value;
      && (r.typeSpecific == null <==> e.lpvTypeSpecificParams == null || e.cbTypeSpecificParams == 0)
      && r == Captured(rec, e, r.typeSpecific)
      && (r.typeSpecific != null ==>
            && fresh(r.typeSpecific)
            && SameBlock(r.typeSpecific.layout, e.lpvTypeSpecificParams.layout)
            && OwnsSamples(r.typeSpecific.layout))
  {
    if peff.None? {
      return rec.(hasParams := false);
    }
    var e := peff.value;
    var block: ParamBuffer? := null;
    if e.lpvTypeSpecificParams != null && e.cbTypeSpecificParams > 0 {
      var l := e.lpvTypeSpecificParams.layout;
      if l.CustomForce? && l.rglForceData != null {
        var data := new Long[l.rglForceData.Length](i requires 0 <= i < l.rglForceData.Length reads l.rglForceData => l.rglForceData[i]);
        block := new ParamBuffer(l.(rglForceData := data));
      } else {
        block := new ParamBuffer(l);
      }
    }
    r := Captured(rec, e, block);
  }

  /** Two blocks hold the same values; a custom force's samples are compared by content. */
  predicate SameBlock(copy: Layout, orig: Layout)
    reads if copy.CustomForce? && copy.rglForceData != null then {copy.rglForceData} else {}
    reads if orig.CustomForce? && orig.rglForceData != null then {orig.rglForceData} else {}
  {
    if copy.CustomForce? && orig.CustomForce? then
      && copy.cChannels == orig.cChannels && copy.cSamples == orig.cSamples
      && copy.dwSamplePeriod == orig.dwSamplePeriod
      && (copy.rglForceData == null <==> orig.rglForceData == null)
      && (copy.rglForceData != null ==> copy.rglForceData[..] == orig.rglForceData[..])
    else copy == orig
  }

  /** A custom force's samples, if any, are in an array allocated by the copy. */
  twostate predicate OwnsSamples(new l: Layout) {
    l.CustomForce? && l.rglForceData != null ==> fresh(l.rglForceData)
  }

  // ---- The store ----

  /** Lower-cased device name to (effect GUID to record). */
  type Store = map<string, map<Guid, EffectStateRecord>>

  /** The record for this device and effect, if there is one; device names match case-insensitively. */
  function Lookup(store: Store, deviceName: string, guid: Guid): (r: Option<EffectStateRecord>)
    ensures r.Some? <==> ToLower(deviceName) in store && guid in store[ToLower(deviceName)]
  {
    var key := ToLower(deviceName);
    if key in store && guid in store[key] then Some(store[key][guid]) else None
  }

  /** store[key][guid] after `operator[]`: the existing record, or a new one. */
  function RecordAt(store: Store, key: string, guid: Guid): EffectStateRecord {
    if key in store && guid in store[key] then store[key][guid] else NEW_RECORD
  }

  function Put(store: Store, key: string, guid: Guid, rec: EffectStateRecord): (s: Store)
    ensures key in s && guid in s[key] && s[key][guid] == rec
    ensures forall k :: k in s <==> k in store || k == key
    ensures forall k, g :: k in store && g in store[k] && (k != key || g != guid) ==> k in s && g in s[k] && s[k][g] == store[k][g]
    ensures forall g :: g in s[key] <==> g == guid || (key in store && g in store[key])
    ensures forall k :: k in store && k != key ==> s[k] == store[k]
  {
    var inner := if key in store then store[key] else map[];
    store[key := inner[guid := rec]]
  }

  /** Putting under the lower-cased name is what every later lookup of that name sees. */
  lemma LookupAfterPut(store: Store, deviceName: string, guid: Guid, rec: EffectStateRecord)
    ensures Lookup(Put(store, ToLower(deviceName), guid, rec), deviceName, guid) == Some(rec)
    ensures OthersUnchanged(store, Put(store, ToLower(deviceName), guid, rec), deviceName, guid)
  {
  }

  /** Only the record for (deviceName, guid) can change between two stores. */
  ghost predicate OthersUnchanged(before: Store, after: Store, deviceName: string, guid: Guid) {
    forall n, g :: (ToLower(n) != ToLower(deviceName) || g != guid) ==> Lookup(after, n, g) == Lookup(before, n, g)
  }

  /** recordStart: the record, created if absent, is marked running with the Start() arguments. */
  function Started(store: Store, deviceName: string, guid: Guid, iterations: Dword, flags: Dword): (s: Store)
    ensures Lookup(s, deviceName, guid).Some?
    ensures var rec := Lookup(s, deviceName, guid).value;
      var prev := if Lookup(store, deviceName, guid).Some? then Lookup(store, deviceName, guid).value else NEW_RECORD;
      rec == prev.(guid := guid, wasRunning := true, lastIterations := iterations, lastStartFlags := flags)
    ensures OthersUnchanged(store, s, deviceName, guid)
  {
    var key := ToLower(deviceName);
    Put(store, key, guid, RecordAt(store, key, guid).(guid := guid, wasRunning := true, lastIterations := iterations, lastStartFlags := flags))
  }

  /** recordStop: an existing record is marked not running; nothing is created. */
  function Stopped(store: Store, deviceName: string, guid: Guid): (s: Store)
    ensures Lookup(store, deviceName, guid).None? ==> s == store
    ensures Lookup(store, deviceName, guid).Some? ==>
      Lookup(s, deviceName, guid) == Some(Lookup(store, deviceName, guid).value.(wasRunning := false))
    ensures OthersUnchanged(store, s, deviceName, guid)
  {
    var key := ToLower(deviceName);
    if key in store && guid in store[key] then Put(store, key, guid, store[key][guid].(wasRunning := false))
    else store
  }

  /** wasRunning's answer: the last Start() arguments of a record marked running. */
  function RunningArgs(store: Store, deviceName: string, guid: Guid): (r: Option<(Dword, Dword)>)
    ensures r.Some? <==> Lookup(store, deviceName, guid).Some? && Lookup(store, deviceName, guid).value.wasRunning
    ensures r.Some? ==> r.value == (Lookup(store, deviceName, guid).value.lastIterations, Lookup(store, deviceName, guid).value.lastStartFlags)
  {
    match Lookup(store, deviceName, guid)
    case Some(rec) => if rec.wasRunning then Some((rec.lastIterations, rec.lastStartFlags)) else None
    case None => None
  }

  /** clearDevice: every record of the device goes, under any spelling of its name. */
  function ClearedDevice(store: Store, deviceName: string): (s: Store)
    ensures forall n, g :: Lookup(s, n, g) == if ToLower(n) == ToLower(deviceName) then None else Lookup(store, n, g)
  {
    store - {ToLower(deviceName)}
  }

  /** Once started, an effect reports running with the arguments of its last Start(). */
  lemma StartThenRunning(store: Store, deviceName: string, guid: Guid, iterations: Dword, flags: Dword)
    ensures RunningArgs(Started(store, deviceName, guid, iterations, flags), deviceName, guid) == Some((iterations, flags))
  {
  }

  /** Stopping after starting leaves the record, with its arguments, but no longer running. */
  lemma StartThenStop(store: Store, deviceName: string, guid: Guid, iterations: Dword, flags: Dword)
    ensures var s := Stopped(Started(store, deviceName, guid, iterations, flags), deviceName, guid);
      && RunningArgs(s, deviceName, guid).None?
      && Lookup(s, deviceName, guid).Some?
      && Lookup(s, deviceName, guid).value.lastIterations == iterations
      && Lookup(s, deviceName, guid).value.lastStartFlags == flags
  {
    var s1 := Started(store, deviceName, guid, iterations, flags);
    assert Lookup(s1, deviceName, guid).Some?;
  }

  /** The device name is matched case-insensitively everywhere. */
  lemma NamesMatchIgnoringCase(store: Store, a: string, b: string, guid: Guid, iterations: Dword, flags: Dword)
    requires ToLower(a) == ToLower(b)
    ensures Lookup(store, a, guid) == Lookup(store, b, guid)
    ensures RunningArgs(Started(store, a, guid, iterations, flags), b, guid) == Some((iterations, flags))
    ensures Lookup(Stopped(store, a, guid), b, guid) == Lookup(Stopped(store, b, guid), b, guid)
  {
  }

  /** Starting an effect does not disturb the recorded parameters, which replay needs. */
  lemma StartKeepsParams(store: Store, deviceName: string, guid: Guid, iterations: Dword, flags: Dword)
    requires Lookup(store, deviceName, guid).Some?
    ensures var before := Lookup(store, deviceName, guid).value;
      var after := Lookup(Started(store, deviceName, guid, iterations, flags), deviceName, guid).value;
      after.hasParams == before.hasParams && after.params == before.params && Owned(after) == Owned(before)
  {
  }

  /** A record where the registry keeps it; getRecord hands out a pointer to one. */
  /** Two nested maps with the same devices and, per device, the same effect GUIDs. */
  ghost predicate SameShape<S>(slots: map<string, map<Guid, S>>, records: Store) {
    && slots.Keys == records.Keys
    && forall k | k in slots :: slots[k].Keys == records[k].Keys
  }

  lemma ShapeAfterUpdate<S>(slots: map<string, map<Guid, S>>, records: Store, key: string, inner: map<Guid, S>, innerRecords: map<Guid, EffectStateRecord>)
    requires SameShape(slots, records) && inner.Keys == innerRecords.Keys
    ensures SameShape(slots[key := inner], records[key := innerRecords])
  {
    var s', r' := slots[key := inner], records[key := innerRecords];
    forall k | k in s'
      ensures s'[k].Keys == r'[k].Keys
    {
      if k != key {
        assert s'[k] == slots[k] && r'[k] == records[k];
      }
    }
  }

  lemma ShapeAfterRemove<S>(slots: map<string, map<Guid, S>>, records: Store, key: string)
    requires SameShape(slots, records)
    ensures SameShape(slots - {key}, records - {key})
  {
  }

  /** Each entry has a slot of its own, owned by that entry, holding that entry's record. */
  ghost predicate Linked(slots: map<string, map<Guid, RecordSlot>>, records: Store, owner: map<RecordSlot, (string, Guid)>)
    requires SameShape(slots, records)
    reads owner.Keys
  {
    forall k, g | k in slots && g in slots[k] ::
      slots[k][g] in owner && owner[slots[k][g]] == (k, g) && slots[k][g].rec == records[k][g]
  }

  lemma LinkedAfterInsert(slots: map<string, map<Guid, RecordSlot>>, records: Store, owner: map<RecordSlot, (string, Guid)>,
                          key: string, guid: Guid, slot: RecordSlot, inner: map<Guid, RecordSlot>, innerRecords: map<Guid, EffectStateRecord>)
    requires SameShape(slots, records) && Linked(slots, records, owner)
    requires !(key in slots && guid in slots[key]) && slot !in owner
    requires key in slots ==> inner == slots[key][guid := slot] && innerRecords == records[key][guid := slot.rec]
    requires key !in slots ==> inner == map[guid := slot] && innerRecords == map[guid := slot.rec]
    ensures SameShape(slots[key := inner], records[key := innerRecords])
    ensures Linked(slots[key := inner], records[key := innerRecords], owner[slot := (key, guid)])
  {
    ShapeAfterUpdate(slots, records, key, inner, innerRecords);
    var s', r', o' := slots[key := inner], records[key := innerRecords], owner[slot := (key, guid)];
    forall k, g | k in s' && g in s'[k]
      ensures s'[k][g] in o' && o'[s'[k][g]] == (k, g) && s'[k][g].rec == r'[k][g]
    {
      if k != key || g != guid {
        assert s'[k][g] == slots[k][g];
      }
    }
  }

  /**
   * Every entry of before other than those of device "except" still has its
   * slot in after: inserting or erasing other keys of a std::map never moves
   * a surviving node, so a pointer into one stays valid.
   */
  ghost predicate SlotsKeptExcept(before: map<string, map<Guid, RecordSlot>>, after: map<string, map<Guid, RecordSlot>>, except: Option<string>) {
    forall k, g | k in before && g in before[k] && Some(k) != except ::
      k in after && g in after[k] && after[k][g] == before[k][g]
  }

  ghost predicate SlotsKept(before: map<string, map<Guid, RecordSlot>>, after: map<string, map<Guid, RecordSlot>>) {
    SlotsKeptExcept(before, after, None)
  }

  lemma SlotsKeptAfterInsert(slots: map<string, map<Guid, RecordSlot>>, key: string, guid: Guid, slot: RecordSlot, inner: map<Guid, RecordSlot>)
    requires !(key in slots && guid in slots[key])
    requires inner == (if key in slots then slots[key] else map[])[guid := slot]
    ensures SlotsKept(slots, slots[key := inner])
  {
    var after := slots[key := inner];
    forall k, g | k in slots && g in slots[k]
      ensures k in after && g in after[k] && after[k][g] == slots[k][g]
    {
      if k == key {
        assert g != guid;
      }
    }
  }

  class RecordSlot {
    var rec: EffectStateRecord

    constructor (rec: EffectStateRecord)
      ensures this.rec == rec
    {
      this.rec := rec;
    }
  }

  /** The registry singleton: m_records, whose records live in slots of their own. */
  class FFBStateRegistry {
    var slots: map<string, map<Guid, RecordSlot>>
    /** The records by value. */
    ghost var records: Store
    /** Which entry each slot belongs to; no two entries share a slot, as no two std::map nodes do. */
    ghost var owner: map<RecordSlot, (string, Guid)>

    ghost predicate Valid()
      reads this, owner.Keys
    {
      && SameShape(slots, records)
      && Linked(slots, records, owner)
    }

    constructor ()
      ensures Valid() && records == map[] && owner == map[]
    {
      slots := map[];
      records := map[];
      owner := map[];
    }

    method RecordStart(deviceName: string, effectGuid: Guid, iterations: Dword, flags: Dword)
      requires Valid()
      modifies this, owner.Keys
      ensures Valid() && fresh(owner.Keys - old(owner.Keys))
      ensures records == Started(old(records), deviceName, effectGuid, iterations, flags)
      ensures SlotsKept(old(slots), slots)
    {
      var key := ToLower(deviceName);
      if key in slots && effectGuid in slots[key] {
        var slot := slots[key][effectGuid];
        var rec := slot.rec.(guid := effectGuid, wasRunning := true, lastIterations := iterations, lastStartFlags := flags);
        UpdateSlot(key, effectGuid, rec);
      } else {
        var rec := NEW_RECORD.(guid := effectGuid, wasRunning := true, lastIterations := iterations, lastStartFlags := flags);
        AddSlot(key, effectGuid, rec);
      }
    }

    /** The existing slot for (key, guid) takes rec; no other record changes. */
    method UpdateSlot(key: string, guid: Guid, rec: EffectStateRecord)
      requires Valid() && key in slots && guid in slots[key]
      modifies this, slots[key][guid]
      ensures Valid() && slots == old(slots) && owner == old(owner)
      ensures records == Put(old(records), key, guid, rec)
    {
      var slot := slots[key][guid];
      slot.rec := rec;
      records := Put(records, key, guid, rec);
      forall k, g | k in slots && g in slots[k] && (k != key || g != guid)
        ensures slots[k][g].rec == records[k][g]
      {
        assert owner[slots[k][g]] != owner[slot];
      }
    }

    /** A new slot for (key, guid), absent until now, holding rec. */
    method AddSlot(key: string, guid: Guid, rec: EffectStateRecord)
      requires Valid() && !(key in slots && guid in slots[key])
      modifies this
      ensures Valid() && fresh(owner.Keys - old(owner.Keys))
      ensures records == Put(old(records), key, guid, rec)
      ensures SlotsKept(old(slots), slots) && key in slots && guid in slots[key] && fresh(slots[key][guid])
    {
      var slot := new RecordSlot(rec);
      InsertSlot(key, guid, slot);
    }

    /**
     * The slot, owned by no entry yet, becomes the entry for (key, guid); as
     * with operator[] on the outer map, a device not seen yet gets an inner map.
     */
    method InsertSlot(key: string, guid: Guid, slot: RecordSlot)
      requires Valid() && !(key in slots && guid in slots[key]) && slot !in owner
      modifies this
      ensures Valid() && owner == old(owner)[slot := (key, guid)]
      ensures records == Put(old(records), key, guid, slot.rec)
      ensures SlotsKept(old(slots), slots) && key in slots && guid in slots[key] && slots[key][guid] == slot
    {
      var rec := slot.rec;
      var inner: map<Guid, RecordSlot> := if key in slots then slots[key] else map[];
      var innerRecords: map<Guid, EffectStateRecord> := if key in records then records[key] else map[];
      inner, innerRecords := inner[guid := slot], innerRecords[guid := rec];
      ghost var before, recordsBefore, ownerBefore := slots, records, owner;
      slots := slots[key := inner];
      records := records[key := innerRecords];
      owner := owner[slot := (key, guid)];
      LinkedAfterInsert(before, recordsBefore, ownerBefore, key, guid, slot, inner, innerRecords);
      SlotsKeptAfterInsert(before, key, guid, slot, inner);
    }

    method RecordStop(deviceName: string, effectGuid: Guid)
      requires Valid()
      modifies this, owner.Keys
      ensures Valid() && slots == old(slots) && owner == old(owner)
      ensures records == Stopped(old(records), deviceName, effectGuid)
    {
      var key := ToLower(deviceName);
      if key !in slots {
        return;
      }
      var inner := slots[key];
      if effectGuid !in inner {
        return;
      }
      UpdateSlot(key, effectGuid, inner[effectGuid].rec.(wasRunning := false));
    }

    /** The record operator[] would yield for (key, guid): the stored one, or a new one. */
    method CurrentRecord(key: string, guid: Guid) returns (rec: EffectStateRecord)
      requires Valid()
      ensures rec == RecordAt(records, key, guid)
    {
      if key in slots && guid in slots[key] {
        rec := slots[key][guid].rec;
      } else {
        rec := NEW_RECORD;
      }
    }

    /** Store rec for (key, guid), in its existing slot or in a new one. */
    method StoreRecord(key: string, guid: Guid, rec: EffectStateRecord)
      requires Valid()
      modifies this, owner.Keys
      ensures Valid() && fresh(owner.Keys - old(owner.Keys))
      ensures records == Put(old(records), key, guid, rec)
      ensures SlotsKept(old(slots), slots) && key in slots && guid in slots[key]
      ensures key in old(slots) && guid in old(slots)[key] ==> slots == old(slots)
      ensures !(key in old(slots) && guid in old(slots)[key]) ==> fresh(slots[key][guid])
    {
      if key in slots && guid in slots[key] {
        UpdateSlot(key, guid, rec);
      } else {
        AddSlot(key, guid, rec);
      }
    }

    /**
     * recordParams: a null DIEFFECT is ignored; otherwise the record, created if
     * absent, takes deepCopyParams of it, whose block is the caller's block
     * copied with a custom force's sample pointer shared.
     */
    method RecordParams(deviceName: string, effectGuid: Guid, peff: Option<DiEffect>)
      requires Valid()
      requires peff.Some? ==> MemoryOk(peff.value)
      modifies this, owner.Keys
      ensures Valid() && fresh(owner.Keys - old(owner.Keys))
      ensures peff.None? ==> records == old(records)
      ensures peff.Some? ==>
        && Lookup(records, deviceName, effectGuid).Some?
        && var rec := Lookup(records, deviceName, effectGuid).value;
        && var prev := RecordAt(old(records), ToLower(deviceName), effectGuid).(guid := effectGuid);
        && var e := peff.value;
        && (rec.typeSpecific == null <==> e.lpvTypeSpecificParams == null || e.cbTypeSpecificParams == 0)
        && rec == Captured(prev, e, rec.typeSpecific)
        && (rec.typeSpecific != null ==> fresh(rec.typeSpecific) && rec.typeSpecific.layout == e.lpvTypeSpecificParams.layout)
        && OthersUnchanged(old(records), records, deviceName, effectGuid)
      ensures SlotsKept(old(slots), slots)
    {
      if peff.None? {
        return;
      }
      var key := ToLower(deviceName);
      var current := CurrentRecord(key, effectGuid);
      var rec := DeepCopyParams(current.(guid := effectGuid), peff);
      StoreFound(deviceName, effectGuid, rec);
    }

    /**
     * recordParams with the deep copy the header describes: the record also
     * owns a copy of a custom force's samples.
     */
    method RecordParamsOwned(deviceName: string, effectGuid: Guid, peff: Option<DiEffect>)
      requires Valid()
      requires peff.Some? ==> MemoryOk(peff.value)
      modifies this, owner.Keys
      ensures Valid() && fresh(owner.Keys - old(owner.Keys))
      ensures peff.None? ==> records == old(records)
      ensures peff.Some? ==>
        && Lookup(records, deviceName, effectGuid).Some?
        && var rec := Lookup(records, deviceName, effectGuid).value;
        && var prev := RecordAt(old(records), ToLower(deviceName), effectGuid).(guid := effectGuid);
        && var e := peff.value;
        && (rec.typeSpecific == null <==> e.lpvTypeSpecificParams == null || e.cbTypeSpecificParams == 0)
        && rec == Captured(prev, e, rec.typeSpecific)
        && (rec.typeSpecific != null ==>
              && fresh(rec.typeSpecific)
              && SameBlock(rec.typeSpecific.layout, e.lpvTypeSpecificParams.layout)
              && OwnsSamples(rec.typeSpecific.layout))
        && OthersUnchanged(old(records), records, deviceName, effectGuid)
      ensures SlotsKept(old(slots), slots)
    {
      if peff.None? {
        return;
      }
      var key := ToLower(deviceName);
      var current := CurrentRecord(key, effectGuid);
      var rec := DeepCopyParamsOwned(current.(guid := effectGuid), peff);
      StoreFound(deviceName, effectGuid, rec);
    }

    /** Store rec for deviceName in any spelling: the next lookup finds it, and nothing else changes. */
    method StoreFound(deviceName: string, effectGuid: Guid, rec: EffectStateRecord)
      requires Valid()
      modifies this, owner.Keys
      ensures Valid() && fresh(owner.Keys - old(owner.Keys)) && SlotsKept(old(slots), slots)
      ensures Lookup(records, deviceName, effectGuid) == Some(rec)
      ensures OthersUnchanged(old(records), records, deviceName, effectGuid)
    {
      StoreRecord(ToLower(deviceName), effectGuid, rec);
      LookupAfterPut(old(records), deviceName, effectGuid, rec);
    }

    /** wasRunning: the out-parameters change only when the answer is true. */
    method WasRunning(deviceName: string, effectGuid: Guid, inIterations: Dword, inFlags: Dword)
      returns (running: bool, outIterations: Dword, outFlags: Dword)
      requires Valid()
      ensures running <==> RunningArgs(records, deviceName, effectGuid).Some?
      ensures running ==> (outIterations, outFlags) == RunningArgs(records, deviceName, effectGuid).value
      ensures !running ==> outIterations == inIterations && outFlags == inFlags
    {
      outIterations, outFlags := inIterations, inFlags;
      var key := ToLower(deviceName);
      if key !in slots {
        return false, outIterations, outFlags;
      }
      var inner := slots[key];
      if effectGuid !in inner {
        return false, outIterations, outFlags;
      }
      var rec := inner[effectGuid].rec;
      if !rec.wasRunning {
        return false, outIterations, outFlags;
      }
      return true, rec.lastIterations, rec.lastStartFlags;
    }

    /** getRecord: a pointer to the registry's own slot, or null when there is no record. */
    method GetRecord(deviceName: string, effectGuid: Guid) returns (r: RecordSlot?)
      requires Valid()
      ensures r == null <==> Lookup(records, deviceName, effectGuid).None?
      ensures r != null ==> r in owner && r.rec == Lookup(records, deviceName, effectGuid).value
      ensures r != null ==> r == slots[ToLower(deviceName)][effectGuid]
    {
      var key := ToLower(deviceName);
      if key !in slots || effectGuid !in slots[key] {
        return null;
      }
      return slots[key][effectGuid];
    }

    method ClearDevice(deviceName: string)
      requires Valid()
      modifies this
      ensures Valid() && owner == old(owner)
      ensures records == ClearedDevice(old(records), deviceName)
      ensures SlotsKeptExcept(old(slots), slots, Some(ToLower(deviceName)))
    {
      ShapeAfterRemove(slots, records, ToLower(deviceName));
      slots := slots - {ToLower(deviceName)};
      records := records - {ToLower(deviceName)};
    }

    method ClearAll()
      modifies this
      ensures Valid() && owner == old(owner) && records == map[]
      ensures forall n, g :: Lookup(records, n, g).None?
    {
      slots := map[];
      records := map[];
    }
  }

  /**
   * The record getRecord points at is the registry's own: a recordStop made
   * after the lookup shows through the pointer the caller already holds.
   */
  method PointerSeesLaterStop() returns (before: bool, after: bool)
    ensures before && !after
  {
    var registry := new FFBStateRegistry();
    assert ToLower("Wheel") == ToLower("wheel") == ToLower("WHEEL") == "wheel";
    registry.RecordStart("Wheel", GUID_ConstantForce, 1, 0);
    var slot := registry.GetRecord("wheel", GUID_ConstantForce);
    before := slot.rec.wasRunning;
    registry.RecordStop("WHEEL", GUID_ConstantForce);
    after := slot.rec.wasRunning;
  }

  /** The same for a later recordStart of that effect: the pointer shows the new Start arguments. */
  method PointerSeesLaterStart() returns (restarted: Dword)
    ensures restarted == 5
  {
    var registry := new FFBStateRegistry();
    assert ToLower("wheel") == "wheel";
    registry.RecordStart("wheel", GUID_ConstantForce, 1, 0);
    var slot := registry.GetRecord("wheel", GUID_ConstantForce);
    registry.RecordStart("wheel", GUID_ConstantForce, 5, 0);
    assert slot == registry.slots["wheel"][GUID_ConstantForce];
    restarted := slot.rec.lastIterations;
  }

  /** Starting another effect of the same device adds a node but does not move this one. */
  method PointerSurvivesOtherStart() returns (iterations: Dword)
    ensures iterations == 1
  {
    var registry := new FFBStateRegistry();
    assert ToLower("wheel") == "wheel";
    assert GUID_Spring != GUID_ConstantForce;
    registry.RecordStart("wheel", GUID_ConstantForce, 1, 0);
    var slot := registry.GetRecord("wheel", GUID_ConstantForce);
    registry.RecordStart("wheel", GUID_Spring, 7, 0);
    assert slot == registry.slots["wheel"][GUID_ConstantForce];
    assert Lookup(registry.records, "wheel", GUID_ConstantForce).value.lastIterations == 1;
    iterations := slot.rec.lastIterations;
  }

  /** Erasing another device keeps the slot: a new getRecord returns the pointer the caller holds. */
  method PointerSurvivesOtherClear() returns (samePointer: bool)
    ensures samePointer
  {
    var registry := new FFBStateRegistry();
    assert ToLower("wheel") == "wheel" && ToLower("pedals") == "pedals";
    registry.RecordStart("wheel", GUID_ConstantForce, 1, 0);
    registry.RecordStart("pedals", GUID_ConstantForce, 1, 0);
    assert Lookup(registry.records, "wheel", GUID_ConstantForce).Some?;
    var slot := registry.GetRecord("wheel", GUID_ConstantForce);
    registry.ClearDevice("pedals");
    var again := registry.GetRecord("wheel", GUID_ConstantForce);
    samePointer := again == slot;
  }

  // ---- The custom-force samples and the deep copy ----

  /** A one-axis custom force of one sample, 1000; the caller then reuses its sample buffer for 0. */
  method CustomForceEffect() returns (e: DiEffect, samples: array<Long>)
    ensures MemoryOk(e) && e.lpvTypeSpecificParams != null && e.cbTypeSpecificParams == SIZEOF_DICUSTOMFORCE
    ensures e.lpvTypeSpecificParams.layout == CustomForce(1, 1, 1000, samples)
    ensures samples[..] == [1000]
    ensures fresh(samples) && fresh(e.lpvTypeSpecificParams)
  {
    samples := new Long[1](_ => 1000);
    var block := new ParamBuffer(CustomForce(1, 1, 1000, samples));
    e := ZERO_EFFECT.(cbTypeSpecificParams := SIZEOF_DICUSTOMFORCE, lpvTypeSpecificParams := block);
    assert SampleCount(1, 1) == 1;
  }

  /**
   * As written: after the caller overwrites its own sample buffer, the sample
   * the record would replay has changed with it.
   */
  method RecordedSampleAfterCallerReuse() returns (recorded: Long)
    ensures recorded == 0
  {
    var e, samples := CustomForceEffect();
    var rec := DeepCopyParams(NEW_RECORD, Some(e));
    samples[0] := 0;
    var l := rec.typeSpecific.layout;
    recorded := l.rglForceData[0];
  }

  /** With the samples copied too, the record keeps the sample the effect was set with. */
  method OwnedSampleAfterCallerReuse() returns (recorded: Long)
    ensures recorded == 1000
  {
    var e, samples := CustomForceEffect();
    var rec := DeepCopyParamsOwned(NEW_RECORD, Some(e));
    samples[0] := 0;
    var l := rec.typeSpecific.layout;
    recorded := l.rglForceData[0];
  }
}
