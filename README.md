# DCS force-feedback fix: the policy layer, in Dafny

This project models the force-feedback policy layer of a DirectInput 8 proxy DLL.
The proxy sits between a game and the real `dinput8.dll`. It wraps every
device and every force-feedback effect the game creates. Then, per device, it
either blocks force feedback or passes it through, scaled down to a
configured percentage. Alongside, it records each effect's last state so the
effect can be replayed after a reconnect.

The model has these modules:

- `Text`: string helpers for the configuration loader.
  - `trim` on `" \t\r\n"` and ASCII `towlower`.
  - `wstring::find`, for a character and for a substring.
  - `_wtoi`, with the Microsoft runtime's sign handling and its saturation at `INT_MIN`/`INT_MAX`.
- `Config`: the `Config` class with the member initialisers of `config.h`.
  - `Config::load` as a loop over the file's lines.
    - The loop update is a pure one-line step, `ApplyLine`, folded by `ApplyLines`.
    - The loop's invariant ties the object's fields to that fold.
  - `getDevicePolicy` as a first-match search over the ordered rules.
- `DirectInput`: the DirectInput types the core touches.
  - `GUID` is 16 bytes. `HRESULT` is an integer whose non-negative values succeed.
  - `DIEFFECT` is a value. Its type-specific block is a heap `ParamBuffer` holding one of the effect layouts.
    - A custom force's samples are an `array<Long>`.
    - So scaling in place, aliasing and shallow copies are all visible.
- `Filter`: `FFBPolicy`, the effect-type predicates and the two to-string helpers.
  - The `FFBFilter` class, with `isFFBAllowed`/`getScale`/`deviceName` as functions.
  - `scaleEffect` as a method that rewrites the caller's memory.
    - Its result is tied to `ScaledEffectMemory`, a function of the memory before the call.
    - It is proved against that function branch by branch.
- `Registry`: the effect-state registry.
  - `GUIDLess` as `memcmp` order, proved a strict total order.
  - `deepCopyParams`.
  - The nested `std::map` as a map of heap slots.
    - A slot is one `std::map` node. `getRecord` returns a pointer to the slot, as the source returns a pointer into the map.
    - It is mirrored by a ghost value map. Every operation is specified against a pure function on that value map.
- `Effect`: the effect wrapper against a recording stand-in for the real effect.
  - Its two constructors and the cached GUID.
  - The gating of every method.
  - The scaled `SetParameters`.
- `Device`: the four force-feedback methods of the device wrapper.
  - `GetCapabilities` with `FFB_CAPS_FLAGS` as a `bv32` mask.
  - `CreateEffect`, including the null-effect wrapper handed out on a blocked device.
  - `GetForceFeedbackState` and `SendForceFeedbackCommand`.

The real DirectInput device and effect are not part of this model.
`RealDevice` and `RealEffect` stand in for them. Each logs every call it
receives and answers with a configured `HRESULT`. It writes its out-parameters
only when that answer is a success. Each wrapper method's contract states which
calls reach the real object, with which arguments, and what the caller gets back.

Where the code and its comments disagree, the model follows the code:

- `wrapper_effect.h` says a null effect answers every call with `DI_OK`. In the code, `Escape` answers `DIERR_UNSUPPORTED`.
- `WrapperEffect::SetParameters` calls `scaleEffect(&copy)` without the GUID argument that `ffb_filter.h` declares. The model passes the GUID the wrapper cached at construction, which is the only effect GUID the wrapper has.
- When force feedback is allowed and the real `CreateEffect` succeeds without producing an effect, the wrapper passes the success code through with `*ppdeff` set to null: the game gets no effect at all, not a null-effect wrapper. The model does the same.

## Model

| member | source | states |
|---|---|---|
| Text.FindFirstNotBlank | src/config.cpp:14-15 | the index of the first character not in `" \t\r\n"`, with only blanks before it; None exactly when the whole string is blank |
| Text.FindLastNotBlank | src/config.cpp:16 | the index of the last non-blank character, with only blanks after it; None exactly when the whole string is blank |
| Text.Trim | src/config.cpp:13-18 | the result is empty exactly when the input is all blank, and otherwise starts and ends with a non-blank character |
| Text.TrimRemovesOnlyBlanks | src/config.cpp:13-18 | every string is a blank prefix, its trimmed form and a blank suffix, in that order |
| Text.ToLower | src/config.cpp:20-24 | same length, every character lower-cased one by one, no upper-case letter left |
| Text.ToLowerIdempotent | src/ffb_state_registry.cpp:16-20 | lower-casing twice is lower-casing once, so an already lower-cased key is its own key |
| Text.Contains | src/config.cpp:109 | true exactly when the pattern occurs at some position, so the empty pattern occurs in every string |
| Text.IndexOf | src/config.cpp:45-46 | the first position of the character (none before it), or None exactly when it does not occur |
| Text.DigitRun | src/config.cpp:57 | the length of the run of decimal digits a string starts with: all digits up to it, a non-digit or the end after it |
| Text.Saturate | src/config.cpp:57 | clamps a value into the 32-bit signed range and leaves values already inside it alone |
| Text.Wtoi | src/config.cpp:57 | `_wtoi` always yields a 32-bit `int` |
| Text.WtoiOfDecimal | src/config.cpp:57-59 | `_wtoi` reads back every decimal numeral in the 32-bit range, with or without a minus sign |
| Text.WtoiReads | src/config.cpp:57 | after any white space and an optional `+` or `-`, `_wtoi` reads the digits up to the first character that is not one and saturates the value into the 32-bit range |
| Text.WtoiSkipsSpaces | src/config.cpp:57 | leading white space does not change what `_wtoi` reads |
| Text.WtoiSignedDigits | src/config.cpp:57 | a `+`, a `-` or no sign followed by a numeral and then a non-digit reads as the signed numeral, saturated |
| Text.WtoiStopsAtNonDigit | src/config.cpp:57 | "50%" reads as 50, and " \t+50" reads as 50 |
| Text.WtoiSaturates | src/config.cpp:57 | a numeral beyond the 32-bit range reads as INT_MAX, and as INT_MIN after a minus sign |
| Config.ClampPercent | src/config.cpp:69 | `std::clamp(v, 0, 100)`: in range, unchanged inside it, 0 below and 100 above |
| Config.IsTrue | src/config.cpp:55 | the boolean keys accept exactly the lower-cased values "true" and "1" |
| Config.RuleFor | src/config.cpp:73-88 | the rule keeps the key as written, its scale is a percentage, and it is enabled exactly when its scale is positive |
| Config.ApplyKeyValue | src/config.cpp:53-90 | a key=value line keeps every scale a percentage and either leaves the rules alone or appends exactly one rule built from the line |
| Config.ApplyLine | src/config.cpp:34-51 | one iteration of the loop keeps every scale a percentage and appends at most one rule, keeping the earlier rules as a prefix |
| Config.ApplyLines | src/config.cpp:33-91 | the loop over all lines keeps scales in range and rules as a prefix, and appends at most one rule per line |
| Config.CommentLineIgnored | src/config.cpp:34-36 | an empty, `;` or `#` line (after trimming) changes neither the settings nor the section |
| Config.SectionHeaderLine | src/config.cpp:39-42 | a `[...]` line only sets the section, to the trimmed, lower-cased text between the brackets |
| Config.LineWithoutEqualsIgnored | src/config.cpp:45-46 | any other line without `=` changes nothing |
| Config.KeyValueLine | src/config.cpp:45-51 | a key=value line splits at its first `=` and trims both halves before they are applied in the current section |
| Config.BooleanKeys | src/config.cpp:53-66 | `[General] enabled`, `[FFB] enabled` and `[FFB] logeffects` become true exactly for "true" or "1" in any case, and the key is matched in any case |
| Config.LogLevelKey | src/config.cpp:56-60 | `loglevel` is taken when its number is 0..4 and otherwise leaves the old level |
| Config.DefaultScaleKey | src/config.cpp:67-70 | `defaultscale` is the number clamped to 0..100 |
| Config.DefaultScaleOverflow | src/config.cpp:67-70 | a `defaultscale` numeral too large for an `int` saturates to INT_MAX and is then clamped to 100 |
| Config.DeviceRuleLine | src/config.cpp:72-90 | every `[FFBDevices]` line appends one rule at the end: "block" (false, 0), "allow" (true, 100), otherwise (n > 0, clamp(n, 0, 100)), keeping the key's case |
| Config.OtherSectionIgnored | src/config.cpp:53-91 | a key=value line outside the three known sections changes nothing |
| Config.UnknownKeyIgnored | src/config.cpp:53-71 | inside `[General]` and `[FFB]`, a key other than the known ones changes nothing |
| Config.LoadLines | src/config.cpp:26-94 | the settings after the loop: no lines leave them as they were, valid settings stay valid, the old rules stay as a prefix, and at most one rule is added per line |
| Config.SectionIsLastHeader | src/config.cpp:39-42 | the section in force after the loop is the name of the last header line |
| Config.Config.constructor | src/config.h:22-33 | a new Config holds the member initialisers: enabled, log level Info, FFB enabled, effect logging on, default scale 100, auto-restart on, no rules |
| Config.Config.Load | src/config.cpp:26-94 | fails, changing nothing, exactly when the file cannot be opened; otherwise succeeds with the fields equal to the fold of every line over the old fields |
| Config.Config.LoadLine | src/config.cpp:34-51 | one loop iteration on the object agrees with `ApplyLine` on its fields and the section |
| Config.Config.LoadKeyValue | src/config.cpp:45-90 | the key=value part on the object agrees with `ApplyKeyValue` on its fields |
| Config.RuleMatches | src/config.cpp:108-109 | a rule matches when its lower-cased nameMatch occurs in the lower-cased name, so an empty nameMatch matches every name, and a nameMatch longer than the name never matches |
| Config.FirstMatch | src/config.cpp:107-114 | the index of a rule whose lower-cased nameMatch occurs in the lower-cased name, with no matching rule before it; None exactly when no rule matches |
| Config.GetDevicePolicy | src/config.cpp:96-115 | for a null name, and when no rule matches, the global `ffbEnabled`/`ffbDefaultScale`; otherwise the first matching rule's pair; the scale is a percentage |
| Config.EmptyNameMatchMatchesAll | src/config.cpp:108-109 | a rule with an empty nameMatch matches every product name |
| Config.PolicyIgnoresCase | src/config.cpp:105-109 | two product names that differ only in case get the same policy |
| Config.FirstMatchOfConcat | src/config.cpp:107-114 | once a rule matches, appending rules after it cannot change the first match |
| Config.LaterRulesNeverConsulted | src/config.cpp:107-114 | rules appended by a later load never change the policy of a device an earlier rule already matches |
| Config.EarlierMatchingRuleWins | src/config.cpp:107-114 | of two rules that both match, the one listed first decides, in either order |
| Filter.IsConditionEffect | src/ffb_filter.cpp:17-20 | true exactly for Spring, Damper, Inertia and Friction |
| Filter.IsPeriodicEffect | src/ffb_filter.cpp:23-27 | true exactly for Square, Sine, Triangle, SawtoothUp and SawtoothDown |
| Filter.PredefinedGuidsDistinct | src/ffb_filter.cpp:17-27 | the predefined effect GUIDs are equal exactly when their distinguishing first bytes are |
| Filter.EffectClassesDisjoint | src/ffb_filter.cpp:17-27 | no GUID is both a condition and a periodic effect, and neither kind is a constant, ramp or custom force |
| Filter.EffectGuidToString | src/ffb_filter.cpp:98-112 | each of the twelve predefined effect GUIDs maps to its own name and only that GUID has that name; "Unknown" exactly for every other GUID; a condition GUID gets a condition name and a periodic GUID a periodic name, both ways |
| Filter.EffectNamesInjective | src/ffb_filter.cpp:98-112 | a known effect's name identifies its GUID: two GUIDs share that name exactly when they are equal |
| Filter.FfbCommandToString | src/ffb_filter.cpp:114-124 | "UNKNOWN" exactly for a value other than the six DISFFC_ commands; each of RESET, STOPALL, PAUSE, CONTINUE, SETACTUATORSON and SETACTUATORSOFF maps to its own name, and only that command has that name |
| Filter.FfbCommandNamesInjective | src/ffb_filter.cpp:114-124 | a known command's name identifies the command: two values share that name exactly when they are equal |
| Filter.TruncDiv | src/ffb_filter.cpp:35 | division rounding toward zero, as the casts back to `DWORD`/`LONG` truncate: the quotient brackets the dividend from below for a non-negative dividend and from above for a negative one |
| Filter.ScaleValue | src/ffb_filter.cpp:32-35 | a value scaled by a percentage keeps its sign and never grows in magnitude; 0% gives 0, 100% gives the value, and an exact product is divided exactly; the result is `v * scale / 100` truncated toward zero, bracketed within one unit on the side of zero |
| Filter.ScaleValueMonotone | src/ffb_filter.cpp:32-35 | scaling preserves order: a larger force stays at least as large |
| Filter.ScaleCondition | src/ffb_filter.cpp:70-80 | both coefficients and both saturations become their `ScaleValue`, a saturation is never raised, and offset and dead band stay as they were |
| Filter.ScaledConditions | src/ffb_filter.cpp:68-80 | the first count conditions are scaled and any beyond them are kept, with the array's length unchanged |
| Filter.ScaledSamples | src/ffb_filter.cpp:87-91 | the first cSamples * cChannels samples are scaled and the rest kept, with the length unchanged |
| Filter.BranchOf | src/ffb_filter.cpp:41-92 | each branch of the else-if chain is taken exactly when its GUID test and its size test hold |
| Filter.ScaledLayout | src/ffb_filter.cpp:40-92 | the scaled type-specific block keeps its size and kind, and a custom force's block itself is never rewritten |
| Filter.ScaledLayoutKeepsPositions | src/ffb_filter.cpp:55-81 | scaling only moves forces toward zero: periodic offset, phase and period and condition offsets and dead bands stay as they were |
| Filter.ScaledLayoutBranches | src/ffb_filter.cpp:40-81 | constant magnitude, ramp start and end, periodic magnitude and every condition in the block (cb / sizeof(DICONDITION) of them) are scaled when their GUID and size test hold; when no branch is taken, whether the GUID is unknown or the block is smaller than its structure, the block is untouched |
| Filter.MemoryOf | src/ffb_filter.cpp:37-92 | the memory scaleEffect can reach from a struct: no block exactly for a null pointer, samples exactly for a custom force with a sample pointer, and then the block (pointer blanked) and the samples the pointer designates |
| Filter.ScaledEffectMemory | src/ffb_filter.cpp:29-93 | nothing changes for a scale of 100 or more, a size of 0 or no block; the block keeps its size and kind and the samples their length; on the custom-force branch the samples become `ScaledSamples` of the first cSamples * cChannels, and no other branch touches them |
| Filter.FFBFilter.constructor | src/ffb_filter.cpp:7-10 | the filter keeps the policy and the device name it was given |
| Filter.FFBFilter.IsFFBAllowed | src/ffb_filter.h:20 | the policy's `enabled` flag |
| Filter.FFBFilter.GetScale | src/ffb_filter.h:21 | the policy's scale |
| Filter.FFBFilter.DeviceName | src/ffb_filter.h:22 | the device name the filter was built with |
| Filter.FFBFilter.ScaleEffect | src/ffb_filter.cpp:29-93 | nothing changes for a null struct or a scale of 100 or more; otherwise the gain is scaled and the memory behind the struct becomes its scaled image (block and custom samples) |
| Filter.FFBFilter.ScaleConditionsInPlace | src/ffb_filter.cpp:68-80 | the loop over the DICONDITION array leaves exactly the first count conditions scaled |
| Filter.FFBFilter.ScaleSamplesInPlace | src/ffb_filter.cpp:87-91 | the loop over rglForceData leaves exactly the first count samples scaled |
| Registry.BytesLess | src/ffb_state_registry.h:31-35 | `memcmp(a, b, n) < 0` on unsigned bytes; a string is never less than itself |
| Registry.GuidLess | src/ffb_state_registry.h:31-35 | `GUIDLess::operator()`, the byte order on the 16 bytes; a GUID is never less than itself |
| Registry.BytesLessIffFirstDifference | src/ffb_state_registry.h:31-35 | `memcmp(a, b, 16) < 0` holds exactly when a and b agree up to some byte where a's is smaller |
| Registry.BytesLessTotal | src/ffb_state_registry.h:31-35 | the byte order is irreflexive, asymmetric and total on distinct equal-length byte strings |
| Registry.BytesLessTransitive | src/ffb_state_registry.h:31-35 | the byte order is transitive |
| Registry.GuidLessIsStrictTotalOrder | src/ffb_state_registry.h:31-35 | GUIDLess is a strict total order whose incomparable pairs are exactly the equal GUIDs, so the map finds a GUID exactly by equality |
| Registry.CopyPrefix | src/ffb_state_registry.cpp:38-53 | the copied array is the first cAxes entries, empty exactly when the pointer is null or cAxes is 0 |
| Registry.Captured | src/ffb_state_registry.cpp:29-79 | the params struct points only at the record's own storage, parameters are marked present, and the GUID and start state are kept |
| Registry.CapturedDescribesOriginal | src/ffb_state_registry.cpp:35-79 | the captured struct describes the caller's effect: same scalar fields, the same first cAxes axes and directions, the same envelope, and a size of 0 when no block was copied |
| Registry.DeepCopyParams | src/ffb_state_registry.cpp:29-79 | a null struct only clears hasParams; otherwise the capture, with a freshly allocated copy of the caller's block exactly when the block is non-null and non-empty |
| Registry.DeepCopyParamsOwned | src/ffb_state_registry.cpp:55-66 | as above, and a custom force's samples are copied into a fresh array with the same contents |
| Registry.Lookup | src/ffb_state_registry.cpp:153-157 | a record is found exactly when the lower-cased device name and the GUID are both keys |
| Registry.Put | src/ffb_state_registry.h:90 | storing a record sets that entry and keeps every other device and every other effect of the same device |
| Registry.LookupAfterPut | src/ffb_state_registry.cpp:124-126 | what is stored under the lower-cased name is what the next lookup of that name finds, and every other entry reads as before |
| Registry.Started | src/ffb_state_registry.cpp:85-95 | the record, new if absent, is marked running with the GUID and the Start arguments; every other record reads as before |
| Registry.Stopped | src/ffb_state_registry.cpp:97-106 | an existing record is only marked not running; a missing one is not created; nothing else changes |
| Registry.RunningArgs | src/ffb_state_registry.cpp:133-147 | an answer exactly when a record exists and is marked running, and then it is that record's last Start arguments |
| Registry.ClearedDevice | src/ffb_state_registry.cpp:164-167 | every record of the device is gone under any spelling of its name, and every other device's records are kept |
| Registry.StartThenRunning | src/ffb_state_registry.cpp:85-147 | after a start, the registry reports the effect running with that start's arguments |
| Registry.StartThenStop | src/ffb_state_registry.cpp:85-106 | a stop after a start leaves the record and its arguments but reports it not running |
| Registry.NamesMatchIgnoringCase | src/ffb_state_registry.cpp:16-20 | names differing only in case reach the same records for lookup, start and stop |
| Registry.StartKeepsParams | src/ffb_state_registry.cpp:85-95 | a start leaves the recorded parameters, and whether they point into the record's own storage, untouched |
| Registry.FFBStateRegistry.constructor | src/ffb_state_registry.h:84-90 | the registry starts empty |
| Registry.FFBStateRegistry.RecordStart | src/ffb_state_registry.cpp:85-95 | the records become `Started` of the old records; every entry already there keeps its slot, and only freshly allocated slots are new |
| Registry.FFBStateRegistry.UpdateSlot | src/ffb_state_registry.cpp:89-93 | writing through the reference `operator[]` returns: that entry takes the record, no slot is added, moved or removed, and every other record reads as before |
| Registry.FFBStateRegistry.AddSlot | src/ffb_state_registry.cpp:89 | `operator[]` on a missing entry: a freshly allocated slot holds the record, every entry already there keeps its slot, and every other record reads as before |
| Registry.FFBStateRegistry.InsertSlot | src/ffb_state_registry.cpp:89 | the new node is linked in under (name, GUID), creating the device's inner map when it is missing; every entry already there keeps its slot |
| Registry.FFBStateRegistry.RecordStop | src/ffb_state_registry.cpp:97-106 | the records become `Stopped` of the old records, with no slot added or removed |
| Registry.FFBStateRegistry.CurrentRecord | src/ffb_state_registry.cpp:124 | `m_records[key][guid]` read: the stored record, or a default record when there is none |
| Registry.FFBStateRegistry.StoreRecord | src/ffb_state_registry.cpp:124-126 | writing the record back through the reference sets exactly that entry; an existing entry keeps its slot and a missing one gets a fresh slot; every other entry keeps its slot |
| Registry.FFBStateRegistry.StoreFound | src/ffb_state_registry.cpp:124-126 | what is stored under the lower-cased name is what the next lookup by any spelling finds; every other entry reads as before and keeps its slot |
| Registry.FFBStateRegistry.RecordParams | src/ffb_state_registry.cpp:108-127 | as written, with `deepCopyParams`: a null struct changes nothing; otherwise the entry, new if absent, holds the capture of the caller's struct with the GUID set, its block a fresh copy with the caller's layout (so a custom force's sample pointer is shared); every other entry reads as before and every existing entry keeps its slot |
| Registry.FFBStateRegistry.RecordParamsOwned | src/ffb_state_registry.cpp:108-127 | the same with the samples copied: the stored block is fresh, describes the caller's block and owns its samples; every existing entry keeps its slot |
| Registry.FFBStateRegistry.WasRunning | src/ffb_state_registry.cpp:133-147 | true exactly when `RunningArgs` has an answer, which then fills both out-parameters; otherwise they are left as they were |
| Registry.FFBStateRegistry.GetRecord | src/ffb_state_registry.cpp:149-158 | null exactly when there is no record; otherwise a pointer to the registry's own slot for that entry, holding the record |
| Registry.FFBStateRegistry.ClearDevice | src/ffb_state_registry.cpp:164-167 | the records become `ClearedDevice` of the old records, and every entry of every other device keeps its slot |
| Registry.FFBStateRegistry.ClearAll | src/ffb_state_registry.cpp:169-172 | no record is left for any name and GUID |
| Registry.PointerSeesLaterStop | src/ffb_state_registry.cpp:149-158 | a pointer obtained from getRecord shows a recordStop made after it was obtained, under another spelling of the name |
| Registry.PointerSeesLaterStart | src/ffb_state_registry.cpp:85-95 | a pointer obtained from getRecord shows the arguments of a recordStart of that effect made after it was obtained |
| Registry.PointerSurvivesOtherStart | src/ffb_state_registry.cpp:85-95 | a recordStart of another effect of the same device leaves the held pointer on the same record, with its own arguments |
| Registry.PointerSurvivesOtherClear | src/ffb_state_registry.cpp:164-167 | after clearDevice of another device, getRecord returns the very pointer the caller already holds |
| Registry.RecordedSampleAfterCallerReuse | src/ffb_state_registry.cpp:56-61 | as written, a recorded custom force's sample changes when the caller overwrites its own sample buffer |
| Registry.OwnedSampleAfterCallerReuse | src/ffb_state_registry.cpp:56-61 | with the samples copied too, the recorded sample keeps the value the effect was set with |
| Effect.Gate | src/wrapper_effect.cpp:64-139 | a call reaches the real effect exactly when there is one and either the device is allowed or the call is one policy does not gate (Initialize, GetParameters, Unload, Escape); otherwise the answer is DI_OK, or DIERR_UNSUPPORTED for Escape |
| Effect.BlockedEffectIsSilent | src/wrapper_effect.cpp:86-129 | on a blocked device, SetParameters, Start, Stop, GetEffectStatus and Download never reach the real effect and report DI_OK |
| Effect.NullEffectAnswers | src/wrapper_effect.cpp:64-139 | a null effect never forwards and answers DI_OK to every call except Escape |
| Effect.WrapperEffect.Wrap | src/wrapper_effect.cpp:10-18 | wrapping asks the real effect for its GUID once and caches it; the GUID is zero when there is no real effect or the call fails |
| Effect.WrapperEffect.Null | src/wrapper_effect.cpp:20-27 | a null effect has no real effect and caches the GUID it was created for |
| Effect.WrapperEffect.Initialize | src/wrapper_effect.cpp:64-69 | forwarded whenever there is a real effect; DI_OK, with nothing forwarded, without one |
| Effect.WrapperEffect.GetEffectGuid | src/wrapper_effect.cpp:71-75 | E_POINTER for a null pointer; otherwise DI_OK and the cached GUID, and the real effect is never asked |
| Effect.WrapperEffect.GetParameters | src/wrapper_effect.cpp:77-84 | forwarded whenever there is a real effect; a null effect zeroes the caller's struct and answers DI_OK |
| Effect.WrapperEffect.SetParametersAsWritten | src/wrapper_effect.cpp:86-101 | gated as `Gate` says; when forwarded, the real effect gets the struct with its gain scaled and sees the scaled block, and the caller's own block is left scaled as well |
| Effect.WrapperEffect.SetParameters | src/wrapper_effect.cpp:86-101 | the caller's memory is never changed; when forwarded, the real effect gets the same struct with the gain scaled, and the memory it reads is the scaled image of the caller's |
| Effect.WrapperEffect.Start | src/wrapper_effect.cpp:103-108 | gated: blocked or null answers DI_OK without touching the real effect, otherwise forwards the arguments |
| Effect.WrapperEffect.Stop | src/wrapper_effect.cpp:110-115 | gated in the same way |
| Effect.WrapperEffect.GetEffectStatus | src/wrapper_effect.cpp:117-123 | blocked or null reports status 0 with DI_OK; otherwise forwarded |
| Effect.WrapperEffect.Download | src/wrapper_effect.cpp:125-129 | gated in the same way as Start |
| Effect.WrapperEffect.Unload | src/wrapper_effect.cpp:131-134 | forwarded whenever there is a real effect, DI_OK without one |
| Effect.WrapperEffect.Escape | src/wrapper_effect.cpp:136-139 | forwarded whenever there is a real effect, DIERR_UNSUPPORTED without one |
| Effect.CopyParams | src/wrapper_effect.cpp:94-95 | a copy of the struct with fresh copies of its block and samples that hold the same memory image |
| Effect.SentMemory | src/wrapper_effect.cpp:93-98 | the memory the real effect reads: the caller's for a null struct or a scale of 100 or more, otherwise with the block scaled by `ScaledLayout` |
| Effect.SpringAtHalf | src/ffb_filter.cpp:65-81 | a one-condition spring of strength 10000 or 5000 sent at 50% reaches the device at half that strength |
| Effect.ResubmitAsWritten | src/wrapper_effect.cpp:94-98 | as written, a spring of strength 10000 submitted twice at 50% reaches the device as 5000 and then 2500 |
| Effect.ResubmitOwnCopy | src/wrapper_effect.cpp:94-98 | working on its own copy, the wrapper sends 5000 both times |
| Device.FFBCapsFlagsValue | src/wrapper_device8.cpp:78-86 | the eight FFB capability flags are exactly the second byte, 0xFF00 |
| Device.StripFFBCaps | src/wrapper_device8.cpp:92-97 | all eight FFB flags are cleared, every other flag is kept, both FFB timing fields are zero, and no other field changes |
| Device.StripFFBCapsIdempotent | src/wrapper_device8.cpp:92-97 | stripping twice is stripping once, and a stripped device never reports DIDC_FORCEFEEDBACK |
| Device.CreateOutcome | src/wrapper_device8.cpp:243-271 | E_POINTER for a null out-pointer; a wrapper exactly when the real call succeeded with an effect, with its HRESULT; a null effect with DI_OK exactly when it did not and FFB is blocked; otherwise no effect and the real HRESULT |
| Device.BlockedDeviceAlwaysCreates | src/wrapper_device8.cpp:259-266 | on a blocked device, CreateEffect always hands out an effect and reports success |
| Device.AllowedDeviceIsTransparent | src/wrapper_device8.cpp:252-270 | on an allowed device, CreateEffect reports the real HRESULT and wraps exactly when the real call produced an effect |
| Device.WrapperDevice8.constructor | src/wrapper_device8.cpp:10-19 | the wrapper keeps the real device and the filter |
| Device.WrapperDevice8.GetCapabilities | src/wrapper_device8.cpp:89-103 | always asks the real device; on success, an allowed device's capabilities pass through and a blocked device's are `StripFFBCaps` of them |
| Device.WrapperDevice8.CreateEffect | src/wrapper_device8.cpp:243-271 | follows `CreateOutcome`: the real device is not asked for a null out-pointer; the effect handed out wraps the real one, or is a fresh null effect for the requested GUID, or is null |
| Device.WrapperDevice8.GetForceFeedbackState | src/wrapper_device8.cpp:286-292 | blocked reports state 0 with DI_OK without asking the real device; allowed is forwarded |
| Device.WrapperDevice8.SendForceFeedbackCommand | src/wrapper_device8.cpp:295-302 | blocked swallows every command with DI_OK; allowed forwards it |
| Device.BlockedVirtualDeviceScenario | src/wrapper_device8.cpp:259-266 | a blocked device whose real CreateEffect fails, as vJoy's does, still gives the game an effect and DI_OK |

## Left out

- Filter.ScaleValue: the source multiplies by `scale / 100.0f` in single-precision floating point and truncates toward zero. The model truncates the exact rational `v * scale / 100`. The two disagree even for small values, because most factors are not exact in binary: `0.13f` lies just below 0.13, so 900 at 13% is 116 in the source and 117 in the model. Above 2^24, where a `float` no longer holds every integer, they can be many units apart: 2147483647 at 99% is 2126008832 in the source and 2126008810 in the model.
- Filter.ScaledLayout: when the block's layout does not match its branch (a GUID/size pair whose bytes hold another structure), the model leaves the block unchanged. The source reinterprets the bytes.
- Filter.FFBFilter.constructor: requires a non-negative scale, which every policy built from the configuration has (it is clamped to 0..100). The methods that scale repeat that requirement.
- Registry.DeepCopyParams: copies the typed block rather than exactly `cbTypeSpecificParams` raw bytes. A `cb` smaller or larger than the structure is not modelled at the byte level.
- Registry.FFBStateRegistry.ClearDevice: the slots of erased records stay allocated in the model. The dangling pointers a caller of `getRecord` may still hold after an erase are not represented.
- Text.ToLower: `towlower` is modelled for ASCII letters only. Other characters are kept.
- Text.Wtoi: only decimal digits after optional white space and one sign are read. Locale-specific digits are not.
- Config.Config.Load: the file is given as its sequence of lines, or None when it cannot be opened. Opening the file, wide-character decoding and `getline`'s line splitting are I/O and are not part of this model.
- The stand-ins `RealEffect` and `RealDevice` replace the real DirectInput objects. They answer every call with a configured `HRESULT`.
- The pass-through methods of both wrappers, `QueryInterface`, `AddRef`, `Release` and the destructors are not part of this model. The COM identity and reference counting they manage are left out too.
- The logging helpers of `FFBFilter` (`logEffectCreation`, `logEffectStart`, `logEffectStop`, `logEffectParams`, `logCommand`) are left out. They only write to the log.
- The registry's mutex is left out. The model is sequential.
- No file of the repository calls the registry's methods or reads `ffbAutoRestart`. Replay and auto-restart are not implemented in the modelled code, so the model has nothing of them beyond the registry itself.
- `wrapper_dinput8.cpp`, `dllmain.cpp`, `proxy.cpp` and `logger.cpp` are not part of this model.
- `Config::instance` and `FFBStateRegistry::instance` are left out. The singletons are plain objects here.
- `ffbAutoRestart` is carried in `Settings` and the `Config` class with its default, true. No key of the loader sets it.

## Findings

| source | as written | input that shows it | evidently intended | confidence | as-written member | corrected member |
|---|---|---|---|---|---|---|
| src/wrapper_effect.cpp:94-98 | `DIEFFECT copy = *peff` copies only the struct. Its `lpvTypeSpecificParams` still points at the game's buffer, which `scaleEffect` then scales in place. | at a 50% scale, a spring with coefficient 10000 submitted, then submitted again unchanged, reaches the device as 5000 and then 2500 | work on a copy of the type-specific block (and custom-force samples) too, so the game's memory is untouched and every submission is scaled once | not executed | Effect.WrapperEffect.SetParametersAsWritten, Effect.ResubmitAsWritten | Effect.WrapperEffect.SetParameters, Effect.ResubmitOwnCopy |
| src/ffb_state_registry.cpp:56-61 | the `memcpy` of a `DICUSTOMFORCE` block copies its `rglForceData` pointer, so the record still points at the game's sample buffer | record a one-sample custom force of 1000, then let the game overwrite its sample buffer with 0: the recorded sample reads 0 | deep-copy the samples too, as the header's "deep-copied" promises, so a replay uses the samples the effect was set with | not executed | Registry.DeepCopyParams, Registry.FFBStateRegistry.RecordParams, Registry.RecordedSampleAfterCallerReuse | Registry.DeepCopyParamsOwned, Registry.FFBStateRegistry.RecordParamsOwned, Registry.OwnedSampleAfterCallerReuse |
