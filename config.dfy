/**
 * The configuration: its settings with their defaults, the INI line parser
 * behind Config::load, and the per-device policy lookup getDevicePolicy.
 *
 * The file is given as the sequence of its lines, or None when it cannot be
 * opened.
 */
module Config {
  import opened Wrappers
  import opened Text

  /** LogLevel: None = 0, Error = 1, Warn = 2, Info = 3, Debug = 4. */
  type LogLevel = x: int | 0 <= x <= 4
  const LOG_LEVEL_INFO: LogLevel := 3

  /**
   * One [FFBDevices] line: a case-insensitive substring of the product name,
   * whether force feedback is allowed, and the scale in percent.
   */
  datatype DeviceRule = DeviceRule(nameMatch: string, ffbEnabled: bool, ffbScale: int)

  /** The fields of Config. */
  datatype Settings = Settings(
    enabled: bool,
    logLevel: LogLevel,
    ffbEnabled: bool,
    ffbLogEffects: bool,
    ffbDefaultScale: int,
    ffbAutoRestart: bool,
    deviceRules: seq<DeviceRule>)

  /** The member initialisers of Config. */
  const DEFAULTS: Settings := Settings(true, LOG_LEVEL_INFO, true, true, 100, true, [])

  /** Every scale, the default one and each rule's, is a percentage. */
  predicate ValidSettings(s: Settings) {
    && 0 <= s.ffbDefaultScale <= 100
    && forall i :: 0 <= i < |s.deviceRules| ==> 0 <= s.deviceRules[i].ffbScale <= 100
  }

  /** std::clamp(v, 0, 100) */
  function ClampPercent(v: int): (r: int)
    ensures 0 <= r <= 100
    ensures 0 <= v <= 100 ==> r == v
    ensures v < 0 ==> r == 0
    ensures v > 100 ==> r == 100
  {
    if v < 0 then 0 else if v > 100 then 100 else v
  }

  /** A boolean value: a lower-cased "true" or "1" is true, anything else false. */
  predicate IsTrue(valLo: string) {
    valLo == "true" || valLo == "1"
  }

  /** The rule an [FFBDevices] line key=value adds. */
  function RuleFor(key: string, value: string): (r: DeviceRule)
    ensures r.nameMatch == key
    ensures 0 <= r.ffbScale <= 100
    ensures r.ffbEnabled <==> r.ffbScale > 0
  {
    var valLo := ToLower(value);
    if valLo == "block" then DeviceRule(key, false, 0)
    else if valLo == "allow" then DeviceRule(key, true, 100)
    else
      var s := Wtoi(value);
      DeviceRule(key, s > 0, ClampPercent(s))
  }

  /** The effect of one key=value line in the given (lower-cased) section. */
  function ApplyKeyValue(st: Settings, section: string, key: string, value: string): (r: Settings)
    ensures ValidSettings(st) ==> ValidSettings(r)
    ensures r.deviceRules == st.deviceRules || r.deviceRules == st.deviceRules + [RuleFor(key, value)]
  {
    var keyLo := ToLower(key);
    var valLo := ToLower(value);
    if section == "general" then
      if keyLo == "enabled" then st.(enabled := IsTrue(valLo))
      else if keyLo == "loglevel" then
        var lvl := Wtoi(value);
        if 0 <= lvl <= 4 then st.(logLevel := lvl) else st
      else st
    else if section == "ffb" then
      if keyLo == "enabled" then st.(ffbEnabled := IsTrue(valLo))
      else if keyLo == "logeffects" then st.(ffbLogEffects := IsTrue(valLo))
      else if keyLo == "defaultscale" then st.(ffbDefaultScale := ClampPercent(Wtoi(value)))
      else st
    else if section == "ffbdevices" then
      st.(deviceRules := st.deviceRules + [RuleFor(key, value)])
    else st
  }

  /** The loader's state between lines: the settings and the current section. */
  datatype LoadState = LoadState(settings: Settings, section: string)

  predicate IsComment(line: string) {
    line == [] || line[0] == ';' || line[0] == '#'
  }

  predicate IsSectionHeader(line: string) {
    line != [] && line[0] == '[' && line[|line| - 1] == ']'
  }

  /** The section name a header line sets: lower-cased and trimmed text between the brackets. */
  function SectionName(line: string): string
    requires IsSectionHeader(line)
  {
    ToLower(Trim(line[1..|line| - 1]))
  }

  /** One iteration of the loop of Config::load. */
  function ApplyLine(st: LoadState, raw: string): (r: LoadState)
    ensures ValidSettings(st.settings) ==> ValidSettings(r.settings)
    ensures st.settings.deviceRules <= r.settings.deviceRules
    ensures |r.settings.deviceRules| <= |st.settings.deviceRules| + 1
  {
    var line := Trim(raw);
    if IsComment(line) then st
    else if IsSectionHeader(line) then st.(section := SectionName(line))
    else
      match IndexOf(line, '=')
      case None => st
      case Some(eq) =>
        var key := Trim(line[..eq]);
        var value := Trim(line[eq + 1..]);
        st.(settings := ApplyKeyValue(st.settings, st.section, key, value))
  }

  /** The lines applied in file order. */
  function ApplyLines(st: LoadState, lines: seq<string>): (r: LoadState)
    ensures ValidSettings(st.settings) ==> ValidSettings(r.settings)
    ensures st.settings.deviceRules <= r.settings.deviceRules
    ensures |r.settings.deviceRules| <= |st.settings.deviceRules| + |lines|
  {
    if lines == [] then st
    else ApplyLine(ApplyLines(st, lines[..|lines| - 1]), lines[|lines| - 1])
  }

  /** Applying one more line of the file extends the fold by that line. */
  lemma ApplyLinesStep(st: LoadState, lines: seq<string>, i: nat)
    requires i < |lines|
    ensures ApplyLines(st, lines[..i + 1]) == ApplyLine(ApplyLines(st, lines[..i]), lines[i])
  {
    assert lines[..i + 1][..i] == lines[..i];
  }

  /** The settings after Config::load read lines, starting from st and no section. */
  function LoadLines(st: Settings, lines: seq<string>): (r: Settings)
    ensures lines == [] ==> r == st
    ensures ValidSettings(st) ==> ValidSettings(r)
    ensures |r.deviceRules| <= |st.deviceRules| + |lines|
    ensures st.deviceRules <= r.deviceRules
  {
    ApplyLines(LoadState(st, ""), lines).settings
  }

  // ---- Line-by-line behaviour of the loader ----

  /** An empty line or a comment changes nothing, not even the section. */
  lemma CommentLineIgnored(st: LoadState, raw: string)
    requires IsComment(Trim(raw))
    ensures ApplyLine(st, raw) == st
  {
  }

  /** A header [x] sets the section to lower(trim(x)) and changes no setting. */
  lemma SectionHeaderLine(st: LoadState, raw: string)
    requires IsSectionHeader(Trim(raw))
    ensures ApplyLine(st, raw) == LoadState(st.settings, SectionName(Trim(raw)))
  {
  }

  /** Any other line without '=' is ignored. */
  lemma LineWithoutEqualsIgnored(st: LoadState, raw: string)
    requires !IsComment(Trim(raw)) && !IsSectionHeader(Trim(raw))
    requires '=' !in Trim(raw)
    ensures ApplyLine(st, raw) == st
  {
  }

  /** A key=value line splits at its FIRST '=' and trims both halves; the section stays. */
  lemma KeyValueLine(st: LoadState, raw: string, eq: nat)
    requires !IsComment(Trim(raw)) && !IsSectionHeader(Trim(raw))
    requires eq < |Trim(raw)| && Trim(raw)[eq] == '=' && '=' !in Trim(raw)[..eq]
    ensures ApplyLine(st, raw) ==
      LoadState(ApplyKeyValue(st.settings, st.section, Trim(Trim(raw)[..eq]), Trim(Trim(raw)[eq + 1..])), st.section)
  {
    IndexOfIsFirst(Trim(raw), '=', eq);
  }

  lemma {:induction false} IndexOfIsFirst(s: string, c: char, k: nat)
    requires k < |s| && s[k] == c && c !in s[..k]
    ensures IndexOf(s, c) == Some(k)
  {
    if k > 0 {
      assert s[0] == s[..k][0];
      assert s[1..][..k - 1] == s[1..k];
      assert forall j :: 0 <= j < k - 1 ==> s[1..k][j] == s[..k][j + 1];
      IndexOfIsFirst(s[1..], c, k - 1);
    }
  }

  /** [General] enabled and [FFB] enabled / logeffects: true exactly for "true" or "1", in any case. */
  lemma BooleanKeys(st: Settings, key: string, value: string)
    ensures ToLower(key) == "enabled" ==>
      ApplyKeyValue(st, "general", key, value) == st.(enabled := IsTrue(ToLower(value)))
    ensures ToLower(key) == "enabled" ==>
      ApplyKeyValue(st, "ffb", key, value) == st.(ffbEnabled := IsTrue(ToLower(value)))
    ensures ToLower(key) == "logeffects" ==>
      ApplyKeyValue(st, "ffb", key, value) == st.(ffbLogEffects := IsTrue(ToLower(value)))
  {
  }

  /** [General] loglevel is taken only when its number is 0..4; otherwise the old level stays. */
  lemma LogLevelKey(st: Settings, key: string, value: string)
    requires ToLower(key) == "loglevel"
    ensures 0 <= Wtoi(value) <= 4 ==> ApplyKeyValue(st, "general", key, value) == st.(logLevel := Wtoi(value))
    ensures !(0 <= Wtoi(value) <= 4) ==> ApplyKeyValue(st, "general", key, value) == st
  {
  }

  /** [FFB] defaultscale is the number clamped to 0..100. */
  lemma DefaultScaleKey(st: Settings, key: string, value: string)
    requires ToLower(key) == "defaultscale"
    ensures ApplyKeyValue(st, "ffb", key, value) == st.(ffbDefaultScale := ClampPercent(Wtoi(value)))
  {
  }

  /**
   * Every [FFBDevices] line appends exactly one rule, at the end, keeping the
   * key's case: "block" gives (false, 0), "allow" gives (true, 100), and any
   * other value n gives (n > 0, clamp(n, 0, 100)).
   */
  lemma DeviceRuleLine(st: Settings, key: string, value: string)
    ensures
      var r := ApplyKeyValue(st, "ffbdevices", key, value);
      var rule := r.deviceRules[|r.deviceRules| - 1];
      && r == st.(deviceRules := st.deviceRules + [rule])
      && rule.nameMatch == key
      && (ToLower(value) == "block" ==> !rule.ffbEnabled && rule.ffbScale == 0)
      && (ToLower(value) == "allow" ==> rule.ffbEnabled && rule.ffbScale == 100)
      && (ToLower(value) != "block" && ToLower(value) != "allow" ==>
            rule.ffbEnabled == (Wtoi(value) > 0) && rule.ffbScale == ClampPercent(Wtoi(value)))
  {
  }

  /** A key in another section, or an unknown key, changes nothing. */
  lemma OtherSectionIgnored(st: Settings, section: string, key: string, value: string)
    requires section != "general" && section != "ffb" && section != "ffbdevices"
    ensures ApplyKeyValue(st, section, key, value) == st
  {
  }

  /** In [General] and [FFB], a key the loader does not know changes nothing. */
  lemma UnknownKeyIgnored(st: Settings, section: string, key: string, value: string)
    requires section == "general" || section == "ffb"
    requires section == "general" ==> ToLower(key) != "enabled" && ToLower(key) != "loglevel"
    requires section == "ffb" ==> ToLower(key) != "enabled" && ToLower(key) != "logeffects" && ToLower(key) != "defaultscale"
    ensures ApplyKeyValue(st, section, key, value) == st
  {
  }

  /** A defaultscale too large for an int saturates in _wtoi and is then clamped to 100. */
  lemma DefaultScaleOverflow(st: Settings, n: nat)
    requires n > INT_MAX
    ensures ApplyKeyValue(st, "ffb", "defaultscale", Decimal(n)).ffbDefaultScale == 100
  {
    assert ToLower("defaultscale") == "defaultscale";
    WtoiSaturates(n);
  }

  /** The section carried from line to line is always the name of the last header seen. */
  lemma {:induction false} SectionIsLastHeader(st: LoadState, lines: seq<string>, i: nat)
    requires i < |lines| && IsSectionHeader(Trim(lines[i]))
    requires forall j :: i < j < |lines| ==> !IsSectionHeader(Trim(lines[j]))
    ensures ApplyLines(st, lines).section == SectionName(Trim(lines[i]))
    decreases |lines|
  {
    var init := lines[..|lines| - 1];
    if i < |lines| - 1 {
      assert init[i] == lines[i];
      SectionIsLastHeader(st, init, i);
      assert forall j :: i < j < |init| ==> init[j] == lines[j];
    }
  }

  /** The global Config. */
  class Config {
    var enabled: bool
    var logLevel: LogLevel
    var ffbEnabled: bool
    var ffbLogEffects: bool
    var ffbDefaultScale: int
    var ffbAutoRestart: bool
    var deviceRules: seq<DeviceRule>

    function Snapshot(): Settings
      reads this
    {
      Settings(enabled, logLevel, ffbEnabled, ffbLogEffects, ffbDefaultScale, ffbAutoRestart, deviceRules)
    }

    constructor ()
      ensures Snapshot() == DEFAULTS
    {
      enabled, logLevel := true, LOG_LEVEL_INFO;
      ffbEnabled, ffbLogEffects, ffbDefaultScale, ffbAutoRestart := true, true, 100, true;
      deviceRules := [];
    }

    /**
     * Config::load. It fails only when the file cannot be opened; otherwise
     * every line is applied in order, on top of the current fields (a second
     * load appends its rules after the first one's), and it succeeds.
     */
    method Load(file: Option<seq<string>>) returns (ok: bool)
      modifies this
      ensures ok <==> file.Some?
      ensures file.None? ==> Snapshot() == old(Snapshot())
      ensures file.Some? ==> Snapshot() == LoadLines(old(Snapshot()), file.value)
    {
      if file.None? {
        return false;
      }
      var lines := file.value;
      var section := "";
      var i := 0;
      while i < |lines|
        invariant 0 <= i <= |lines|
        invariant LoadState(Snapshot(), section) == ApplyLines(LoadState(old(Snapshot()), ""), lines[..i])
      {
        ApplyLinesStep(LoadState(old(Snapshot()), ""), lines, i);
        section := LoadLine(section, lines[i]);
        i := i + 1;
      }
      assert lines[..|lines|] == lines;
      return true;
    }

    /** The body of the loop of Config::load: one line, in the current section; returns the new section. */
    method LoadLine(section: string, raw: string) returns (next: string)
      modifies this
      ensures LoadState(Snapshot(), next) == ApplyLine(LoadState(old(Snapshot()), section), raw)
    {
      next := section;
      var line := Trim(raw);
      if IsComment(line) {
        return;
      }
      if IsSectionHeader(line) {
        next := SectionName(line);
        return;
      }
      var eq := IndexOf(line, '=');
      if eq.None? {
        return;
      }
      var key := Trim(line[..eq.value]);
      var value := Trim(line[eq.value + 1..]);
      ghost var before := LoadState(Snapshot(), section);
      assert ApplyLine(before, raw) == before.(settings := ApplyKeyValue(before.settings, section, key, value));
      LoadKeyValue(section, key, value);
    }

    /** The key=value part of the loop body. */
    method LoadKeyValue(section: string, key: string, value: string)
      modifies this
      ensures Snapshot() == ApplyKeyValue(old(Snapshot()), section, key, value)
    {
      var keyLo := ToLower(key);
      var valLo := ToLower(value);
      if section == "general" {
        if keyLo == "enabled" {
          enabled := valLo == "true" || valLo == "1";
        } else if keyLo == "loglevel" {
          var lvl := Wtoi(value);
          if 0 <= lvl <= 4 {
            logLevel := lvl;
          }
        }
      } else if section == "ffb" {
        if keyLo == "enabled" {
          ffbEnabled := valLo == "true" || valLo == "1";
        } else if keyLo == "logeffects" {
          ffbLogEffects := valLo == "true" || valLo == "1";
        } else if keyLo == "defaultscale" {
          var s := Wtoi(value);
          ffbDefaultScale := ClampPercent(s);
        }
      } else if section == "ffbdevices" {
        var rule: DeviceRule;
        if valLo == "block" {
          rule := DeviceRule(key, false, 0);
        } else if valLo == "allow" {
          rule := DeviceRule(key, true, 100);
        } else {
          var s := Wtoi(value);
          rule := DeviceRule(key, s > 0, ClampPercent(s));
        }
        deviceRules := deviceRules + [rule];
      }
    }
  }

  // ---- Device policy lookup ----

  /** The rule's nameMatch, lower-cased, occurs in the lower-cased product name. */
  predicate RuleMatches(rule: DeviceRule, nameLo: string): (r: bool)
    ensures rule.nameMatch == [] ==> r
    ensures r ==> |rule.nameMatch| <= |nameLo|
  {
    Contains(nameLo, ToLower(rule.nameMatch))
  }

  /** The index of the first rule, in list order, that matches. */
  function FirstMatch(rules: seq<DeviceRule>, nameLo: string): (r: Option<nat>)
    ensures r.Some? ==> r.value < |rules| && RuleMatches(rules[r.value], nameLo)
    ensures r.Some? ==> forall j :: 0 <= j < r.value ==> !RuleMatches(rules[j], nameLo)
    ensures r.None? <==> forall j :: 0 <= j < |rules| ==> !RuleMatches(rules[j], nameLo)
  {
    if rules == [] then None
    else if RuleMatches(rules[0], nameLo) then Some(0)
    else
      match FirstMatch(rules[1..], nameLo)
      case None => None
      case Some(k) => Some(k + 1)
  }

  /**
   * Config::getDevicePolicy, whose results are outEnabled and outScale: the
   * first rule whose nameMatch occurs in the product name, both lower-cased;
   * when the name is null or no rule matches, the global ffbEnabled and
   * ffbDefaultScale.
   */
  function GetDevicePolicy(cfg: Settings, productName: Option<string>): (r: (bool, int))
    ensures productName.None? ==> r == (cfg.ffbEnabled, cfg.ffbDefaultScale)
    ensures productName.Some? ==>
      var rules, nameLo := cfg.deviceRules, ToLower(productName.value);
      || (exists i :: 0 <= i < |rules| && RuleMatches(rules[i], nameLo)
            && (forall j :: 0 <= j < i ==> !RuleMatches(rules[j], nameLo))
            && r == (rules[i].ffbEnabled, rules[i].ffbScale))
      || ((forall j :: 0 <= j < |rules| ==> !RuleMatches(rules[j], nameLo))
            && r == (cfg.ffbEnabled, cfg.ffbDefaultScale))
    ensures ValidSettings(cfg) ==> 0 <= r.1 <= 100
  {
    match productName
    case None => (cfg.ffbEnabled, cfg.ffbDefaultScale)
    case Some(name) =>
      match FirstMatch(cfg.deviceRules, ToLower(name))
      case None => (cfg.ffbEnabled, cfg.ffbDefaultScale)
      case Some(i) => (cfg.deviceRules[i].ffbEnabled, cfg.deviceRules[i].ffbScale)
  }

  /** A rule with an empty nameMatch matches every product name. */
  lemma EmptyNameMatchMatchesAll(rule: DeviceRule, name: string)
    requires rule.nameMatch == ""
    ensures RuleMatches(rule, ToLower(name))
  {
    assert OccursAt(ToLower(name), "", 0);
  }

  /** Names that differ only in letter case get the same policy. */
  lemma PolicyIgnoresCase(cfg: Settings, a: string, b: string)
    requires ToLower(a) == ToLower(b)
    ensures GetDevicePolicy(cfg, Some(a)) == GetDevicePolicy(cfg, Some(b))
  {
  }

  lemma {:induction false} FirstMatchOfConcat(rules: seq<DeviceRule>, extra: seq<DeviceRule>, nameLo: string)
    requires FirstMatch(rules, nameLo).Some?
    ensures FirstMatch(rules + extra, nameLo) == FirstMatch(rules, nameLo)
  {
    if !RuleMatches(rules[0], nameLo) {
      assert (rules + extra)[1..] == rules[1..] + extra;
      FirstMatchOfConcat(rules[1..], extra, nameLo);
    }
  }

  /** First match wins: once a rule matches, rules after it are never consulted. */
  lemma LaterRulesNeverConsulted(cfg: Settings, extra: seq<DeviceRule>, name: string)
    requires exists i :: 0 <= i < |cfg.deviceRules| && RuleMatches(cfg.deviceRules[i], ToLower(name))
    ensures GetDevicePolicy(cfg.(deviceRules := cfg.deviceRules + extra), Some(name)) == GetDevicePolicy(cfg, Some(name))
  {
    FirstMatchOfConcat(cfg.deviceRules, extra, ToLower(name));
  }

  /** Order matters: of two rules that both match, the earlier one decides. */
  lemma EarlierMatchingRuleWins(cfg: Settings, a: DeviceRule, b: DeviceRule, name: string)
    requires RuleMatches(a, ToLower(name)) && RuleMatches(b, ToLower(name))
    ensures GetDevicePolicy(cfg.(deviceRules := [a, b]), Some(name)) == (a.ffbEnabled, a.ffbScale)
    ensures GetDevicePolicy(cfg.(deviceRules := [b, a]), Some(name)) == (b.ffbEnabled, b.ffbScale)
  {
  }
}
