/**
  The page script of the hashed build (app.917f27ba.js): the reading
  formatters, the hemisphere and label builders, the preference decoders, and
  the geolocation watch that holds one watch id and the latest reading.
 */
module HashedApp {
  import opened JsTypes
  import opened Text
  import opened Sexagesimal
  import HashedI18n

  const BuildVersion: string := "2024-05-16"
  const SpeedUnitKey: string := "vista-speed-unit"
  const DefaultModuleGap: int := 24
  const DefaultLargeValueSize: int := 48
  const DefaultContentPadding: int := 20

  // ---- formatDMS ----

  /** The local steps of `formatDMS` on |value|: whole degrees, whole minutes,
      seconds rounded to hundredths with `Math.round(s * 100) / 100`, then a
      carry of 60″ into the minutes and of 60′ into the degrees, each tested
      with `>=` and applied independently. */
  function DmsSteps(abs: real): (int, int, real)
  {
    var d := abs.Floor;
    var mFloat := (abs - d as real) * 60.0;
    var m := mFloat.Floor;
    var s := (mFloat - m as real) * 60.0;
    var rounded := JsRound(s * 100.0) as real / 100.0;
    var (s1, m1) := if rounded >= 60.0 then (rounded - 60.0, m + 1) else (rounded, m);
    var (m2, d2) := if m1 >= 60 then (m1 - 60, d + 1) else (m1, d);
    (d2, m2, s1)
  }

  /** `formatDMS(value)`: `-` for anything but a number; otherwise
      `dd°mm′ss.ss″` from the carried steps. */
  function FormatDMS(value: Number): (r: string)
    ensures !value.Num? ==> r == "-"
    ensures value.Num? ==> r != "-"
  {
    if !value.Num? then "-" else RenderDms(DmsSteps(Abs(value.value)))
  }

  /** The template of `formatDMS`: degrees and minutes through `padStart(2, '0')`,
      seconds through `toFixed(2).padStart(5, '0')`. */
  function RenderDms(steps: (int, int, real)): string
  {
    Template(WholeField(steps.0), WholeField(steps.1), SecondsField(steps.2))
  }

  /** `String(n).padStart(2, '0')`. */
  function WholeField(n: int): string
  {
    PadStart(IntToString(n), 2, '0')
  }

  lemma FloorShift(y: real, k: int)
    ensures (y + k as real).Floor == y.Floor + k
  {
  }

  /** The central carry lemma: the carried steps give exactly the normal
      decomposition of N = round(|x| * 360000) into N / 360000 degrees,
      (N % 360000) / 6000 minutes and N % 6000 hundredths of a second. */
  lemma DmsStepsDecompose(abs: real)
    requires abs >= 0.0
    ensures var p := Decompose(JsRound(abs * 360000.0));
            DmsSteps(abs) == (p.degrees, p.minutes, p.centiseconds as real / 100.0)
  {
    var n := JsRound(abs * 360000.0);
    var d := abs.Floor;
    var mFloat := (abs - d as real) * 60.0;
    var m := mFloat.Floor;
    var s := (mFloat - m as real) * 60.0;
    assert 0 <= d && 0 <= m < 60;
    assert 0.0 <= s < 60.0;
    assert s * 100.0 == abs * 360000.0 + (-(d * 360000 + m * 6000)) as real;
    FloorShift(abs * 360000.0 + 0.5, -(d * 360000 + m * 6000));
    var cs := JsRound(s * 100.0);
    assert cs == n - d * 360000 - m * 6000;
    assert 0 <= cs <= 6000;
    var cs1 := if cs >= 6000 then cs - 6000 else cs;
    var m1 := if cs >= 6000 then m + 1 else m;
    var m2 := if m1 >= 60 then m1 - 60 else m1;
    var d2 := if m1 >= 60 then d + 1 else d;
    assert (cs as real / 100.0 >= 60.0) == (cs >= 6000);
    var p := Dms(d2, m2, cs1);
    assert Normal(p) && Total(p) == n;
    DecomposeUnique(p);
    assert DmsSteps(abs) == (d2, m2, cs1 as real / 100.0);
  }

  /** The formatter's output is the canonical rendering of the rounded angle. */
  lemma FormatDMSCanonical(x: real)
    ensures FormatDMS(Num(x)) == DmsText(Decompose(RoundedCentiseconds(x)))
  {
    var p := Decompose(RoundedCentiseconds(x));
    var s := p.centiseconds as real / 100.0;
    DmsStepsDecompose(Abs(x));
    FormatOfSteps(x, (p.degrees, p.minutes, s));
    SecondsFieldOf(p.centiseconds);
    RenderNormal(p, s);
  }

  /** `formatDMS` of a number renders the steps taken on its absolute value. */
  lemma FormatOfSteps(x: real, steps: (int, int, real))
    requires DmsSteps(Abs(x)) == steps
    ensures FormatDMS(Num(x)) == RenderDms(steps)
  {
  }

  /** Rendering the fields of a normal decomposition, with a seconds value
      whose field is the canonical one, gives the canonical text. */
  lemma RenderNormal(p: Dms, s: real)
    requires Normal(p) && SecondsField(s) == SecondsText(p.centiseconds)
    ensures RenderDms((p.degrees, p.minutes, s)) == DmsText(p)
  {
    MinutesFieldOf(p.minutes);
  }

  /** The minutes field of a whole number below 60 is the canonical one. */
  lemma MinutesFieldOf(m: nat)
    requires m < 60
    ensures WholeField(m) == TwoDigits(m)
  {
    TwoDigitsIsPadded(m);
  }

  /** Read back, the output of `formatDMS` holds minutes and seconds below 60
      (so `60′` and `60.00″` never appear), a degree field of at least two
      digits, and a total within 1/720000 degree of |x|. */
  lemma FormatDMSReadBack(x: real)
    ensures var p := Decompose(RoundedCentiseconds(x));
            && ReadDms(FormatDMS(Num(x))) == Some(p)
            && Normal(p)
            && -1.0 / 720000.0 < Total(p) as real / 360000.0 - Abs(x) <= 1.0 / 720000.0
  {
    FormatDMSCanonical(x);
    ReadDmsText(Decompose(RoundedCentiseconds(x)));
    DecomposeApproximates(x);
  }

  /** The output depends only on the absolute value. */
  lemma FormatDMSSymmetric(x: real)
    ensures FormatDMS(Num(x)) == FormatDMS(Num(-x))
  {
    assert Abs(x) == Abs(-x);
    FormatDMSOfAbs(x, -x);
  }

  lemma FormatDMSOfAbs(x: real, y: real)
    requires Abs(x) == Abs(y)
    ensures FormatDMS(Num(x)) == FormatDMS(Num(y))
  {
  }

  // ---- the other formatters ----

  /** `formatAltitude(alt)`: metres with two decimals, `- m` without a number. */
  function FormatAltitude(alt: Number): (r: string)
    ensures r == "- m" <==> !alt.Num?
    ensures alt.Num? ==> r == ToFixed2(alt.value) + " m"
    ensures |r| >= 3 && r[|r| - 2..] == " m"
  {
    if alt.Num? then
      ToFixed2Lead(alt.value);
      ToFixed2(alt.value) + " m"
    else "- m"
  }

  /** An altitude reads back within half a centimetre: a '-' below zero
      (below sea level), then the rounded magnitude with two decimals. */
  lemma AltitudeReadsBack(x: real)
    ensures var n := JsRound(Abs(x) * 100.0);
            && FormatAltitude(Num(x)) == (if x < 0.0 then "-" else "") + NatToString(n / 100) + "." + TwoDigits(n % 100) + " m"
            && -0.005 < n as real / 100.0 - Abs(x) <= 0.005
  {
    ToFixed2ReadsSigned(x);
  }

  /** `readPref(SPEED_UNIT_KEY) || 'kmh'`. */
  function SpeedUnit(stored: Option<string>): (unit: string)
    ensures unit != ""
    ensures TruthyString(stored) ==> unit == stored.value
    ensures !TruthyString(stored) ==> unit == "kmh"
  {
    if TruthyString(stored) then stored.value else "kmh"
  }

  /** `formatSpeed(speed)`: km/h (the value times 3.6) when the stored unit is
      'kmh' or absent, m/s for any other stored unit; `- km/h` or `- m/s`
      without a number. */
  function FormatSpeed(speed: Number, storedUnit: Option<string>): (r: string)
    ensures SpeedUnit(storedUnit) == "kmh" ==> |r| >= 6 && r[|r| - 5..] == " km/h"
    ensures SpeedUnit(storedUnit) != "kmh" ==> |r| >= 5 && r[|r| - 4..] == " m/s"
    ensures !speed.Num? <==> r == "- km/h" || r == "- m/s"
  {
    var unit := SpeedUnit(storedUnit);
    if speed.Num? then
      if unit == "kmh" then
        ToFixed2Lead(speed.value * 3.6);
        ToFixed2(speed.value * 3.6) + " km/h"
      else
        ToFixed2Lead(speed.value);
        ToFixed2(speed.value) + " m/s"
    else if unit == "kmh" then "- km/h" else "- m/s"
  }

  /** A non-negative speed in km/h reads back within 0.005 km/h of 3.6 times
      the metres per second. */
  lemma SpeedReadsBack(v: real, storedUnit: Option<string>)
    requires v >= 0.0 && SpeedUnit(storedUnit) == "kmh"
    ensures var n := JsRound(v * 3.6 * 100.0);
            && FormatSpeed(Num(v), storedUnit) == NatToString(n / 100) + "." + TwoDigits(n % 100) + " km/h"
            && -0.005 < n as real / 100.0 - v * 3.6 <= 0.005
  {
    ToFixed2Reads(v * 3.6);
  }

  /** With any other stored unit the speed is shown as given, in m/s; a
      non-negative speed reads back within 0.005 m/s. */
  lemma SpeedReadsBackMetres(v: real, storedUnit: Option<string>)
    requires SpeedUnit(storedUnit) != "kmh"
    ensures FormatSpeed(Num(v), storedUnit) == ToFixed2(v) + " m/s"
    ensures v >= 0.0 ==>
      var n := JsRound(v * 100.0);
      && FormatSpeed(Num(v), storedUnit) == NatToString(n / 100) + "." + TwoDigits(n % 100) + " m/s"
      && -0.005 < n as real / 100.0 - v <= 0.005
  {
    if v >= 0.0 {
      ToFixed2Reads(v);
    }
  }

  /** `formatAccuracy(acc)`: `± <rounded> m`, or `-` without a number; the
      text between the prefix and the unit is exactly the rounded value's
      decimal digits, which parse back to it. */
  function FormatAccuracy(acc: Number): (r: string)
    ensures r == "-" <==> !acc.Num?
    ensures acc.Num? ==>
      && |r| >= 5 && r[..2] == "± " && r[|r| - 2..] == " m"
      && r[2..|r| - 2] == IntToString(JsRound(acc.value))
      && ParseInt(r[2..|r| - 2]) == Some(JsRound(acc.value))
  {
    if acc.Num? then
      var digits := IntToString(JsRound(acc.value));
      ParseIntRoundTrip(JsRound(acc.value));
      var r := "± " + digits + " m";
      assert r[2..|r| - 2] == digits;
      r
    else "-"
  }

  // ---- labels ----

  /** `getDict(lang, key)`: the entry of the page's dictionaries when there is
      a non-empty one, otherwise the key itself. */
  function GetDict(dicts: Option<map<string, map<string, string>>>, lang: string, key: string): (r: string)
    ensures dicts.None? ==> r == key
    ensures r != key ==> dicts.Some? && lang in dicts.value && key in dicts.value[lang] && r == dicts.value[lang][key]
  {
    if dicts.None? then key
    else if lang in dicts.value && key in dicts.value[lang] && dicts.value[lang][key] != "" then dicts.value[lang][key]
    else key
  }

  /** Over the hashed build's own dictionaries, a known language and key give
      the dictionary's text. */
  lemma GetDictKnown(lang: string, key: string)
    requires lang in HashedI18n.Dictionaries && key in HashedI18n.Zh
    ensures GetDict(Some(HashedI18n.Dictionaries), lang, key) == HashedI18n.Dictionaries[lang][key]
  {
    HashedI18n.DictionariesComplete();
  }

  /** The dictionary key `hemisphere` looks up. */
  function HemisphereKey(value: real, axis: string): (key: string)
    ensures axis == "lon" && value >= 0.0 ==> key == "longitudeEast"
    ensures axis == "lon" && value < 0.0 ==> key == "longitudeWest"
    ensures axis != "lon" && value >= 0.0 ==> key == "latitudeNorth"
    ensures axis != "lon" && value < 0.0 ==> key == "latitudeSouth"
    ensures key in HashedI18n.Zh
  {
    if axis == "lon" then (if value >= 0.0 then "longitudeEast" else "longitudeWest")
    else (if value >= 0.0 then "latitudeNorth" else "latitudeSouth")
  }

  /** `hemisphere(value, axis, lang)`. */
  function Hemisphere(value: Number, axis: string, lang: string, dicts: Option<map<string, map<string, string>>>): (r: string)
    ensures !value.Num? ==> r == "-"
    ensures value.Num? ==> r == GetDict(dicts, lang, HemisphereKey(value.value, axis))
  {
    if !value.Num? then "-" else GetDict(dicts, lang, HemisphereKey(value.value, axis))
  }

  /** Zero counts as east and north. */
  lemma HemisphereAtZero(lang: string)
    requires lang in HashedI18n.Dictionaries
    ensures Hemisphere(Num(0.0), "lon", lang, Some(HashedI18n.Dictionaries)) == HashedI18n.Dictionaries[lang]["longitudeEast"]
    ensures Hemisphere(Num(0.0), "lat", lang, Some(HashedI18n.Dictionaries)) == HashedI18n.Dictionaries[lang]["latitudeNorth"]
    ensures Hemisphere(Num(0.0), "lon", "en", Some(HashedI18n.Dictionaries)) == "East"
  {
    GetDictKnown(lang, "longitudeEast");
    GetDictKnown(lang, "latitudeNorth");
    GetDictKnown("en", "longitudeEast");
  }

  /** What goes between the brackets of a coordinate label: the hemisphere
      when it is truthy and not '-', otherwise '-'. */
  function BracketText(hemi: string): (r: string)
    ensures r != ""
    ensures hemi == "" || hemi == "-" ==> r == "-"
    ensures hemi != "" && hemi != "-" ==> r == hemi
  {
    if hemi != "" && hemi != "-" then hemi else "-"
  }

  /** `labelZh(base, hemi)`, with full-width brackets. */
  function LabelZh(base: string, hemi: string): (r: string)
    ensures |r| >= |base| + 3 && r[..|base|] == base && r[|base|..] == "（" + BracketText(hemi) + "）"
  {
    base + "（" + BracketText(hemi) + "）"
  }

  /** `labelEn(base, hemi)`, with a space and ASCII brackets. */
  function LabelEn(base: string, hemi: string): (r: string)
    ensures |r| >= |base| + 4 && r[..|base|] == base && r[|base|..] == " (" + BracketText(hemi) + ")"
  {
    base + " (" + BracketText(hemi) + ")"
  }

  /** `updateCoordLabels`: the Chinese label for 'zh', the English one otherwise. */
  function CoordLabel(lang: string, base: string, hemi: string): (r: string)
    ensures lang == "zh" ==> r == LabelZh(base, hemi)
    ensures lang != "zh" ==> r == LabelEn(base, hemi)
  {
    if lang == "zh" then LabelZh(base, hemi) else LabelEn(base, hemi)
  }

  /** The texts `renderReadings` writes (the timestamp is not part of this model). */
  datatype Readings = Readings(
    lonLabelZh: string, lonLabelEn: string, latLabelZh: string, latLabelEn: string,
    longitude: string, latitude: string, altitude: string, speed: string, accuracy: string)

  /** `renderReadings(position)`. */
  function RenderReadings(position: Option<Position>, dicts: Option<map<string, map<string, string>>>, storedUnit: Option<string>): (r: Readings)
    ensures position.None? ==>
      && r.longitude == "-" && r.latitude == "-" && r.altitude == "- m" && r.accuracy == "-"
      && r.speed == (if SpeedUnit(storedUnit) == "kmh" then "- km/h" else "- m/s")
      && r.lonLabelZh == LabelZh(GetDict(dicts, "zh", "longitudeLabel"), "-")
      && r.lonLabelEn == LabelEn(GetDict(dicts, "en", "longitudeLabel"), "-")
      && r.latLabelZh == LabelZh(GetDict(dicts, "zh", "latitudeLabel"), "-")
      && r.latLabelEn == LabelEn(GetDict(dicts, "en", "latitudeLabel"), "-")
    ensures position.Some? ==>
      var c := position.value.coords;
      && r.longitude == FormatDMS(c.longitude) && r.latitude == FormatDMS(c.latitude)
      && r.altitude == FormatAltitude(c.altitude) && r.speed == FormatSpeed(c.speed, storedUnit)
      && r.accuracy == FormatAccuracy(c.accuracy)
      && r.lonLabelZh == LabelZh(GetDict(dicts, "zh", "longitudeLabel"), Hemisphere(c.longitude, "lon", "zh", dicts))
      && r.lonLabelEn == LabelEn(GetDict(dicts, "en", "longitudeLabel"), Hemisphere(c.longitude, "lon", "en", dicts))
      && r.latLabelZh == LabelZh(GetDict(dicts, "zh", "latitudeLabel"), Hemisphere(c.latitude, "lat", "zh", dicts))
      && r.latLabelEn == LabelEn(GetDict(dicts, "en", "latitudeLabel"), Hemisphere(c.latitude, "lat", "en", dicts))
  {
    var lonZh := GetDict(dicts, "zh", "longitudeLabel");
    var lonEn := GetDict(dicts, "en", "longitudeLabel");
    var latZh := GetDict(dicts, "zh", "latitudeLabel");
    var latEn := GetDict(dicts, "en", "latitudeLabel");
    match position
    case None =>
      Readings(CoordLabel("zh", lonZh, "-"), CoordLabel("en", lonEn, "-"),
               CoordLabel("zh", latZh, "-"), CoordLabel("en", latEn, "-"),
               "-", "-", "- m", FormatSpeed(NonNumber, storedUnit), "-")
    case Some(p) =>
      var c := p.coords;
      Readings(CoordLabel("zh", lonZh, Hemisphere(c.longitude, "lon", "zh", dicts)),
               CoordLabel("en", lonEn, Hemisphere(c.longitude, "lon", "en", dicts)),
               CoordLabel("zh", latZh, Hemisphere(c.latitude, "lat", "zh", dicts)),
               CoordLabel("en", latEn, Hemisphere(c.latitude, "lat", "en", dicts)),
               FormatDMS(c.longitude), FormatDMS(c.latitude), FormatAltitude(c.altitude),
               FormatSpeed(c.speed, storedUnit), FormatAccuracy(c.accuracy))
  }

  /** A reading that carries no number at all renders exactly like no reading. */
  lemma ReadingWithoutNumbers(p: Position, dicts: Option<map<string, map<string, string>>>, storedUnit: Option<string>)
    requires !p.coords.longitude.Num? && !p.coords.latitude.Num? && !p.coords.altitude.Num?
    requires !p.coords.speed.Num? && !p.coords.accuracy.Num?
    ensures RenderReadings(Some(p), dicts, storedUnit) == RenderReadings(None, dicts, storedUnit)
  {
  }

  // ---- preferences ----

  /** `resolvePreferredTheme()`: a stored 'light' or 'dark', otherwise the
      system's colour scheme. */
  function ResolvePreferredTheme(stored: Option<string>, prefersDark: bool): (theme: string)
    ensures theme == "light" || theme == "dark"
    ensures stored == Some("light") || stored == Some("dark") ==> theme == stored.value
    ensures !(stored == Some("light") || stored == Some("dark")) ==> (theme == "dark" <==> prefersDark)
  {
    if stored == Some("light") || stored == Some("dark") then stored.value
    else if prefersDark then "dark" else "light"
  }

  /** `theme || resolvePreferredTheme()`: the theme `applyTheme` sets and stores. */
  function NextTheme(theme: Option<string>, stored: Option<string>, prefersDark: bool): (next: string)
    ensures TruthyString(theme) ==> next == theme.value
    ensures !TruthyString(theme) ==> next == ResolvePreferredTheme(stored, prefersDark)
  {
    if TruthyString(theme) then theme.value else ResolvePreferredTheme(stored, prefersDark)
  }

  /** A theme applied from the controls (or resolved) is stored, and resolving
      the stored value later gives it back whatever the system scheme then is. */
  lemma ThemeSurvivesReload(theme: Option<string>, stored: Option<string>, prefersDark: bool, laterPrefersDark: bool)
    requires theme == None || theme == Some("light") || theme == Some("dark")
    ensures var next := NextTheme(theme, stored, prefersDark);
            ResolvePreferredTheme(Some(next), laterPrefersDark) == next
  {
  }

  /** `readPref(key) !== 'false'`: a name is shown unless the stored flag is
      exactly 'false'. */
  function ModuleShown(stored: Option<string>): (shown: bool)
    ensures !shown <==> stored == Some("false")
  {
    stored != Some("false")
  }

  /** The flag the toggles store: `checked ? 'true' : 'false'`. */
  function Flag(checked: bool): string
  {
    if checked then "true" else "false"
  }

  /** Storing a toggle's state and decoding it again gives the state back. */
  lemma FlagRoundTrip(checked: bool)
    ensures ModuleShown(Some(Flag(checked))) == checked
  {
  }

  /** An element carrying a `data-module` attribute and the `hidden` attribute. */
  datatype Element = Element(modules: Option<string>, hidden: bool)

  /** `(el.dataset.module || '').split(/\s+/).filter(Boolean).includes(module)`. */
  predicate ModuleListed(modules: Option<string>, name: string)
  {
    name in Tokens(if modules.Some? then modules.value else "")
  }

  /** An attribute written as space-separated module names lists exactly those names. */
  lemma ModuleListedJoin(names: seq<string>, name: string)
    requires forall i :: 0 <= i < |names| ==> IsToken(names[i])
    ensures ModuleListed(Some(JoinSpaces(names)), name) <==> name in names
  {
    TokensJoinSpaces(names);
  }

  /** One element after `toggleModule(module, visible)`. */
  function Toggled(e: Element, name: string, visible: bool): (t: Element)
    ensures t.modules == e.modules
    ensures ModuleListed(e.modules, name) ==> t.hidden == !visible
    ensures !ModuleListed(e.modules, name) ==> t == e
  {
    if ModuleListed(e.modules, name) then e.(hidden := !visible) else e
  }

  /** `toggleModule(module, visible)` over the page's `[data-module]` elements. */
  method ToggleModule(els: array<Element>, name: string, visible: bool)
    modifies els
    ensures forall i :: 0 <= i < els.Length ==> els[i] == Toggled(old(els[i]), name, visible)
  {
    var i := 0;
    while i < els.Length
      invariant 0 <= i <= els.Length
      invariant forall k :: 0 <= k < i ==> els[k] == Toggled(old(els[k]), name, visible)
      invariant forall k :: i <= k < els.Length ==> els[k] == old(els[k])
    {
      els[i] := Toggled(els[i], name, visible);
      i := i + 1;
    }
  }

  /** `applyModuleVisibility()`: timestamp and accuracy follow the details flag,
      speed follows the speed flag; an element listing several modules ends up
      as the last of them (speed) decides. */
  method ApplyModuleVisibility(els: array<Element>, detailsFlag: Option<string>, speedFlag: Option<string>)
    modifies els
    ensures forall i :: 0 <= i < els.Length ==>
      var e := old(els[i]);
      els[i] == Toggled(Toggled(Toggled(e, "timestamp", ModuleShown(detailsFlag)), "accuracy", ModuleShown(detailsFlag)), "speed", ModuleShown(speedFlag))
  {
    var showDetails := ModuleShown(detailsFlag);
    var showSpeed := ModuleShown(speedFlag);
    ToggleModule(els, "timestamp", showDetails);
    ToggleModule(els, "accuracy", showDetails);
    ToggleModule(els, "speed", showSpeed);
  }

  /** `Number.parseInt(val, 10)` with the slider's default when that is NaN;
      a missing preference (null or undefined) parses to NaN. */
  function SliderValue(val: Option<string>, default: int): (n: int)
    ensures val.None? ==> n == default
    ensures val.Some? && ParseInt(val.value).Some? ==> n == ParseInt(val.value).value
    ensures val.Some? && ParseInt(val.value).None? ==> n == default
  {
    match val
    case None => default
    case Some(text) =>
      match ParseInt(text)
      case Some(n) => n
      case None => default
  }

  /** Each slider falls back to its own default (24px gap, 48px value size,
      20px padding) when the preference is missing or has no leading digits. */
  lemma SliderDefaults(val: Option<string>)
    requires val.None? || ParseInt(val.value).None?
    ensures SliderValue(val, DefaultModuleGap) == 24
    ensures SliderValue(val, DefaultLargeValueSize) == 48
    ensures SliderValue(val, DefaultContentPadding) == 20
  {
  }

  /** `updateModuleGap`, `updateLargeValueSize` and `updateContentPadding` store
      `String(n)`, which decodes to n again on the next load. */
  lemma SliderRoundTrip(n: int, default: int)
    ensures SliderValue(Some(IntToString(n)), default) == n
  {
    ParseIntRoundTrip(n);
  }

  // ---- the geolocation watch ----

  const ErrorKeys: set<string> := {"permissionDenied", "positionUnavailable", "timeout", "unknownError"}

  /** The error key `handleError` picks for an error's code; `NonNumber`
      stands for a missing error or a code that is not a number. */
  function ErrorKey(code: Number): (key: string)
    ensures key in ErrorKeys
    ensures key == "permissionDenied" <==> code == Num(1.0)
    ensures key == "positionUnavailable" <==> code == Num(2.0)
    ensures key == "timeout" <==> code == Num(3.0)
  {
    if code == Num(1.0) then "permissionDenied"
    else if code == Num(2.0) then "positionUnavailable"
    else if code == Num(3.0) then "timeout"
    else "unknownError"
  }

  /** `showError(key)`: the message is `I18N.t(key) || key`. */
  function ErrorMessage(lang: string, key: string): string
  {
    var text := HashedI18n.T(lang, key);
    if text != "" then text else key
  }

  /** Every error key has a text in both dictionaries, so the message is
      never the bare key. */
  lemma ErrorMessagesTranslated(lang: string, code: Number)
    requires lang in HashedI18n.Dictionaries
    ensures ErrorMessage(lang, ErrorKey(code)) == HashedI18n.Dictionaries[lang][ErrorKey(code)]
    ensures ErrorMessage(lang, ErrorKey(code)) != ErrorKey(code)
  {
    HashedI18n.DictionariesComplete();
    HashedI18n.TKnownOrKey(lang, ErrorKey(code));
  }

  /** The name variables `watchId` and `latestPosition`, the error box (the
      key it shows, or none when hidden) and the provider's live watches. */
  class GeoWatch {
    const hasGeolocation: bool
    var watchId: Option<nat>
    var latestPosition: Option<Position>
    var error: Option<string>
    var live: set<nat>
    var nextId: nat

    /** At most one watch is live, and it is the one `watchId` holds. */
    ghost predicate Valid()
      reads this
    {
      && (watchId.None? ==> live == {})
      && (watchId.Some? ==> live == {watchId.value} && watchId.value < nextId)
      && (!hasGeolocation ==> watchId.None?)
    }

    constructor(geolocation: bool)
      ensures Valid()
      ensures hasGeolocation == geolocation
      ensures watchId == None && latestPosition == None && error == None && live == {} && nextId == 0
    {
      hasGeolocation := geolocation;
      watchId := None;
      latestPosition := None;
      error := None;
      live := {};
      nextId := 0;
    }

    /** `stopWatch()`: clears the live watch, if any; a second call changes nothing. */
    method StopWatch()
      requires Valid()
      modifies this
      ensures Valid()
      ensures watchId == None && live == {}
      ensures old(watchId) == None ==> unchanged(this)
      ensures latestPosition == old(latestPosition) && error == old(error) && nextId == old(nextId)
    {
      if watchId.Some? {
        live := live - {watchId.value};
        watchId := None;
      }
    }

    /** `startWatch()`: without geolocation it only shows `positionUnavailable`;
        otherwise it hides the error, clears the previous watch and starts a
        fresh one. */
    method StartWatch()
      requires Valid()
      modifies this
      ensures Valid()
      ensures !hasGeolocation ==> error == Some("positionUnavailable") && watchId == None && live == old(live) && nextId == old(nextId)
      ensures hasGeolocation ==> error == None && watchId == Some(old(nextId)) && live == {old(nextId)} && nextId == old(nextId) + 1
      ensures old(watchId).Some? ==> old(watchId).value !in live
      ensures latestPosition == old(latestPosition)
    {
      if !hasGeolocation {
        error := Some("positionUnavailable");
        return;
      }
      error := None;
      StopWatch();
      watchId := Some(nextId);
      live := live + {nextId};
      nextId := nextId + 1;
    }

    /** `handlePosition(position)`: keep the reading and hide the error. */
    method HandlePosition(position: Position)
      requires Valid()
      modifies this
      ensures Valid()
      ensures latestPosition == Some(position) && error == None
      ensures watchId == old(watchId) && live == old(live) && nextId == old(nextId)
    {
      latestPosition := Some(position);
      error := None;
    }

    /** `handleError(error)`: drop the reading, show the error's key, and stop
        watching only when permission was denied. */
    method HandleError(code: Number)
      requires Valid()
      modifies this
      ensures Valid()
      ensures latestPosition == None && error == Some(ErrorKey(code))
      ensures code == Num(1.0) ==> watchId == None && live == {}
      ensures code != Num(1.0) ==> watchId == old(watchId) && live == old(live)
      ensures nextId == old(nextId)
    {
      latestPosition := None;
      var key := ErrorKey(code);
      if key == "permissionDenied" {
        StopWatch();
      }
      error := Some(key);
    }

    /** The `visibilitychange` handler: stop when hidden, restart when shown. */
    method OnVisibilityChange(hidden: bool)
      requires Valid()
      modifies this
      ensures Valid()
      ensures hidden ==> watchId == None && live == {} && error == old(error) && nextId == old(nextId)
      ensures !hidden && hasGeolocation ==>
        watchId == Some(old(nextId)) && live == {old(nextId)} && error == None && nextId == old(nextId) + 1
      ensures !hidden && !hasGeolocation ==>
        watchId == None && live == old(live) && error == Some("positionUnavailable") && nextId == old(nextId)
      ensures latestPosition == old(latestPosition)
    {
      if hidden {
        StopWatch();
      } else {
        StartWatch();
      }
    }
  }
}
