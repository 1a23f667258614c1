/**
  The page script of the other variant (app.js): the padding helpers and the
  reading formatters with their translated units, the hemisphere keys of
  `updateDisplay`, the settings record merged over its defaults, and the page
  state (settings, theme, menu, status message and geolocation watch) that
  the handlers change.
 */
module App {
  import opened JsTypes
  import opened Text
  import opened Sexagesimal
  import HashedApp
  import I18n

  // ---- padding and formatDMS ----

  /** `pad(value)`: `String(value).padStart(2, '0')`. */
  function Pad(value: int): (r: string)
    ensures |r| >= 2
  {
    PadStart(IntToString(value), 2, '0')
  }

  /** `padDegrees(value)`: values of 100 and more unpadded, others through `pad`.
      The contract only names the branch; what each branch yields is fixed by
      the contracts of IntToString and PadStart, and PadDegreesIsPad relates
      the two. */
  function PadDegrees(value: int): (r: string)
    ensures value >= 100 ==> r == IntToString(value)
    ensures value < 100 ==> r == Pad(value)
  {
    if value >= 100 then IntToString(value) else Pad(value)
  }

  /** For a whole number of degrees the special case changes nothing:
      `padStart(2, '0')` already leaves three or more digits alone. */
  lemma PadDegreesIsPad(value: nat)
    ensures PadDegrees(value) == Pad(value) == HashedApp.WholeField(value)
  {
    NatToStringLength(value);
  }

  /** The local steps of `formatDMS` on |value|: seconds rounded through
      `Number(seconds.toFixed(2))`, which for a non-negative number is
      round(seconds * 100) / 100; then a carry taken only when the seconds are
      exactly 60, with the minute carry nested inside it. */
  function DmsSteps(absolute: real): (int, int, real)
  {
    var degrees := absolute.Floor;
    var minutesFloat := (absolute - degrees as real) * 60.0;
    var minutes := minutesFloat.Floor;
    var seconds := (minutesFloat - minutes as real) * 60.0;
    var rounded := JsRound(seconds * 100.0) as real / 100.0;
    if rounded == 60.0 then
      if minutes + 1 == 60 then (degrees + 1, 0, 0.0) else (degrees, minutes + 1, 0.0)
    else (degrees, minutes, rounded)
  }

  /** `formatDMS(value)`: its value is characterised by FormatDMSAgrees and
      FormatDMSReadBack. */
  function FormatDMS(value: Number): (r: string)
    ensures !value.Num? ==> r == "-"
    ensures value.Num? ==> r != "-"
  {
    if !value.Num? then "-"
    else
      var (d, m, s) := DmsSteps(Abs(value.value));
      Template(PadDegrees(d), Pad(m), SecondsField(s))
  }

  /** The carry with `=== 60` and the carry with `>= 60` agree: rounded seconds
      never exceed 60 and minutes before the carry never exceed 59. */
  lemma DmsStepsAgree(absolute: real)
    requires absolute >= 0.0
    ensures DmsSteps(absolute) == HashedApp.DmsSteps(absolute)
  {
    var degrees := absolute.Floor;
    var minutesFloat := (absolute - degrees as real) * 60.0;
    var minutes := minutesFloat.Floor;
    var seconds := (minutesFloat - minutes as real) * 60.0;
    assert 0 <= minutes < 60;
    assert 0.0 <= seconds < 60.0;
    var n := JsRound(seconds * 100.0);
    assert 0 <= n <= 6000;
    assert (n as real / 100.0 >= 60.0) == (n as real / 100.0 == 60.0);
  }

  /** Over exact reals both builds format every value identically (their
      different rounding of the seconds is compared on reals, not doubles). */
  lemma FormatDMSAgrees(value: Number)
    ensures FormatDMS(value) == HashedApp.FormatDMS(value)
  {
    if value.Num? {
      var a := Abs(value.value);
      DmsStepsAgree(a);
      HashedApp.DmsStepsDecompose(a);
      var (d, m, s) := DmsSteps(a);
      assert d >= 0 && m >= 0;
      PadDegreesIsPad(d);
      PadDegreesIsPad(m);
    }
  }

  /** Read back, the output carries minutes and seconds below 60 and the
      rounded angle, as for the hashed build. */
  lemma FormatDMSReadBack(x: real)
    ensures var p := Decompose(RoundedCentiseconds(x));
            && ReadDms(FormatDMS(Num(x))) == Some(p)
            && -1.0 / 720000.0 < Total(p) as real / 360000.0 - Abs(x) <= 1.0 / 720000.0
  {
    FormatDMSAgrees(Num(x));
    HashedApp.FormatDMSReadBack(x);
  }

  // ---- formatters with translated units ----

  /** The unit text: `I18N.t(key)` as text content. */
  function Unit(lang: string, key: string): string
  {
    I18n.TextContent(I18n.T(lang, key))
  }

  /** `formatAltitude(value)`. */
  function FormatAltitude(value: Number, lang: string): (r: string)
    ensures !value.Num? <==> r == "- " + Unit(lang, "units.meter")
    ensures value.Num? ==> r == ToFixed2(value.value) + " " + Unit(lang, "units.meter")
  {
    var unit := Unit(lang, "units.meter");
    if value.Num? then
      ToFixed2Lead(value.value);
      ToFixed2(value.value) + " " + unit
    else "- " + unit
  }

  /** An altitude is shown as a '-' below zero, then round(100 * |alt|)
      hundredths, within half a centimetre, followed by the metre unit, which
      is 'm' in both languages. */
  lemma AltitudeReadsBack(x: real, lang: string)
    requires lang in I18n.Dictionaries
    ensures var n := JsRound(Abs(x) * 100.0);
            && FormatAltitude(Num(x), lang) == (if x < 0.0 then "-" else "") + NatToString(n / 100) + "." + TwoDigits(n % 100) + " m"
            && -0.005 < n as real / 100.0 - Abs(x) <= 0.005
  {
    ToFixed2ReadsSigned(x);
    UnitsTranslated(lang, "meter");
    assert "units." + "meter" == "units.meter";
  }

  /** `settings.speedUnit === 'ms' ? 'units.ms' : 'units.kmh'`. */
  function SpeedUnitKey(speedUnit: JsonValue): (key: string)
    ensures key == "units.ms" <==> speedUnit == JString("ms")
    ensures key == "units.kmh" <==> speedUnit != JString("ms")
  {
    if speedUnit == JString("ms") then "units.ms" else "units.kmh"
  }

  /** `formatSpeed(speed)`: metres per second for 'ms', otherwise the value
      times 3.6 under the km/h unit; `- <unit>` without a number. The contract
      names the branch; the text of each part is fixed by the contracts of
      ToFixed2 (with ToFixed2Reads) and UnitsTranslated. */
  function FormatSpeed(speed: Number, speedUnit: JsonValue, lang: string): (r: string)
    ensures speed.Num? && speedUnit == JString("ms") ==> r == ToFixed2(speed.value) + " " + Unit(lang, "units.ms")
    ensures speed.Num? && speedUnit != JString("ms") ==> r == ToFixed2(speed.value * 3.6) + " " + Unit(lang, "units.kmh")
    ensures !speed.Num? ==> r == "- " + Unit(lang, SpeedUnitKey(speedUnit))
  {
    var key := SpeedUnitKey(speedUnit);
    if !speed.Num? then "- " + Unit(lang, key)
    else if key == "units.ms" then ToFixed2(speed.value) + " " + Unit(lang, "units.ms")
    else ToFixed2(speed.value * 3.6) + " " + Unit(lang, "units.kmh")
  }

  /** `formatAccuracy(accuracy)`: `± <rounded> <unit>`, or `± - <unit>`; the
      text between the sign and the unit is exactly the rounded value's
      decimal digits, which parse back to it. */
  function FormatAccuracy(accuracy: Number, lang: string): (r: string)
    ensures !accuracy.Num? ==> r == "± - " + Unit(lang, "units.meter")
    ensures accuracy.Num? ==>
      var unit := Unit(lang, "units.meter");
      && |r| >= 3 + |unit| && r[..2] == "± "
      && r[|r| - |unit| - 1..] == " " + unit
      && r[2..|r| - |unit| - 1] == IntToString(JsRound(accuracy.value))
      && ParseInt(r[2..|r| - |unit| - 1]) == Some(JsRound(accuracy.value))
  {
    var unit := Unit(lang, "units.meter");
    if accuracy.Num? then
      var digits := IntToString(JsRound(accuracy.value));
      ParseIntRoundTrip(JsRound(accuracy.value));
      var r := "± " + digits + (" " + unit);
      assert r == "± " + digits + " " + unit;
      assert r[2..|r| - |unit| - 1] == digits;
      r
    else "± - " + unit
  }

  /** Every unit key is translated, to the same text in both languages:
      'm', 'km/h' and 'm/s'. */
  lemma UnitsTranslated(lang: string, name: string)
    requires lang in I18n.Dictionaries && name in I18n.Units.entries
    ensures I18n.Units.entries[name].Leaf?
    ensures Unit(lang, "units." + name) == I18n.Units.entries[name].text
    ensures name == "meter" ==> Unit(lang, "units." + name) == "m"
  {
    assert name == "kmh" || name == "ms" || name == "meter";
    assert '.' !in name;
    assert "units." + name == "units" + "." + name;
    UnitAt(lang, "units." + name, name, I18n.Units.entries[name].text);
  }

  lemma UnitAt(lang: string, key: string, name: string, text: string)
    requires lang in I18n.Dictionaries
    requires key == "units" + "." + name && '.' !in name
    requires name in I18n.Units.entries && I18n.Units.entries[name] == I18n.Leaf(text)
    ensures Unit(lang, key) == text
  {
    var v := I18n.Leaf(text);
    var dict := I18n.Dictionaries[lang];
    assert dict == I18n.Zh || dict == I18n.En;
    assert dict.Table? && "units" in dict.entries && dict.entries["units"] == I18n.Units;
    I18n.TwoLevels(dict, key, "units", name, v);
    assert I18n.DictionaryOf(lang) == Some(dict);
  }

  // ---- updateDisplay ----

  /** The dictionary key of the hemisphere shown for a coordinate that is a
      number (NaN included): east or north exactly when the value is >= 0. */
  function HemisphereKey(value: Number, axis: string): (key: string)
    requires value.Num? || value.NaN?
    ensures value.Num? && value.value >= 0.0 ==> key == (if axis == "lon" then "hemisphere.lonEast" else "hemisphere.latNorth")
    ensures !(value.Num? && value.value >= 0.0) ==> key == (if axis == "lon" then "hemisphere.lonWest" else "hemisphere.latSouth")
  {
    var nonNegative := value.Num? && value.value >= 0.0;
    if axis == "lon" then (if nonNegative then "hemisphere.lonEast" else "hemisphere.lonWest")
    else (if nonNegative then "hemisphere.latNorth" else "hemisphere.latSouth")
  }

  /** The texts `updateDisplay` writes (the timestamp is not part of this model). */
  datatype Display = Display(
    lonHemisphere: string, lonDms: string, latHemisphere: string, latDms: string,
    altitude: string, speed: string, accuracy: string)

  /** The coordinate texts: a hemisphere and the DMS text when the coordinate
      is of type number, '-' twice otherwise. The parts are specified by
      HemisphereKey and by FormatDMSReadBack. */
  function Coordinate(value: Number, axis: string, lang: string): (r: (string, string))
    ensures value.NonNumber? ==> r == ("-", "-")
    ensures !value.NonNumber? ==> r == (I18n.TextContent(I18n.T(lang, HemisphereKey(value, axis))), FormatDMS(value))
  {
    if value.NonNumber? then ("-", "-")
    else (I18n.TextContent(I18n.T(lang, HemisphereKey(value, axis))), FormatDMS(value))
  }

  /** `updateDisplay()` for the last reading, the speed-unit setting and the language. */
  function UpdateDisplay(last: Option<Position>, speedUnit: JsonValue, lang: string): (d: Display)
    ensures last.None? ==>
      && d.lonDms == "-" && d.latDms == "-" && d.lonHemisphere == "-" && d.latHemisphere == "-"
      && d.altitude == "- " + Unit(lang, "units.meter") && d.accuracy == "± - " + Unit(lang, "units.meter")
      && d.speed == "- " + Unit(lang, SpeedUnitKey(speedUnit))
    ensures last.Some? ==>
      var c := last.value.coords;
      && (d.lonHemisphere, d.lonDms) == Coordinate(c.longitude, "lon", lang)
      && (d.latHemisphere, d.latDms) == Coordinate(c.latitude, "lat", lang)
      && d.altitude == FormatAltitude(c.altitude, lang) && d.speed == FormatSpeed(c.speed, speedUnit, lang)
      && d.accuracy == FormatAccuracy(c.accuracy, lang)
  {
    var coords := if last.Some? then last.value.coords else Coords(NonNumber, NonNumber, NonNumber, NonNumber, NonNumber);
    var (lonH, lonD) := Coordinate(coords.longitude, "lon", lang);
    var (latH, latD) := Coordinate(coords.latitude, "lat", lang);
    Display(lonH, lonD, latH, latD,
      FormatAltitude(coords.altitude, lang), FormatSpeed(coords.speed, speedUnit, lang),
      FormatAccuracy(coords.accuracy, lang))
  }

  /** A NaN longitude is a number, so it shows the western hemisphere beside a
      '-' for the angle. */
  lemma NaNLongitudeShowsWest(p: Position, speedUnit: JsonValue)
    requires p.coords.longitude.NaN?
    ensures UpdateDisplay(Some(p), speedUnit, "en").lonHemisphere == "W"
    ensures UpdateDisplay(Some(p), speedUnit, "en").lonDms == "-"
  {
    WestInEnglish();
  }

  lemma WestInEnglish()
    ensures I18n.T("en", "hemisphere.lonWest") == I18n.Leaf("W")
  {
    assert "hemisphere" in I18n.En.entries && I18n.En.entries["hemisphere"] == I18n.EnHemisphere;
    I18n.TwoLevels(I18n.En, "hemisphere.lonWest", "hemisphere", "lonWest", I18n.Leaf("W"));
    assert I18n.DictionaryOf("en") == Some(I18n.En);
  }

  // ---- settings ----

  const DefaultSettings: map<string, JsonValue> := map[
    "showDetails" := JBool(true),
    "showSpeed" := JBool(true),
    "speedUnit" := JString("kmh"),
    "theme" := JNull
  ]

  /** The outcome of `JSON.parse(raw)`: a syntax error, or a value whose own
      enumerable properties the object spread copies (none for null, booleans
      and numbers; the fields of an object). */
  datatype Parsed = SyntaxError | Parsed(ownProperties: map<string, JsonValue>)

  /** `loadSettings()`: the defaults when nothing is stored or the stored text
      does not parse; otherwise the defaults with every stored property over them. */
  function LoadSettings(raw: Option<string>, parsed: Parsed): (s: map<string, JsonValue>)
    ensures !TruthyString(raw) || parsed.SyntaxError? ==> s == DefaultSettings
    ensures TruthyString(raw) && parsed.Parsed? ==>
      && (forall k :: k in s <==> k in DefaultSettings || k in parsed.ownProperties)
      && (forall k :: k in parsed.ownProperties ==> s[k] == parsed.ownProperties[k])
      && (forall k :: k in DefaultSettings && k !in parsed.ownProperties ==> s[k] == DefaultSettings[k])
  {
    if !TruthyString(raw) then DefaultSettings
    else match parsed
      case SyntaxError => DefaultSettings
      case Parsed(props) => DefaultSettings + props
  }

  /** Loaded settings always carry the four default fields. */
  lemma LoadedSettingsComplete(raw: Option<string>, parsed: Parsed)
    ensures DefaultSettings.Keys <= LoadSettings(raw, parsed).Keys
  {
  }

  /** `applyTheme`'s normalisation: 'dark' stays, anything else is 'light'. */
  function AppliedTheme(theme: JsonValue): (applied: string)
    ensures applied == "dark" <==> theme == JString("dark")
    ensures applied == "light" <==> theme != JString("dark")
  {
    if theme == JString("dark") then "dark" else "light"
  }

  /** The applied theme, stored and applied again, is unchanged. */
  lemma AppliedThemeStable(theme: JsonValue)
    ensures AppliedTheme(JString(AppliedTheme(theme))) == AppliedTheme(theme)
  {
  }

  /** The error codes of a `GeolocationPositionError` and the status key `onError` shows. */
  function StatusKeyOf(code: Number): (key: string)
    ensures key == "statusPermissionDenied" <==> code == Num(1.0)
    ensures key == "statusPositionUnavailable" <==> code == Num(2.0)
    ensures key == "statusTimeout" <==> code == Num(3.0)
    ensures key == "statusUnknownError" <==> !(code == Num(1.0) || code == Num(2.0) || code == Num(3.0))
  {
    if code == Num(1.0) then "statusPermissionDenied"
    else if code == Num(2.0) then "statusPositionUnavailable"
    else if code == Num(3.0) then "statusTimeout"
    else "statusUnknownError"
  }

  /** The page state: the settings and what was last saved of them, the
      applied theme, the menu flag, the status key and retry flag with the
      text and visibility they produced, the watch id, the last reading and
      the provider's live watches. */
  class Page {
    const hasGeolocation: bool
    var settings: map<string, JsonValue>
    /** What `localStorage` holds under 'vista-settings', as last written. */
    var saved: Option<map<string, JsonValue>>
    var dataTheme: Option<string>
    var menuOpen: bool
    var statusKey: Option<string>
    var statusRetry: bool
    var statusText: string
    var statusHidden: bool
    var retryHidden: bool
    var watchId: Option<nat>
    var lastPosition: Option<Position>
    var live: set<nat>
    var nextId: nat

    /** At most one watch is live, it is the one `watchId` holds, and the
        settings keep their default fields. */
    ghost predicate Valid()
      reads this
    {
      && (watchId.None? ==> live == {})
      && (watchId.Some? ==> live == {watchId.value} && watchId.value < nextId)
      && (!hasGeolocation ==> watchId.None?)
      && DefaultSettings.Keys <= settings.Keys
    }

    /** The script's module variables before `init`. */
    constructor(geolocation: bool)
      ensures Valid()
      ensures hasGeolocation == geolocation && settings == DefaultSettings && saved == None
      ensures menuOpen == false && statusKey == None && statusRetry == false
      ensures dataTheme == None && statusText == "" && statusHidden && retryHidden
      ensures watchId == None && lastPosition == None && live == {} && nextId == 0
    {
      hasGeolocation := geolocation;
      settings := DefaultSettings;
      saved := None;
      dataTheme := None;
      menuOpen := false;
      statusKey := None;
      statusRetry := false;
      statusText := "";
      statusHidden := true;
      retryHidden := true;
      watchId := None;
      lastPosition := None;
      live := {};
      nextId := 0;
    }

    /** The settings, what was saved of them and the applied theme are as before. */
    twostate predicate ThemeKept()
      reads this
    {
      settings == old(settings) && saved == old(saved) && dataTheme == old(dataTheme)
    }

    /** The status key, retry flag, text and visibility are as before. */
    twostate predicate StatusKept()
      reads this
    {
      && statusKey == old(statusKey) && statusRetry == old(statusRetry)
      && statusText == old(statusText) && statusHidden == old(statusHidden) && retryHidden == old(retryHidden)
    }

    /** The watch id, the provider's live watches and its id counter are as before. */
    twostate predicate WatchKept()
      reads this
    {
      watchId == old(watchId) && live == old(live) && nextId == old(nextId)
    }

    /** `applyTheme(theme, persist)`: normalise, record in the settings, and
        save them when asked. */
    method ApplyTheme(theme: JsonValue, persist: bool)
      requires Valid()
      modifies this
      ensures Valid()
      ensures dataTheme == Some(AppliedTheme(theme))
      ensures settings == old(settings)["theme" := JString(AppliedTheme(theme))]
      ensures persist ==> saved == Some(settings)
      ensures !persist ==> saved == old(saved)
      ensures StatusKept() && WatchKept() && menuOpen == old(menuOpen) && lastPosition == old(lastPosition)
    {
      var applied := AppliedTheme(theme);
      dataTheme := Some(applied);
      settings := settings["theme" := JString(applied)];
      if persist {
        saved := Some(settings);
      }
    }

    /** `toggleMenu(open)`: a boolean argument sets the flag, anything else flips it. */
    method ToggleMenu(open: Option<bool>)
      requires Valid()
      modifies this
      ensures Valid()
      ensures open.Some? ==> menuOpen == open.value
      ensures open.None? ==> menuOpen == !old(menuOpen)
      ensures ThemeKept() && StatusKept() && WatchKept() && lastPosition == old(lastPosition)
    {
      menuOpen := if open.Some? then open.value else !menuOpen;
    }

    /** `showStatus(key, allowRetry)`: remember both, show the translated text,
        and show the retry button only when retry is allowed. */
    method ShowStatus(key: string, allowRetry: bool, lang: string)
      modifies this
      ensures statusKey == Some(key) && statusRetry == allowRetry
      ensures statusText == I18n.TextContent(I18n.T(lang, key)) && !statusHidden && retryHidden == !allowRetry
      ensures ThemeKept() && WatchKept() && menuOpen == old(menuOpen) && lastPosition == old(lastPosition)
    {
      statusKey := Some(key);
      statusRetry := allowRetry;
      statusText := I18n.TextContent(I18n.T(lang, key));
      statusHidden := false;
      retryHidden := !allowRetry;
    }

    /** `hideStatus()`: forget the key, clear the retry flag, hide the section. */
    method HideStatus()
      modifies this
      ensures statusKey == None && !statusRetry && statusHidden
      ensures statusText == old(statusText) && retryHidden == old(retryHidden)
      ensures ThemeKept() && WatchKept() && menuOpen == old(menuOpen) && lastPosition == old(lastPosition)
    {
      statusKey := None;
      statusRetry := false;
      statusHidden := true;
    }

    /** `updateStatusLanguage()`: show the current status again, in the new
        language, with the same retry flag; nothing when there is none. */
    method UpdateStatusLanguage(lang: string)
      modifies this
      ensures !TruthyString(old(statusKey)) ==> unchanged(this)
      ensures TruthyString(old(statusKey)) ==>
        && statusKey == old(statusKey) && statusRetry == old(statusRetry)
        && statusText == I18n.TextContent(I18n.T(lang, old(statusKey).value))
        && !statusHidden && retryHidden == !old(statusRetry)
      ensures ThemeKept() && WatchKept() && menuOpen == old(menuOpen) && lastPosition == old(lastPosition)
    {
      if !TruthyString(statusKey) {
        return;
      }
      ShowStatus(statusKey.value, statusRetry, lang);
    }

    /** `stopWatch()`: clear the live watch, if any. */
    method StopWatch()
      requires Valid()
      modifies this
      ensures Valid()
      ensures watchId == None && live == {} && nextId == old(nextId)
      ensures old(watchId) == None ==> unchanged(this)
      ensures ThemeKept() && StatusKept() && menuOpen == old(menuOpen) && lastPosition == old(lastPosition)
    {
      if watchId.Some? && hasGeolocation {
        live := live - {watchId.value};
        watchId := None;
      }
    }

    /** `onPosition(position)`: keep the reading and hide the status. */
    method OnPosition(position: Position)
      requires Valid()
      modifies this
      ensures Valid()
      ensures lastPosition == Some(position)
      ensures statusKey == None && !statusRetry && statusHidden
      ensures statusText == old(statusText) && retryHidden == old(retryHidden)
      ensures ThemeKept() && WatchKept() && menuOpen == old(menuOpen)
    {
      lastPosition := Some(position);
      HideStatus();
    }

    /** `onError(error)`: stop watching only when permission was denied; every
        error shows its status with retry allowed. */
    method OnError(code: Number, lang: string)
      requires Valid()
      modifies this
      ensures Valid()
      ensures statusKey == Some(StatusKeyOf(code)) && statusRetry
      ensures statusText == I18n.TextContent(I18n.T(lang, StatusKeyOf(code))) && !statusHidden && !retryHidden
      ensures code == Num(1.0) ==> watchId == None && live == {} && nextId == old(nextId)
      ensures code != Num(1.0) ==> WatchKept()
      ensures ThemeKept() && menuOpen == old(menuOpen) && lastPosition == old(lastPosition)
    {
      var key := StatusKeyOf(code);
      if key == "statusPermissionDenied" {
        StopWatch();
      }
      ShowStatus(key, true, lang);
    }

    /** `startWatch()`: without geolocation show `statusUnsupported` (no retry);
        otherwise stop the previous watch, show `statusRequesting` (no retry)
        and start a fresh watch; if starting it throws, show
        `statusUnknownError` with retry and leave no watch. */
    method StartWatch(watchThrows: bool, lang: string)
      requires Valid()
      modifies this
      ensures Valid()
      ensures !hasGeolocation ==>
        && statusKey == Some("statusUnsupported") && !statusRetry
        && statusText == I18n.TextContent(I18n.T(lang, "statusUnsupported")) && !statusHidden && retryHidden
        && WatchKept() && watchId == None
      ensures hasGeolocation && !watchThrows ==>
        && statusKey == Some("statusRequesting") && !statusRetry
        && statusText == I18n.TextContent(I18n.T(lang, "statusRequesting")) && !statusHidden && retryHidden
        && watchId == Some(old(nextId)) && live == {old(nextId)} && nextId == old(nextId) + 1
      ensures hasGeolocation && watchThrows ==>
        && statusKey == Some("statusUnknownError") && statusRetry
        && statusText == I18n.TextContent(I18n.T(lang, "statusUnknownError")) && !statusHidden && !retryHidden
        && watchId == None && live == {} && nextId == old(nextId)
      ensures old(watchId).Some? ==> old(watchId).value !in live
      ensures ThemeKept() && menuOpen == old(menuOpen) && lastPosition == old(lastPosition)
    {
      if !hasGeolocation {
        ShowStatus("statusUnsupported", false, lang);
      } else {
        StopWatch();
        ShowStatus("statusRequesting", false, lang);
        if watchThrows {
          ShowStatus("statusUnknownError", true, lang);
        } else {
          Watch();
        }
      }
    }

    /** `navigator.geolocation.watchPosition(...)` returning a fresh id. */
    method Watch()
      requires Valid() && watchId.None? && hasGeolocation
      modifies this
      ensures Valid()
      ensures watchId == Some(old(nextId)) && live == {old(nextId)} && nextId == old(nextId) + 1
      ensures ThemeKept() && StatusKept() && menuOpen == old(menuOpen) && lastPosition == old(lastPosition)
    {
      watchId := Some(nextId);
      live := live + {nextId};
      nextId := nextId + 1;
    }

    /** The settings part of `init()`: load the settings, apply the stored
        theme (saving it back, normalised) or the system one (not saved). */
    method InitSettings(raw: Option<string>, parsed: Parsed, prefersDark: bool)
      requires Valid()
      modifies this
      ensures Valid()
      ensures var loaded := LoadSettings(raw, parsed);
              var stored := loaded["theme"];
              && (Truthy(stored) ==> dataTheme == Some(AppliedTheme(stored)) && saved == Some(settings))
              && (!Truthy(stored) ==> dataTheme == Some(if prefersDark then "dark" else "light") && saved == old(saved))
              && settings == loaded["theme" := JString(dataTheme.value)]
    ensures StatusKept() && WatchKept() && menuOpen == old(menuOpen) && lastPosition == old(lastPosition)
    {
      settings := LoadSettings(raw, parsed);
      var stored := settings["theme"];
      var theme := if Truthy(stored) then stored else JString(if prefersDark then "dark" else "light");
      ApplyTheme(theme, Truthy(stored));
    }
  }
}
