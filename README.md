# Vista geolocation page — a Dafny model

Vista is a single-page geolocation display. It shows the device's longitude
and latitude in degree-minute-second form (`dd°mm′ss.ss″`). It also shows
altitude, speed and accuracy with their units, in Chinese or English, and it
works offline through a service worker. The repository holds two generations
of the page script:

- the hashed build, `app.917f27ba.js` with `i18n.48418e7b.js`, which the
  service worker caches;
- the other variant, `app.js` with `i18n.js`.

This project models the logic of both generations and of `sw.js`, each file on
its own terms. Pure logic is modelled as functions and lemmas. This covers
the formatters, the dictionary lookups, the preference decoding and the
fetch-routing decision. Mutable state is modelled as classes with
`modifies`/`reads` frames. This covers:

- the geolocation watch;
- the status message;
- the page settings;
- the language and its listener set;
- the service worker's cache storage.

Modules:

- `JsTypes`: the JavaScript values the page reads. These are options, numbers
  that may be absent or NaN, JSON values, truthiness and `Math.round`.
- `Text`: the string built-ins used by the page. These are `String(n)`,
  `padStart`, `toFixed(2)`, `parseInt`, `split`/`join` and whitespace
  tokenising.
- `Sexagesimal`: the shared reference for DMS output. An angle rounded to
  hundredths of an arc second is a whole number N. Its normal form is the
  decomposition of N into degrees, minutes and hundredths. This module also
  defines the canonical text of that form and a reader for it.
- `HashedApp` and `HashedI18n`: the hashed build.
- `App` and `I18n`: the other variant.
- `ServiceWorker`: `sw.js`.

Numbers are exact reals. `Math.round(x)` is ⌊x + ½⌋, and `toFixed(2)` follows
the ECMAScript algorithm on the exact value. A value that is not of type
number, and NaN, are explicit constructors of `Number`.

The central property is that, over exact reals, both builds' `formatDMS` emit the canonical text
of the decomposition of round(|x|·360000). Reading that text back gives the
normal form, whose minutes and seconds are below 60. That form is within half
a hundredth of an arc second of |x|. Over exact reals the two builds agree on
every input; over IEEE-754 doubles they can differ (see "## Left out").

## Model

| member | source | states |
|---|---|---|
| JsTypes.JsRound | app.917f27ba.js:129 | `Math.round` rounds to the nearest integer, with halves rounded up: x − ½ < r ≤ x + ½ |
| JsTypes.Abs | app.917f27ba.js:124 | `Math.abs` gives a non-negative value equal to x or −x |
| Text.IntToString | app.js:106 | `String(n)` for an integer: the decimal digits, with a leading '-' for a negative value |
| Text.NatToStringValue | app.917f27ba.js:132 | the decimal digits of n read back as n |
| Text.PadStart | app.js:106 | `padStart(width, fill)`: the result has length max(\|s\|, width), ends with s and is filled on the left |
| Text.TwoDigits | app.917f27ba.js:133 | a number below 100 written as exactly two digits whose value is the number |
| Text.ToFixed2 | app.js:137 | `toFixed(2)`: the value rounded to hundredths, with the integer part, a point and two decimals, and '-' for a negative value |
| Text.ToFixed2Reads | app.917f27ba.js:137 | for x ≥ 0, `toFixed(2)` is the digits of round(100x) with a point before the last two |
| Text.ToFixed2ReadsSigned | app.917f27ba.js:137 | for any x, `toFixed(2)` is a minus sign when x < 0, then the digits of round(100·abs(x)) with a point before the last two |
| Text.ToFixed2OfHundredths | app.917f27ba.js:134 | `toFixed(2)` of k/100 is the integer part of k, a point and two digits of k mod 100 |
| Text.ParseIntRoundTrip | app.917f27ba.js:247 | `parseInt(String(n))` gives n back for every integer |
| Text.SplitJoin | i18n.js:98 | `split` undoes `join` on parts that do not contain the separator |
| Text.TokensJoinSpaces | app.917f27ba.js:99 | `split(/\s+/).filter(Boolean)` of space-joined tokens gives the tokens back |
| Sexagesimal.RoundedCentiseconds | app.917f27ba.js:124-129 | round(\|x\|·360000) is within ½ of \|x\|·360000 |
| Sexagesimal.Decompose | app.917f27ba.js:125-131 | the D/M/S split of a count of hundredths of an arc second is normal (minutes < 60, seconds < 60.00) and totals the count |
| Sexagesimal.DecomposeUnique | app.917f27ba.js:129-131 | a normal triple is the decomposition of its own total |
| Sexagesimal.DecomposeApproximates | app.917f27ba.js:125-131 | the rounded decomposition is within 1/720000 degree of \|x\| |
| Sexagesimal.SecondsText | app.917f27ba.js:134 | the canonical seconds field has exactly 5 characters |
| Sexagesimal.SecondsFieldOf | app.917f27ba.js:134 | `s.toFixed(2).padStart(5,'0')` of hundredths below 60″ is the canonical seconds field |
| Sexagesimal.ReadDmsText | app.917f27ba.js:132-135 | reading the canonical `dd°mm′ss.ss″` text gives back the triple it renders |
| HashedApp.FormatDMS | app.917f27ba.js:122-123 | '-' exactly for a non-number or NaN input |
| HashedApp.DmsStepsDecompose | app.917f27ba.js:124-131 | the carried degrees, minutes and seconds are exactly the decomposition of round(\|x\|·360000) |
| HashedApp.FormatDMSCanonical | app.917f27ba.js:122-135 | `formatDMS(x)` is the canonical text of that decomposition |
| HashedApp.RenderNormal | app.917f27ba.js:132-135 | the template filled with the degrees and minutes of a normal decomposition, and a seconds value whose field is canonical, is the canonical text |
| HashedApp.FormatDMSOfAbs | app.917f27ba.js:123-124 | two numbers of equal absolute value format alike |
| HashedApp.MinutesFieldOf | app.917f27ba.js:133 | `String(m).padStart(2,'0')` of minutes below 60 is exactly two digits |
| HashedApp.FormatDMSReadBack | app.917f27ba.js:122-135 | the output reads back as the normal form of the rounded angle, whose minutes and seconds are below 60, within 1/720000 degree of \|x\| |
| HashedApp.FormatDMSSymmetric | app.917f27ba.js:124 | formatDMS(x) = formatDMS(−x) |
| HashedApp.FormatAltitude | app.917f27ba.js:137 | '- m' exactly without a number, otherwise `toFixed(2)` of the altitude; the result always ends in ' m' |
| HashedApp.AltitudeReadsBack | app.917f27ba.js:137 | any altitude shows '-' when negative, then round(100·abs(alt))/100 with two decimals, then ' m' |
| HashedApp.SpeedUnit | app.917f27ba.js:139 | the stored unit when it is a non-empty string, otherwise 'kmh' |
| HashedApp.FormatSpeed | app.917f27ba.js:138-144 | ends in ' km/h' for the 'kmh' unit and ' m/s' for any other; the result is a '- ' sentinel exactly without a number |
| HashedApp.SpeedReadsBack | app.917f27ba.js:141 | in km/h the number shown is round(360·v)/100 |
| HashedApp.SpeedReadsBackMetres | app.917f27ba.js:141 | with any other stored unit the speed is `toFixed(2)` of the value plus ' m/s'; a non-negative one shows round(100·v)/100 |
| HashedApp.FormatAccuracy | app.917f27ba.js:153 | '-' exactly without a number; otherwise '± ', then exactly the decimal digits of the rounded accuracy (which parse back to it), then ' m' |
| HashedApp.GetDict | app.917f27ba.js:156-161 | the key itself without dictionaries; any other result is the dictionary's entry |
| HashedApp.GetDictKnown | app.917f27ba.js:156-161 | a key both dictionaries know gives the dictionary's entry |
| HashedApp.HemisphereKey | app.917f27ba.js:164-166 | 'longitudeEast', 'longitudeWest', 'latitudeNorth' or 'latitudeSouth' by axis and by whether the value is ≥ 0 (0 included); the key is translated |
| HashedApp.Hemisphere | app.917f27ba.js:162-168 | '-' for a non-number or NaN, otherwise the dictionary text of the key |
| HashedApp.HemisphereAtZero | app.917f27ba.js:164-166 | 0 is east and north, e.g. 'East' in English |
| HashedApp.BracketText | app.917f27ba.js:169-170 | '-' when the hemisphere text is empty or '-', the hemisphere text otherwise |
| HashedApp.LabelZh | app.917f27ba.js:169 | the base followed by the hemisphere in full-width brackets |
| HashedApp.LabelEn | app.917f27ba.js:170 | the base followed by the hemisphere in round brackets |
| HashedApp.CoordLabel | app.917f27ba.js:172-176 | the Chinese label for 'zh', the English label otherwise |
| HashedApp.RenderReadings | app.917f27ba.js:178-214 | without a position every reading shows its sentinel (speed '- km/h' or '- m/s' by the stored unit) and every label brackets '-'; with one, each reading is its formatter applied to the coordinate and each label brackets the hemisphere text in its language |
| HashedApp.ReadingWithoutNumbers | app.917f27ba.js:178-214 | a position without any number renders like no position at all |
| HashedApp.ResolvePreferredTheme | app.917f27ba.js:85-89 | a stored 'light' or 'dark' wins; otherwise 'dark' exactly when the system prefers dark |
| HashedApp.NextTheme | app.917f27ba.js:91 | `theme \|\| resolvePreferredTheme()` |
| HashedApp.ThemeSurvivesReload | app.917f27ba.js:90-93 | the theme applied and stored is resolved again on the next load, whatever the system then prefers |
| HashedApp.ModuleShown | app.917f27ba.js:105-106 | a module is hidden exactly when its stored flag is 'false' |
| HashedApp.FlagRoundTrip | app.917f27ba.js:239-240 | a toggle's stored flag decodes back to its checked state |
| HashedApp.ModuleListedJoin | app.917f27ba.js:99-100 | an element lists a module exactly when its name is among the space-separated names |
| HashedApp.Toggled | app.917f27ba.js:99-101 | a listed element gets `hidden` = ¬visible; an unlisted one is unchanged |
| HashedApp.ToggleModule | app.917f27ba.js:97-103 | every element is toggled, and nothing else changes |
| HashedApp.ApplyModuleVisibility | app.917f27ba.js:104-112 | timestamp and accuracy follow the details flag, then speed follows the speed flag |
| HashedApp.SliderValue | app.917f27ba.js:247-249 | the parsed integer, or the slider's default when the preference is missing or has no digits |
| HashedApp.SliderDefaults | app.917f27ba.js:247-249 | without a usable preference the gap is 24, the value size 48 and the padding 20 |
| HashedApp.SliderRoundTrip | app.917f27ba.js:247-249 | a stored slider value is read back unchanged |
| HashedApp.ErrorKey | app.917f27ba.js:66-71 | codes 1, 2 and 3 map to permissionDenied, positionUnavailable and timeout, and only those codes do; anything else maps to unknownError |
| HashedApp.ErrorMessagesTranslated | app.917f27ba.js:216 | every error key shows the dictionary's message, never the bare key |
| HashedApp.GeoWatch.constructor | app.917f27ba.js:54-55 | no watch and no reading at load |
| HashedApp.GeoWatch.StopWatch | app.917f27ba.js:75-77 | no watch is live afterwards; a second call changes nothing |
| HashedApp.GeoWatch.StartWatch | app.917f27ba.js:78-82 | without geolocation: positionUnavailable and no watch; otherwise the error is hidden, the previous watch is cleared, and exactly one fresh watch is live |
| HashedApp.GeoWatch.HandlePosition | app.917f27ba.js:58-62 | keeps the reading and hides the error |
| HashedApp.GeoWatch.HandleError | app.917f27ba.js:63-74 | clears the reading and shows the code's key; only permission denial stops the watch |
| HashedApp.GeoWatch.OnVisibilityChange | app.917f27ba.js:266 | hidden stops the watch and keeps the error; visible restarts it with a fresh id, or shows positionUnavailable without geolocation |
| HashedI18n.DictionariesComplete | i18n.48418e7b.js:3-72 | both dictionaries have the same keys and no empty text |
| HashedI18n.Dict | i18n.48418e7b.js:98 | the current language's dictionary, or Chinese |
| HashedI18n.T | i18n.48418e7b.js:97-100 | the dictionary's text when it is non-empty, otherwise the key |
| HashedI18n.TKnownOrKey | i18n.48418e7b.js:97-100 | a known key translates in either language; an unknown key that is not an inherited object member comes back unchanged |
| HashedI18n.InitialLang | i18n.48418e7b.js:74-75 | the stored language when a dictionary exists for it, otherwise 'zh' |
| HashedI18n.Translated | i18n.48418e7b.js:82-86 | a node gets the translation when it is non-empty and is otherwise unchanged |
| HashedI18n.Notifications | i18n.48418e7b.js:87 | one call per listener, with the current language, in insertion order |
| HashedI18n.Localizer.constructor | i18n.48418e7b.js:74-77 | the initial language and an empty listener set |
| HashedI18n.Localizer.GetLang | i18n.48418e7b.js:106 | the current language, which always has a dictionary |
| HashedI18n.Localizer.OnLangChange | i18n.48418e7b.js:102 | only functions are added, each at most once |
| HashedI18n.Localizer.ApplyTranslations | i18n.48418e7b.js:79-88 | both attributes are set, every node is translated, and every listener is notified with the current language |
| HashedI18n.Localizer.TranslateNodes | i18n.48418e7b.js:82-86 | every node becomes its translated form |
| HashedI18n.Localizer.NotifyListeners | i18n.48418e7b.js:87 | the calls made are the notifications of the listener set |
| HashedI18n.Localizer.SetLang | i18n.48418e7b.js:90-95 | an unknown language changes nothing; a known one becomes current, is stored, and triggers the translation pass |
| HashedI18n.NotificationsSnoc | i18n.48418e7b.js:87 | notifying one more listener appends one call |
| I18n.Step | i18n.js:94 | over the dictionary tables: defined exactly when the value is a table holding the key as its own entry, and then it is that entry |
| I18n.ResolveFromNothing | i18n.js:93-95 | once undefined, `resolve` stays undefined |
| I18n.ResolveAppend | i18n.js:93-95 | resolving p then q is resolving p + q |
| I18n.ResolveMissingPrefix | i18n.js:93-95 | a path with a missing prefix resolves to undefined |
| I18n.T | i18n.js:97-102 | the current language's value whenever the path resolves there |
| I18n.TFallback | i18n.js:103-104 | otherwise a truthy zh value, else the en value, else the raw key; never undefined |
| I18n.EnglishEast | i18n.js:77-82 | `hemisphere.lonEast` is 'E' in English |
| I18n.ChineseEast | i18n.js:35-40 | `hemisphere.lonEast` is '东经' in Chinese |
| I18n.TwoLevels | i18n.js:98-99 | a two-segment key resolves into the nested table |
| I18n.SplitTwo | i18n.js:98 | `a.b` splits into [a, b] |
| I18n.DocumentLang | i18n.js:143 | 'zh-Hans' exactly for 'zh', 'en' otherwise |
| I18n.InitLang | i18n.js:156 | the stored language when it has a dictionary, otherwise 'zh' |
| I18n.Localizer.constructor | i18n.js:91 | `currentLang` starts as 'zh' |
| I18n.Localizer.Init | i18n.js:149-165 | the stored language is validated, set on the document and returned |
| I18n.Localizer.SetLang | i18n.js:133-147 | an unknown language becomes 'zh'; the language is current, stored, set on the document, announced and returned |
| App.Pad | app.js:105-107 | at least two characters |
| App.PadDegrees | app.js:109-111 | values ≥ 100 unpadded, others padded to width 2 |
| App.PadDegreesIsPad | app.js:109-111 | for whole degrees `padDegrees` is the same as `pad` |
| App.FormatDMS | app.js:113-116 | '-' exactly for a non-number or NaN |
| App.DmsStepsAgree | app.js:117-130 | the nested `=== 60` carries give the same triple as the hashed build's independent `>=` carries |
| App.FormatDMSAgrees | app.js:113-132 | over exact reals the two builds' `formatDMS` agree on every input |
| App.FormatDMSReadBack | app.js:113-132 | the output reads back as the rounded angle's normal form, within 1/720000 degree of \|x\| |
| App.FormatAltitude | app.js:134-140 | `- <unit>` exactly without a number, otherwise `toFixed(2)` of the altitude, a space and the unit |
| App.AltitudeReadsBack | app.js:134-140 | any altitude shows '-' when negative, then round(100·abs(alt))/100 with two decimals, then ' m' in either language |
| App.SpeedUnitKey | app.js:143 | 'units.ms' exactly for the 'ms' setting, 'units.kmh' otherwise |
| App.FormatSpeed | app.js:142-150 | m/s passes the value through, otherwise it is multiplied by 3.6; `- <unit>` without a number |
| App.FormatAccuracy | app.js:159-165 | `± - <unit>` without a number; otherwise exactly the decimal digits of the rounded value (which parse back to it) between '± ' and ' <unit>' |
| App.UnitsTranslated | app.js:135-144 | every unit key translates to 'm', 'km/h' or 'm/s' in both languages |
| App.HemisphereKey | app.js:209-218 | east or north exactly when the value is ≥ 0; NaN is west or south |
| App.Coordinate | app.js:205-224 | '-' twice for a non-number; otherwise the hemisphere text and `formatDMS` |
| App.UpdateDisplay | app.js:203-237 | without a reading both coordinates show '-' and the other readings their `- <unit>` sentinels; with one, each text is its formatter applied to that coordinate |
| App.NaNLongitudeShowsWest | app.js:205-211 | a NaN longitude shows 'W' beside a '-' angle |
| App.LoadSettings | app.js:20-30 | the defaults when nothing is stored or the text does not parse; otherwise the stored fields override their defaults and the absent ones keep them |
| App.LoadedSettingsComplete | app.js:20-30 | loaded settings always hold the four default fields |
| App.AppliedTheme | app.js:41 | 'dark' stays, anything else is 'light' |
| App.AppliedThemeStable | app.js:41 | normalising a theme that was already applied changes nothing |
| App.StatusKeyOf | app.js:254-268 | codes 1, 2 and 3 map to their own status keys; anything else maps to statusUnknownError |
| App.Page.constructor | app.js:6-12 | the module variables before `init`: default settings, nothing saved, menu closed, status hidden, no watch |
| App.Page.ApplyTheme | app.js:40-51 | the normalised theme is applied and recorded in the settings, and saved when asked; status, watch, menu and reading are unchanged |
| App.Page.ToggleMenu | app.js:66-67 | a boolean argument sets the flag; anything else flips it; every other field is unchanged |
| App.Page.ShowStatus | app.js:178-188 | remembers the key and retry flag and shows the translated text, with the retry button shown only when retry is allowed; settings, theme, menu, watch and reading are unchanged |
| App.Page.HideStatus | app.js:190-196 | resets the key to none and retry to false and hides the section; everything else is unchanged |
| App.Page.UpdateStatusLanguage | app.js:198-201 | re-shows the same key and retry flag in the new language; nothing when no status is current; settings, theme, menu, watch and reading are unchanged |
| App.Page.StopWatch | app.js:239-244 | no watch afterwards; a second call changes nothing; the id counter, settings, status, menu and reading are unchanged |
| App.Page.OnPosition | app.js:246-250 | keeps the reading and hides the status section; settings, theme, menu and watch are unchanged |
| App.Page.OnError | app.js:252-269 | only permission denial stops the watch; every error's translated text is shown with the retry button; settings, theme, menu and reading are unchanged |
| App.Page.StartWatch | app.js:271-284 | statusUnsupported without retry when geolocation is missing; otherwise the previous watch is stopped, statusRequesting is shown without retry, and one fresh watch is live, or no watch and statusUnknownError with retry if starting throws; each status is shown translated with the matching retry visibility, and settings, theme, menu and reading are unchanged |
| App.Page.Watch | app.js:279 | `watchPosition` returns a fresh id, which becomes the one live watch; nothing else changes |
| App.Page.InitSettings | app.js:402-404 | a truthy stored theme is normalised and saved back; otherwise the system theme is applied unsaved; status, menu, watch and reading are unchanged |
| ServiceWorker.StaticCacheNamesBuild | sw.js:1-2 | the cache name is 'vista-static-' followed by the build version |
| ServiceWorker.Evicted | sw.js:27-31 | only the current cache generation survives, with its contents |
| ServiceWorker.EvictedIdempotent | sw.js:23-34 | activating twice evicts nothing more |
| ServiceWorker.EvictsOlderGeneration | sw.js:29 | {v1, v2} with v2 current becomes {v2} |
| ServiceWorker.Worker.constructor | sw.js:14-58 | a worker over the existing cache storage, before any event |
| ServiceWorker.Worker.Install | sw.js:14-21 | the current cache holds every static asset, other caches are untouched, and waiting is skipped |
| ServiceWorker.Worker.Activate | sw.js:23-34 | the storage becomes its eviction, and the clients are claimed |
| ServiceWorker.Worker.OnMessage | sw.js:54-58 | waiting is skipped exactly for a `SKIP_WAITING` message |
| ServiceWorker.InstallThenActivate | sw.js:14-34 | afterwards only the current cache exists, and it holds every static asset |
| ServiceWorker.RouteAsWritten | sw.js:36-52 | non-GET passes through; navigation is network-first with the index page as fallback, for any origin; other GETs are cache-first exactly when the URL starts with the origin |
| ServiceWorker.PrefixAdmitsOtherOrigin | sw.js:47 | a URL on another host that begins with the origin's text is answered cache-first |
| ServiceWorker.Route | sw.js:36-52 | as written, except that only same-origin non-navigation GETs are cache-first and all others pass through |
| ServiceWorker.RouteRefinesAsWritten | sw.js:47 | the corrected routing differs from the written one only on such look-alike URLs |
| ServiceWorker.Respond | sw.js:41-51 | pass-through leaves the browser to answer; network-first uses the network when it succeeds; cache-first answers from the cache when the request is held there, otherwise from the network or with an error; an offline navigation gets the held index page or an error |
| ServiceWorker.Held | sw.js:42-50 | `caches.match` sees exactly the requests held by some cache |
| ServiceWorker.OfflineNavigation | sw.js:40-45 | after install and activation an offline navigation gets the cached index page |
| ServiceWorker.OnlySkipWaitingMessage | sw.js:55 | only `{type: 'SKIP_WAITING'}`, which the hashed page posts (app.917f27ba.js:281), makes the worker skip waiting |

## Left out

- DOM writes are left out: text content, attributes, class toggles, CSS variables and the sidebar animation. The model records what would be written. Examples are the status text and the node texts.
- `updateModuleVisibility` in `app.js` is left out. It only toggles CSS classes from the settings.
- `updateMenuButtonLabel` is left out. It is a DOM attribute write.
- The `applyTranslations`, `updateElement` and `updateAttr` functions of `i18n.js` are left out because they are DOM writes. `setLang` and `init` only record that the pass happens.
- The geolocation provider is an environment. It appears as a set of live watch ids and a counter for fresh ids. An exception from `watchPosition` is a parameter of `App.Page.StartWatch`.
- The browser's Cache Storage, `fetch` and promises are not part of this model. Cache entries are named by the strings the worker stores. Resolving relative URLs and `caches.match` request matching are not modelled. The network outcome is a parameter.
- `cache.addAll` is treated as always succeeding. Its all-or-nothing failure belongs to the library.
- `localStorage` is a parameter or a field, and its exceptions are not modelled. The `JSON.parse` result is a parameter: a syntax error, or the own properties it produced.
- Reading stored settings from prototype properties (`__proto__`) is not modelled.
- The Wake Lock, service-worker registration and the `controllerchange` reload are left out as browser plumbing.
- `formatTimestamp` is left out in both builds. It depends on the local timezone and on `toLocaleTimeString`.
- IEEE-754 doubles are not modelled. Arithmetic is exact over reals, and `toFixed(2)` is exact on that value. Infinity and `toFixed` of values from 1e21 up are left out.
- The branches taken when `window.I18N` is absent are left out. Both app variants load the localisation script first.
- In `app.js`, `onError` matches on the error's own `PERMISSION_DENIED`, `POSITION_UNAVAILABLE` and `TIMEOUT` constants. The model takes these as 1, 2 and 3, as on a `GeolocationPositionError`.
- The 200 ms timer that hides the menu overlay is left out. Listener re-entrancy during notification is also left out.
- In the hashed build's `i18n`, the script is loaded with the stored preference as a parameter. `DOMContentLoaded` is represented by calling `ApplyTranslations`.
- HashedI18n.InitialLang: a stored value naming an inherited property of a plain object (`toString`, `constructor`, `__proto__`, …) passes the source's `dictionaries[stored]` test at i18n.48418e7b.js:75 and becomes the language, after which `t` returns keys unchanged. The model looks up own keys only and gives 'zh' for such a value, because the functions behind inherited properties are not part of this model.
- HashedI18n.Localizer.SetLang: for the same reason, an inherited property name passed to `setLang` (i18n.48418e7b.js:91) is accepted by the source but treated as unknown by the model.
- I18n.InitLang: a stored inherited property name is kept by i18n.js:156, and the document language then becomes 'en'. The model gives 'zh', as for any name without a dictionary.
- I18n.Localizer.SetLang: an inherited property name passes the test at i18n.js:134 and becomes the language; the model replaces it with 'zh'.
- I18n.Step: a path segment is looked up only among a table's own entries. The source's `value[key]` (i18n.js:94) also reads properties of any truthy value: a string's indices and `length`, and members every object inherits. So `t("hemisphere.lonEast.length")` gives 1 and `t("hemisphere.lonEast.0")` gives 'E' in English, and `t("toString")` gives a function. In the model all three give their key, because string and function properties are not part of this model.
- App.FormatDMSAgrees: the agreement holds over exact reals only. The hashed build rounds the seconds with `Math.round(s * 100) / 100` (app.917f27ba.js:129); `app.js` uses `Number(seconds.toFixed(2))` (app.js:122). On IEEE-754 doubles these can round a seconds value that lies just below a half-hundredth differently, so the two builds may show different hundredths.
- HashedI18n.T: `dict[key] || key` (i18n.48418e7b.js:99) also finds members every object inherits (`toString`, `constructor`, `__proto__`), so `t('toString')` returns a function, not the key; the model's dictionaries hold only their own entries, so T, TKnownOrKey and Translated (whose `applyTranslations` writes that value as text, i18n.48418e7b.js:84-85) give the key back for such names. HashedApp.GetDict (app.917f27ba.js:160) has the same lookup, but its callers pass only literal keys the dictionaries define (app.917f27ba.js:167, 179-182).
- HashedApp.SliderValue: `parseInt` of a digit string beyond 2^53 precision, or one that overflows to Infinity, is not modelled. The result is always the exact integer.

## Findings

| source | as written | input that shows it | evidently intended | confidence | as-written member | corrected member |
|---|---|---|---|---|---|---|
| sw.js:47 | A non-navigation GET is treated as same-origin when its URL merely starts with the origin string. | Origin `https://vista.example` and request URL `https://vista.example.net/x.js`, which is another host. | Only requests to the worker's own origin are answered cache-first. The origin must be followed by the end of the URL, '/', '?' or '#'. | medium, not executed | ServiceWorker.PrefixAdmitsOtherOrigin | ServiceWorker.RouteRefinesAsWritten |
