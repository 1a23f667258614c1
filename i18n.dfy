/**
  The localisation script of the other variant (i18n.js): nested dictionaries
  addressed by dotted keys, `resolve` that walks a path one segment at a
  time, the lookup `t` that falls back from the current language to Chinese,
  then English, then the key itself, and the language state that `init` and
  `setLang` keep valid.
 */
module I18n {
  import opened JsTypes
  import opened Text

  const StorageKey: string := "vista-lang"

  /** A dictionary value: a string, or a table of further values. */
  datatype Entry = Leaf(text: string) | Table(entries: map<string, Entry>)

  const ZhHemisphere: Entry := Table(map["lonEast" := Leaf("东经"), "lonWest" := Leaf("西经"), "latNorth" := Leaf("北纬"), "latSouth" := Leaf("南纬")])
  const EnHemisphere: Entry := Table(map["lonEast" := Leaf("E"), "lonWest" := Leaf("W"), "latNorth" := Leaf("N"), "latSouth" := Leaf("S")])
  /** The `units` table, the same in both languages. */
  const Units: Entry := Table(map["kmh" := Leaf("km/h"), "ms" := Leaf("m/s"), "meter" := Leaf("m")])

  const Zh: Entry := Table(map[
    "appTitle" := Leaf("Vista"),
    "navBackLabel" := Leaf("返回 hey1www.github.io"),
    "navMenuLabel" := Leaf("打开设置"),
    "navCloseLabel" := Leaf("关闭设置"),
    "settingsTitle" := Leaf("设置"),
    "languageLabel" := Leaf("语言"),
    "languageZh" := Leaf("中文"),
    "languageEn" := Leaf("English"),
    "themeLabel" := Leaf("颜色模式"),
    "themeLight" := Leaf("浅色"),
    "themeDark" := Leaf("深色"),
    "detailModuleLabel" := Leaf("信息细节模块"),
    "detailModuleToggle" := Leaf("显示定位时间与精度"),
    "speedModuleLabel" := Leaf("当前速度模块"),
    "speedModuleToggle" := Leaf("显示当前速度"),
    "speedUnitLabel" := Leaf("速度单位"),
    "speedUnitKmh" := Leaf("km/h"),
    "speedUnitMs" := Leaf("m/s"),
    "altitudeLabel" := Leaf("海拔"),
    "speedLabel" := Leaf("当前速度"),
    "timestampLabel" := Leaf("定位获取时间"),
    "accuracyLabel" := Leaf("定位精度"),
    "statusRequesting" := Leaf("正在请求定位…"),
    "statusPermissionDenied" := Leaf("定位被拒绝，请在浏览器设置中授权。"),
    "statusPositionUnavailable" := Leaf("无法获取当前位置，请检查定位服务。"),
    "statusTimeout" := Leaf("定位超时，请稍后重试。"),
    "statusUnknownError" := Leaf("定位失败，请再次尝试。"),
    "statusUnsupported" := Leaf("此设备或浏览器不支持定位功能。"),
    "retry" := Leaf("重新尝试"),
    "hemisphere" := ZhHemisphere,
    "units" := Units
  ])

  const En: Entry := Table(map[
    "appTitle" := Leaf("Vista"),
    "navBackLabel" := Leaf("Back to hey1www.github.io"),
    "navMenuLabel" := Leaf("Open settings"),
    "navCloseLabel" := Leaf("Close settings"),
    "settingsTitle" := Leaf("Settings"),
    "languageLabel" := Leaf("Language"),
    "languageZh" := Leaf("中文"),
    "languageEn" := Leaf("English"),
    "themeLabel" := Leaf("Color mode"),
    "themeLight" := Leaf("Light"),
    "themeDark" := Leaf("Dark"),
    "detailModuleLabel" := Leaf("Information details"),
    "detailModuleToggle" := Leaf("Show timestamp and accuracy"),
    "speedModuleLabel" := Leaf("Current speed"),
    "speedModuleToggle" := Leaf("Show current speed"),
    "speedUnitLabel" := Leaf("Speed unit"),
    "speedUnitKmh" := Leaf("km/h"),
    "speedUnitMs" := Leaf("m/s"),
    "altitudeLabel" := Leaf("Altitude"),
    "speedLabel" := Leaf("Current speed"),
    "timestampLabel" := Leaf("Fix time"),
    "accuracyLabel" := Leaf("Accuracy"),
    "statusRequesting" := Leaf("Requesting location…"),
    "statusPermissionDenied" := Leaf("Location access denied. Please enable it in browser settings."),
    "statusPositionUnavailable" := Leaf("Current position unavailable. Check your location services."),
    "statusTimeout" := Leaf("Location request timed out. Try again shortly."),
    "statusUnknownError" := Leaf("Unable to fetch location. Please try again."),
    "statusUnsupported" := Leaf("This device or browser does not support geolocation."),
    "retry" := Leaf("Retry"),
    "hemisphere" := EnHemisphere,
    "units" := Units
  ])

  const Dictionaries: map<string, Entry> := map["zh" := Zh, "en" := En]

  /** JavaScript truthiness of a looked-up value: tables are objects, strings
      are truthy unless empty. */
  predicate EntryTruthy(e: Entry)
  {
    e.Table? || e.text != ""
  }

  /** One step of the `reduce` in `resolve`: `value && value[key] !== undefined
      ? value[key] : undefined`. */
  function Step(value: Option<Entry>, key: string): (r: Option<Entry>)
    ensures r.Some? ==> value.Some? && value.value.Table? && key in value.value.entries && r.value == value.value.entries[key]
    ensures value.Some? && value.value.Table? && key in value.value.entries ==> r.Some?
  {
    match value
    case Some(Table(m)) => if key in m then Some(m[key]) else None
    case _ => None
  }

  /** `resolve(object, path)`: the value at the end of the path, or undefined
      (`None`) as soon as a segment is missing. */
  function Resolve(start: Option<Entry>, path: seq<string>): Option<Entry>
    decreases |path|
  {
    if path == [] then start else Resolve(Step(start, path[0]), path[1..])
  }

  /** Once undefined, the walk stays undefined. */
  lemma {:induction false} ResolveFromNothing(path: seq<string>)
    ensures Resolve(None, path) == None
  {
    if path != [] {
      ResolveFromNothing(path[1..]);
    }
  }

  /** Walking p and then q is walking p + q. */
  lemma {:induction false} ResolveAppend(start: Option<Entry>, p: seq<string>, q: seq<string>)
    ensures Resolve(start, p + q) == Resolve(Resolve(start, p), q)
    decreases |p|
  {
    if p != [] {
      assert (p + q)[0] == p[0] && (p + q)[1..] == p[1..] + q;
      ResolveAppend(Step(start, p[0]), p[1..], q);
    } else {
      assert p + q == q;
    }
  }

  /** If some prefix of the path is missing, the whole path is. */
  lemma ResolveMissingPrefix(start: Option<Entry>, path: seq<string>, i: nat)
    requires i <= |path| && Resolve(start, path[..i]) == None
    ensures Resolve(start, path) == None
  {
    assert path == path[..i] + path[i..];
    ResolveAppend(start, path[..i], path[i..]);
    ResolveFromNothing(path[i..]);
  }

  /** `dictionaries[lang]`. */
  function DictionaryOf(lang: string): Option<Entry>
  {
    if lang in Dictionaries then Some(Dictionaries[lang]) else None
  }

  /** `t(key)`: split the key at dots, resolve it in the current language; if
      that fails, `resolve(zh) || resolve(en)`; if that is undefined too, the
      key itself (as a string). */
  function T(lang: string, key: string): (r: Entry)
    ensures Resolve(DictionaryOf(lang), Split(key, '.')).Some? ==> r == Resolve(DictionaryOf(lang), Split(key, '.')).value
  {
    var path := Split(key, '.');
    var fromCurrent := Resolve(DictionaryOf(lang), path);
    if fromCurrent.Some? then fromCurrent.value
    else
      var fromZh := Resolve(Some(Zh), path);
      var fallback := if fromZh.Some? && EntryTruthy(fromZh.value) then fromZh else Resolve(Some(En), path);
      if fallback.Some? then fallback.value else Leaf(key)
  }

  /** When the current language lacks the path, Chinese is tried first, then
      English, and only then is the key returned; the result is never undefined. */
  lemma TFallback(lang: string, key: string)
    requires Resolve(DictionaryOf(lang), Split(key, '.')).None?
    ensures var path := Split(key, '.');
            && (Resolve(Some(Zh), path).Some? && EntryTruthy(Resolve(Some(Zh), path).value) ==> T(lang, key) == Resolve(Some(Zh), path).value)
            && (!(Resolve(Some(Zh), path).Some? && EntryTruthy(Resolve(Some(Zh), path).value)) && Resolve(Some(En), path).Some? ==> T(lang, key) == Resolve(Some(En), path).value)
            && (Resolve(Some(Zh), path).None? && Resolve(Some(En), path).None? ==> T(lang, key) == Leaf(key))
  {
  }

  /** The text content a value becomes: the string itself, or the generic
      object string for a table. */
  function TextContent(e: Entry): string
  {
    match e
    case Leaf(s) => s
    case Table(_) => "[object Object]"
  }

  /** Dotted keys reach into the nested tables: `hemisphere.lonEast` is 'E'
      in English. */
  lemma EnglishEast()
    ensures T("en", "hemisphere.lonEast") == Leaf("E")
  {
    assert "hemisphere" in En.entries && En.entries["hemisphere"] == EnHemisphere;
    TwoLevels(En, "hemisphere.lonEast", "hemisphere", "lonEast", Leaf("E"));
    assert DictionaryOf("en") == Some(En);
  }

  /** ... and '东经' in Chinese. */
  lemma ChineseEast()
    ensures T("zh", "hemisphere.lonEast") == Leaf("东经")
  {
    assert "hemisphere" in Zh.entries && Zh.entries["hemisphere"] == ZhHemisphere;
    TwoLevels(Zh, "hemisphere.lonEast", "hemisphere", "lonEast", Leaf("东经"));
    assert DictionaryOf("zh") == Some(Zh);
  }

  /** A two-segment key whose table holds a sub-table holding the value. */
  lemma TwoLevels(dict: Entry, key: string, a: string, b: string, v: Entry)
    requires key == a + "." + b && '.' !in a && '.' !in b
    requires dict.Table? && a in dict.entries && dict.entries[a].Table?
    requires b in dict.entries[a].entries && dict.entries[a].entries[b] == v
    ensures Resolve(Some(dict), Split(key, '.')) == Some(v)
  {
    SplitTwo(a, b);
    assert [a, b][0] == a && [a, b][1..] == [b] && [b][0] == b && [b][1..] == [];
    assert Resolve(Some(dict), [a, b]) == Resolve(Some(dict.entries[a]), [b]);
    assert Resolve(Some(dict.entries[a]), [b]) == Resolve(Some(v), []);
  }

  lemma SplitTwo(a: string, b: string)
    requires '.' !in a && '.' !in b
    ensures Split(a + "." + b, '.') == [a, b]
  {
    var parts := [a, b];
    assert Join(parts[1..], '.') == b;
    assert Join(parts, '.') == a + "." + b;
    SplitJoin(parts, '.');
  }

  /** The document's `lang` attribute for a language. */
  function DocumentLang(lang: string): (attr: string)
    ensures attr == "zh-Hans" <==> lang == "zh"
    ensures attr == "en" <==> lang != "zh"
  {
    if lang == "zh" then "zh-Hans" else "en"
  }

  /** The language `init` picks from the stored preference. */
  function InitLang(stored: Option<string>): (lang: string)
    ensures lang in Dictionaries
    ensures stored.Some? && stored.value in Dictionaries ==> lang == stored.value
    ensures !(stored.Some? && stored.value in Dictionaries) ==> lang == "zh"
  {
    if stored.Some? && stored.value in Dictionaries then stored.value else "zh"
  }

  /** The module's state: the current language, the stored preference, the
      document's `lang` attribute and the details of the `vista:lang` events
      dispatched so far. */
  class Localizer {
    var currentLang: string
    var stored: Option<string>
    var documentLang: Option<string>
    var events: seq<string>

    ghost predicate Valid()
      reads this
    {
      currentLang in Dictionaries
    }

    /** Loading the script: `currentLang` starts as 'zh'. */
    constructor(storedLang: Option<string>)
      ensures Valid()
      ensures currentLang == "zh" && stored == storedLang && documentLang == None && events == []
    {
      currentLang := "zh";
      stored := storedLang;
      documentLang := None;
      events := [];
    }

    /** `init()`: take the stored language when it has a dictionary, set the
        `lang` attribute, and return the language. */
    method Init() returns (lang: string)
      modifies this
      ensures Valid()
      ensures lang == currentLang == InitLang(old(stored))
      ensures documentLang == Some(DocumentLang(lang))
      ensures stored == old(stored) && events == old(events)
    {
      lang := InitLang(stored);
      currentLang := lang;
      documentLang := Some(DocumentLang(lang));
    }

    /** `setLang(lang)`: an unknown language becomes 'zh'; the language is
        stored, set on the document, announced, and returned. */
    method SetLang(requested: string) returns (lang: string)
      modifies this
      ensures Valid()
      ensures requested in Dictionaries ==> lang == requested
      ensures requested !in Dictionaries ==> lang == "zh"
      ensures currentLang == lang && stored == Some(lang)
      ensures documentLang == Some(DocumentLang(lang))
      ensures events == old(events) + [lang]
    {
      lang := if requested in Dictionaries then requested else "zh";
      currentLang := lang;
      stored := Some(lang);
      documentLang := Some(DocumentLang(lang));
      events := events + [lang];
    }
  }
}
