/**
  The localisation script of the hashed build (i18n.48418e7b.js): two flat
  dictionaries, the current language chosen from the stored preference, the
  lookup `t` with its `dict[key] || key` fallback, the language switch, the
  set of language-change listeners and the translation pass that rewrites
  every `[data-i18n]` node and then notifies the listeners.
 */
module HashedI18n {
  import opened JsTypes

  const StorageKey: string := "vista-lang"

  const Zh: map<string, string> := map[
    "brand" := "Vista",
    "longitudeLabel" := "经度",
    "latitudeLabel" := "纬度",
    "altitudeLabel" := "海拔",
    "speedLabel" := "当前速度",
    "timestampLabel" := "定位获取时间",
    "accuracyLabel" := "定位精度",
    "language" := "语言",
    "langZh" := "中文",
    "langEn" := "English",
    "theme" := "颜色模式",
    "themeLight" := "浅色",
    "themeDark" := "深色",
    "settings" := "设置",
    "detailToggle" := "信息细节模块",
    "speedToggle" := "当前速度模块",
    "speedUnit" := "速度单位",
    "kmh" := "km/h",
    "ms" := "m/s",
    "retry" := "重新尝试",
    "permissionDenied" := "定位被拒绝，请在浏览器设置中授权。",
    "positionUnavailable" := "无法获取位置信息。",
    "timeout" := "定位请求超时，请稍后再试。",
    "unknownError" := "发生未知错误。",
    "toggleOn" := "开启",
    "longitudeEast" := "东经",
    "longitudeWest" := "西经",
    "latitudeNorth" := "北纬",
    "latitudeSouth" := "南纬",
    "moduleSpacing" := "模块间距",
    "primaryValueSize" := "大字信息字号",
    "contentPadding" := "文字与左右页边距"
  ]

  const En: map<string, string> := map[
    "brand" := "Vista",
    "longitudeLabel" := "Longitude",
    "latitudeLabel" := "Latitude",
    "altitudeLabel" := "Altitude",
    "speedLabel" := "Current Speed",
    "timestampLabel" := "Time",
    "accuracyLabel" := "Accuracy",
    "language" := "Language",
    "langZh" := "Chinese",
    "langEn" := "English",
    "theme" := "Color Mode",
    "themeLight" := "Light",
    "themeDark" := "Dark",
    "settings" := "Settings",
    "detailToggle" := "Information Details",
    "speedToggle" := "Speed Module",
    "speedUnit" := "Speed Unit",
    "kmh" := "km/h",
    "ms" := "m/s",
    "retry" := "Try Again",
    "permissionDenied" := "Location permission denied. Please enable it in browser settings.",
    "positionUnavailable" := "Unable to determine your position.",
    "timeout" := "Location request timed out. Please try again.",
    "unknownError" := "An unknown error occurred.",
    "toggleOn" := "On",
    "longitudeEast" := "East",
    "longitudeWest" := "West",
    "latitudeNorth" := "North",
    "latitudeSouth" := "South",
    "moduleSpacing" := "Module Spacing",
    "primaryValueSize" := "Large Reading Size",
    "contentPadding" := "Text Padding"
  ]

  const Dictionaries: map<string, map<string, string>> := map["zh" := Zh, "en" := En]

  /** Both dictionaries translate the same keys, and no translation is empty. */
  lemma DictionariesComplete()
    ensures Zh.Keys == En.Keys
    ensures forall k :: k in Zh ==> Zh[k] != "" && En[k] != ""
  {
  }

  /** `dictionaries[currentLang] || dictionaries.zh`. */
  function Dict(lang: string): (d: map<string, string>)
    ensures lang in Dictionaries ==> d == Dictionaries[lang]
    ensures lang !in Dictionaries ==> d == Zh
  {
    if lang in Dictionaries then Dictionaries[lang] else Zh
  }

  /** `t(key)`: the entry of the current dictionary when it is a non-empty
      string, otherwise the key itself. */
  function T(lang: string, key: string): (r: string)
    ensures r == key || (key in Dict(lang) && r == Dict(lang)[key] != "")
  {
    var d := Dict(lang);
    if key in d && d[key] != "" then d[key] else key
  }

  /** A key both dictionaries know translates to the dictionary's text in
      either language; any other key comes back unchanged. */
  lemma TKnownOrKey(lang: string, key: string)
    ensures key in Zh ==> T(lang, key) == Dict(lang)[key]
    ensures key !in Zh ==> T(lang, key) == key
  {
    DictionariesComplete();
  }

  /** The initial `currentLang`: the stored preference or 'zh', and then 'zh'
      again unless a dictionary exists for it. */
  function InitialLang(stored: Option<string>): (lang: string)
    ensures lang in Dictionaries
    ensures stored.Some? && stored.value in Dictionaries ==> lang == stored.value
    ensures !(stored.Some? && stored.value in Dictionaries) ==> lang == "zh"
  {
    var preferred := if TruthyString(stored) then stored.value else "zh";
    if preferred in Dictionaries then preferred else "zh"
  }

  /** A value passed to `onLangChange`: a function (identified by its
      reference) or anything else. */
  datatype Callback = Function(id: nat) | NotAFunction

  /** A `[data-i18n]` node: its key attribute and its text content. */
  datatype Node = Node(key: string, text: string)

  /** The node after the translation pass: `if (text) el.textContent = text`. */
  function Translated(lang: string, n: Node): (m: Node)
    ensures m.key == n.key
    ensures T(lang, n.key) != "" ==> m.text == T(lang, n.key)
    ensures T(lang, n.key) == "" ==> m == n
  {
    var text := T(lang, n.key);
    if text != "" then n.(text := text) else n
  }

  /** The notifications one pass over the listener set sends, in insertion order. */
  function Notifications(listeners: seq<nat>, lang: string): (calls: seq<(nat, string)>)
    ensures |calls| == |listeners|
    ensures forall i :: 0 <= i < |listeners| ==> calls[i] == (listeners[i], lang)
  {
    if listeners == [] then [] else [(listeners[0], lang)] + Notifications(listeners[1..], lang)
  }

  /** The module's state: the current language, the stored preference, the
      document's `lang` and `data-lang` attributes, the translated nodes, the
      registered listeners and the calls made to them so far. */
  class Localizer {
    var currentLang: string
    var stored: Option<string>
    var langAttribute: Option<string>
    var dataLang: Option<string>
    var listeners: seq<nat>
    var calls: seq<(nat, string)>
    const nodes: array<Node>

    /** `listeners` is a set, kept in insertion order. */
    ghost predicate Valid()
      reads this
    {
      && currentLang in Dictionaries
      && forall i, j :: 0 <= i < j < |listeners| ==> listeners[i] != listeners[j]
    }

    /** Loading the script: the language from the stored preference and an
        empty listener set. */
    constructor(storedLang: Option<string>, page: array<Node>)
      ensures Valid()
      ensures currentLang == InitialLang(storedLang)
      ensures stored == storedLang && langAttribute == None && dataLang == None
      ensures listeners == [] && calls == [] && nodes == page
    {
      currentLang := InitialLang(storedLang);
      stored := storedLang;
      langAttribute := None;
      dataLang := None;
      listeners := [];
      calls := [];
      nodes := page;
    }

    /** `getLang()`. */
    function GetLang(): (lang: string)
      reads this
      requires Valid()
      ensures lang in Dictionaries
    {
      currentLang
    }

    /** `onLangChange(cb)`: functions join the set once; anything else is ignored. */
    method OnLangChange(cb: Callback)
      requires Valid()
      modifies this
      ensures Valid()
      ensures cb.Function? && cb.id !in old(listeners) ==> listeners == old(listeners) + [cb.id]
      ensures !(cb.Function? && cb.id !in old(listeners)) ==> listeners == old(listeners)
      ensures currentLang == old(currentLang) && stored == old(stored) && calls == old(calls)
      ensures langAttribute == old(langAttribute) && dataLang == old(dataLang)
    {
      if cb.Function? && cb.id !in listeners {
        listeners := listeners + [cb.id];
      }
    }

    /** `applyTranslations()`: set both language attributes, rewrite every node
        whose key translates to a non-empty text, then call every listener with
        the current language. */
    method ApplyTranslations()
      requires Valid()
      modifies this, nodes
      ensures Valid()
      ensures langAttribute == Some(currentLang) && dataLang == Some(currentLang)
      ensures forall i :: 0 <= i < nodes.Length ==> nodes[i] == Translated(currentLang, old(nodes[i]))
      ensures calls == old(calls) + Notifications(listeners, currentLang)
      ensures currentLang == old(currentLang) && stored == old(stored) && listeners == old(listeners)
    {
      langAttribute := Some(currentLang);
      dataLang := Some(currentLang);
      TranslateNodes();
      NotifyListeners();
    }

    /** The `forEach` over the `[data-i18n]` nodes. */
    method TranslateNodes()
      modifies nodes
      ensures forall i :: 0 <= i < nodes.Length ==> nodes[i] == Translated(currentLang, old(nodes[i]))
    {
      var i := 0;
      while i < nodes.Length
        invariant 0 <= i <= nodes.Length
        invariant forall k :: 0 <= k < i ==> nodes[k] == Translated(currentLang, old(nodes[k]))
        invariant forall k :: i <= k < nodes.Length ==> nodes[k] == old(nodes[k])
      {
        var text := T(currentLang, nodes[i].key);
        if text != "" {
          nodes[i] := nodes[i].(text := text);
        }
        i := i + 1;
      }
    }

    /** `listeners.forEach((fn) => fn(currentLang))`. */
    method NotifyListeners()
      modifies this
      ensures calls == old(calls) + Notifications(listeners, currentLang)
      ensures currentLang == old(currentLang) && stored == old(stored) && listeners == old(listeners)
      ensures langAttribute == old(langAttribute) && dataLang == old(dataLang)
    {
      var j := 0;
      assert listeners[..0] == [];
      while j < |listeners|
        invariant 0 <= j <= |listeners|
        invariant calls == old(calls) + Notifications(listeners[..j], currentLang)
        invariant currentLang == old(currentLang) && stored == old(stored) && listeners == old(listeners)
        invariant langAttribute == old(langAttribute) && dataLang == old(dataLang)
      {
        NotificationsSnoc(listeners[..j], listeners[j], currentLang);
        assert listeners[..j + 1] == listeners[..j] + [listeners[j]];
        calls := calls + [(listeners[j], currentLang)];
        j := j + 1;
      }
      assert listeners[..j] == listeners;
    }

    /** `setLang(lang)`: a language without a dictionary changes nothing;
        otherwise it becomes current, is stored, and the translation pass runs. */
    method SetLang(lang: string)
      requires Valid()
      modifies this, nodes
      ensures Valid()
      ensures lang !in Dictionaries ==> unchanged(this) && unchanged(nodes)
      ensures lang in Dictionaries ==>
        && currentLang == lang && stored == Some(lang)
        && langAttribute == Some(lang) && dataLang == Some(lang)
        && (forall i :: 0 <= i < nodes.Length ==> nodes[i] == Translated(lang, old(nodes[i])))
        && calls == old(calls) + Notifications(listeners, lang)
      ensures listeners == old(listeners)
    {
      if lang !in Dictionaries {
        return;
      }
      currentLang := lang;
      stored := Some(lang);
      ApplyTranslations();
    }
  }

  lemma {:induction false} NotificationsSnoc(ls: seq<nat>, l: nat, lang: string)
    ensures Notifications(ls + [l], lang) == Notifications(ls, lang) + [(l, lang)]
  {
    var a := Notifications(ls + [l], lang);
    var b := Notifications(ls, lang) + [(l, lang)];
    assert |a| == |b|;
    forall i | 0 <= i < |a|
      ensures a[i] == b[i]
    {
      if i < |ls| {
        assert (ls + [l])[i] == ls[i];
      }
    }
  }
}
