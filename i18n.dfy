/**
 * Translations (lib/i18n.ts): the table of supported languages, dotted-key
 * lookup in nested translation tables with the key itself as the answer on
 * any miss, and the loader that switches the current language, falling
 * back to English when the requested file cannot be loaded.
 */
module I18n {
  import opened Wrappers
  import opened Text
  import opened Storage

  const LanguageKey: string := "cga_language"

  /** A parsed locale file: strings, nested tables, and any other JSON value. */
  datatype Json = JStr(s: string) | JObj(fields: map<string, Json>) | JOther

  datatype LanguageInfo = LanguageInfo(code: string, name: string, nativeName: string)

  /** `LANGUAGES`: every entry is filed under its own code. */
  function Languages(): (m: map<string, LanguageInfo>)
    ensures "en" in m && m["en"] == LanguageInfo("en", "English", "English")
    ensures forall code :: code in m ==> m[code].code == code
  {
    map[
      "en" := LanguageInfo("en", "English", "English"),
      "hi" := LanguageInfo("hi", "Hindi", "हिंदी"),
      "ta" := LanguageInfo("ta", "Tamil", "தமிழ்"),
      "te" := LanguageInfo("te", "Telugu", "తెలుగు"),
      "kn" := LanguageInfo("kn", "Kannada", "ಕನ್ನಡ"),
      "ml" := LanguageInfo("ml", "Malayalam", "മലയാളം"),
      "bn" := LanguageInfo("bn", "Bengali", "বাংলা"),
      "gu" := LanguageInfo("gu", "Gujarati", "ગુજરાતી"),
      "mr" := LanguageInfo("mr", "Marathi", "मराठी"),
      "pa" := LanguageInfo("pa", "Punjabi", "ਪੰਜਾਬੀ"),
      "ur" := LanguageInfo("ur", "Urdu", "اردو"),
      "as" := LanguageInfo("as", "Assamese", "অসমীয়া"),
      "or" := LanguageInfo("or", "Odia", "ଓଡ଼ିଆ"),
      "ks" := LanguageInfo("ks", "Kashmiri", "कॉशुर"),
      "brx" := LanguageInfo("brx", "Bodo", "बड़ो"),
      "doi" := LanguageInfo("doi", "Dogri", "डोगरी"),
      "kok" := LanguageInfo("kok", "Konkani", "कोंकणी"),
      "mai" := LanguageInfo("mai", "Maithili", "मैथिली"),
      "mni" := LanguageInfo("mni", "Manipuri", "মৈতৈলোন্"),
      "ne" := LanguageInfo("ne", "Nepali", "नेपाली"),
      "sa" := LanguageInfo("sa", "Sanskrit", "संस्कृतम्"),
      "sat" := LanguageInfo("sat", "Santali", "ᱥᱟᱱᱛᱟᱲᱤ"),
      "sd" := LanguageInfo("sd", "Sindhi", "سنڌي")
    ]
  }

  /** `getLanguageInfo`: the entry for a known code, English otherwise. */
  function GetLanguageInfo(code: string): (info: LanguageInfo)
    ensures info in Languages().Values
    ensures code in Languages() ==> info == Languages()[code]
    ensures code !in Languages() ==> info == Languages()["en"]
    ensures info.code == code <==> code in Languages()
  {
    if code in Languages() then Languages()[code] else Languages()["en"]
  }

  /** `getSavedLanguage`: the stored code, or "en" when none (or an empty one) is stored. */
  function GetSavedLanguage(store: LocalStorage): (code: string)
    reads store
    ensures code != ""
    ensures LanguageKey in store.items && store.items[LanguageKey].Text? && store.items[LanguageKey].s != "" ==>
      code == store.items[LanguageKey].s
    ensures LanguageKey !in store.items ==> code == "en"
    ensures LanguageKey in store.items && store.items[LanguageKey] == Text("") ==> code == "en"
    ensures !(LanguageKey in store.items && store.items[LanguageKey].Text? && store.items[LanguageKey].s != "") ==>
      code == "en"
  {
    var saved := store.GetItem(LanguageKey);
    if saved.Some? && saved.value.Text? && saved.value.s != "" then saved.value.s else "en"
  }

  /**
   * Follows the path segment by segment; a segment missing from a table,
   * or a non-table on the way, ends the walk with nothing.
   */
  function Resolve(value: Json, path: seq<string>): Option<Json> {
    if path == [] then Some(value)
    else match value
      case JObj(fields) => if path[0] in fields then Resolve(fields[path[0]], path[1..]) else None
      case _ => None
  }

  /** What `t(key)` answers for a table: the string at the dotted path, or the key. */
  function Translate(table: Json, key: string): string {
    match Resolve(table, Split(key, '.'))
    case Some(JStr(s)) => s
    case _ => key
  }

  /** Walking `a + b` is walking `a`, then `b` from where it ended. */
  lemma {:induction false} ResolveConcat(value: Json, a: seq<string>, b: seq<string>)
    ensures Resolve(value, a + b) ==
      (match Resolve(value, a) case Some(v) => Resolve(v, b) case None => None)
  {
    if a != [] {
      assert (a + b)[0] == a[0] && (a + b)[1..] == a[1..] + b;
      if value.JObj? && a[0] in value.fields {
        ResolveConcat(value.fields[a[0]], a[1..], b);
      }
    } else {
      assert a + b == b;
    }
  }

  /** A miss part-way is final: no later segment brings the walk back. */
  lemma MissIsFinal(value: Json, path: seq<string>, k: nat)
    requires k <= |path| && Resolve(value, path[..k]).None?
    ensures Resolve(value, path).None?
  {
    ResolveConcat(value, path[..k], path[k..]);
    assert path[..k] + path[k..] == path;
  }

  /** A table holding `leaf` under the nested path `path` and nothing else. */
  function Nest(path: seq<string>, leaf: Json): Json {
    if path == [] then leaf else JObj(map[path[0] := Nest(path[1..], leaf)])
  }

  lemma {:induction false} ResolveNest(path: seq<string>, leaf: Json)
    ensures Resolve(Nest(path, leaf), path) == Some(leaf)
  {
    if path != [] {
      ResolveNest(path[1..], leaf);
    }
  }

  /**
   * A string filed under nested keys is what `t` returns for those keys
   * joined with dots, provided no key itself contains a dot.
   */
  lemma TranslateNested(path: seq<string>, s: string)
    requires |path| > 0 && forall k :: 0 <= k < |path| ==> '.' !in path[k]
    ensures Translate(Nest(path, JStr(s)), Join(path, ".")) == s
  {
    SplitJoin(path, '.');
    ResolveNest(path, JStr(s));
  }

  /** A path that stops at a sub-table, or at a non-string, answers with the key. */
  lemma TranslateNonString(table: Json, key: string)
    requires match Resolve(table, Split(key, '.')) case Some(v) => !v.JStr? case None => true
    ensures Translate(table, key) == key
  {
  }

  /** The outcome of a `fetch` followed by `response.json()`. */
  datatype FetchOutcome =
    | NetworkError                             // fetch rejects
    | Response(ok: bool, body: Option<Json>)   // body None: json() rejects

  predicate Parsed(f: FetchOutcome) {
    f.Response? && f.body.Some?
  }

  /** Whether the requested file is loaded: an ok response whose body parses. */
  predicate Loaded(f: FetchOutcome) {
    f.Response? && f.ok && f.body.Some?
  }

  /**
   * The English table the loader ends up with when the requested file is
   * not loaded. After a not-ok response the first English fetch happens
   * inside the `try`; if its body does not parse, the `catch` fetches
   * English a second time.
   */
  function Fallback(langFetch: FetchOutcome, enFirst: FetchOutcome, enSecond: FetchOutcome): Option<Json> {
    if Parsed(enFirst) then Some(enFirst.body.value)
    else if langFetch.Response? && !langFetch.ok && Parsed(enSecond) then Some(enSecond.body.value)
    else None
  }

  /** The module-level state: the current language and its table. */
  class Translator {
    var currentLanguage: string
    var translations: Json

    constructor ()
      ensures currentLanguage == "en" && translations == JObj(map[])
    {
      currentLanguage := "en";
      translations := JObj(map[]);
    }

    /** `t(key)`: walks the dotted key through the current table. */
    method T(key: string) returns (r: string)
      ensures r == Translate(translations, key)
    {
      var keys := Split(key, '.');
      var value := translations;
      var i := 0;
      while i < |keys|
        invariant 0 <= i <= |keys|
        invariant Resolve(translations, keys) == Resolve(value, keys[i..])
      {
        assert keys[i..][0] == keys[i] && keys[i..][1..] == keys[i + 1..];
        if value.JObj? && keys[i] in value.fields {
          value := value.fields[keys[i]];
          i := i + 1;
        } else {
          return key;
        }
      }
      r := if value.JStr? then value.s else key;
    }

    /**
     * `loadTranslations(lang)`: a loaded file switches to `lang` and saves
     * it; otherwise English is adopted if a fallback fetch parses, and
     * nothing changes if none does. Only the success path writes storage.
     */
    method LoadTranslations(lang: string, store: LocalStorage,
                            langFetch: FetchOutcome, enFirst: FetchOutcome, enSecond: FetchOutcome)
      modifies this, store
      ensures Loaded(langFetch) ==>
        && currentLanguage == lang && translations == langFetch.body.value
        && store.items == old(store.items)[LanguageKey := Text(lang)]
      ensures !Loaded(langFetch) ==> store.items == old(store.items)
      ensures !Loaded(langFetch) ==>
        var fb := Fallback(langFetch, enFirst, enSecond);
        if fb.Some? then currentLanguage == "en" && translations == fb.value
        else currentLanguage == old(currentLanguage) && translations == old(translations)
      ensures currentLanguage in {lang, "en", old(currentLanguage)}
    {
      if langFetch.Response? && !langFetch.ok {
        if Parsed(enFirst) {
          translations := enFirst.body.value;
          currentLanguage := "en";
          return;
        }
        // the first English body did not parse: the error reaches the catch
      } else if Loaded(langFetch) {
        translations := langFetch.body.value;
        currentLanguage := lang;
        store.SetItem(LanguageKey, Text(lang));
        return;
      }
      // catch: fetch English once more
      var retry := if langFetch.Response? && !langFetch.ok then enSecond else enFirst;
      if Parsed(retry) {
        translations := retry.body.value;
        currentLanguage := "en";
      }
    }
  }
}
