/** The client's locale layer (frontend/src/contexts/LanguageContext.jsx): the
    translation function `t` (key lookup with fallback, then `{name}`
    substitution), the language class, the supported-language list, and the
    provider state `language` / `isRTL` with its persistence. */
module Locale {
  import opened Wrappers
  import opened Text
  import Translations
  import Browser

  type Catalog = Translations.Catalog
  type Catalogs = map<string, Catalog>

  /** The `params` object of `t`, as the (name, value) pairs `Object.keys` lists, in order. */
  type Params = seq<(string, string)>

  /** The language whose catalog is the fallback. */
  const Baseline: string := "en"

  /** `catalogs[lang]?.[key]` as `||` sees it: a missing language, a missing key
      and an empty text are all "no entry", written as "". */
  function Entry(catalogs: Catalogs, lang: string, key: string): string {
    if lang in catalogs && key in catalogs[lang] then catalogs[lang][key] else ""
  }

  /** The template `t` starts from:
      `translations[language]?.[key] || translations['en'][key] || key`. */
  function Lookup(catalogs: Catalogs, lang: string, key: string): (r: string)
    ensures lang in catalogs && key in catalogs[lang] && catalogs[lang][key] != ""
            ==> r == catalogs[lang][key]
    ensures Entry(catalogs, lang, key) == ""
            && Baseline in catalogs && key in catalogs[Baseline] && catalogs[Baseline][key] != ""
            ==> r == catalogs[Baseline][key]
    ensures Entry(catalogs, lang, key) == "" && Entry(catalogs, Baseline, key) == "" ==> r == key
  {
    var own := Entry(catalogs, lang, key);
    if own != "" then own
    else
      var base := Entry(catalogs, Baseline, key);
      if base != "" then base else key
  }

  /** Whatever `t` starts from is a non-empty text of one of the two catalogs, or the key itself. */
  lemma LookupOrigin(catalogs: Catalogs, lang: string, key: string)
    ensures var r := Lookup(catalogs, lang, key);
            r == key
            || (r != "" && lang in catalogs && r in catalogs[lang].Values)
            || (r != "" && Baseline in catalogs && r in catalogs[Baseline].Values)
  {
    var r := Lookup(catalogs, lang, key);
    if Entry(catalogs, lang, key) != "" {
      assert catalogs[lang][key] in catalogs[lang].Values;
    } else if Entry(catalogs, Baseline, key) != "" {
      assert catalogs[Baseline][key] in catalogs[Baseline].Values;
    }
  }

  /** The text `String.prototype.replace` inserts for a string pattern
      (GetSubstitution of ECMA-262 with no capture groups): `$$` is a dollar,
      `$&` the matched text, `` $` `` the text before the match, `$'` the text
      after it; every other character, `$` included, stands for itself. */
  function Expand(repl: string, matched: string, before: string, after: string): (r: string)
    ensures '$' !in repl ==> r == repl
    decreases |repl|
  {
    if |repl| == 0 then ""
    else if repl[0] == '$' && |repl| >= 2 && repl[1] == '$' then
      "$" + Expand(repl[2..], matched, before, after)
    else if repl[0] == '$' && |repl| >= 2 && repl[1] == '&' then
      matched + Expand(repl[2..], matched, before, after)
    else if repl[0] == '$' && |repl| >= 2 && repl[1] == '`' then
      before + Expand(repl[2..], matched, before, after)
    else if repl[0] == '$' && |repl| >= 2 && repl[1] == '\'' then
      after + Expand(repl[2..], matched, before, after)
    else
      [repl[0]] + Expand(repl[1..], matched, before, after)
  }

  /** `s.replace(pat, repl)` with a string pattern: only the first occurrence
      of `pat` is replaced; without one, `s` is returned unchanged. */
  function ReplaceFirst(s: string, pat: string, repl: string): (r: string)
    ensures IndexOf(s, pat).None? ==> r == s
    ensures IndexOf(s, pat).Some? && '$' !in repl
            ==> var i := IndexOf(s, pat).value; r == s[..i] + repl + s[i + |pat|..]
  {
    match IndexOf(s, pat)
    case None => s
    case Some(i) => s[..i] + Expand(repl, pat, s[..i], s[i + |pat|..]) + s[i + |pat|..]
  }

  /** The placeholder text of a parameter name. */
  function Placeholder(name: string): string {
    "{" + name + "}"
  }

  /** The `forEach` of `t`: each parameter in turn replaces the first occurrence
      of its placeholder in the text produced so far. */
  function Substitute(template: string, params: Params): (r: string)
    ensures params == [] ==> r == template
    decreases |params|
  {
    if params == [] then template
    else Substitute(ReplaceFirst(template, Placeholder(params[0].0), params[0].1), params[1..])
  }

  /** `t(key, params)` while the current language is `lang`. */
  function Translate(catalogs: Catalogs, lang: string, key: string, params: Params): string {
    Substitute(Lookup(catalogs, lang, key), params)
  }

  /** `t` as written: the template, then each parameter in key order
      replacing the first occurrence of its placeholder in the running text. */
  method TranslateInOrder(catalogs: Catalogs, lang: string, key: string, params: Params) returns (r: string)
    ensures r == Translate(catalogs, lang, key, params)
  {
    r := Lookup(catalogs, lang, key);
    for i := 0 to |params|
      invariant Substitute(r, params[i..]) == Translate(catalogs, lang, key, params)
    {
      SubstituteStep(r, params, i);
      r := ReplaceFirst(r, Placeholder(params[i].0), params[i].1);
    }
    assert params[|params|..] == [];
  }

  /** Substituting from position `i` is one replacement, then substituting from `i + 1`. */
  lemma SubstituteStep(text: string, params: Params, i: nat)
    requires i < |params|
    ensures Substitute(text, params[i..])
            == Substitute(ReplaceFirst(text, Placeholder(params[i].0), params[i].1), params[i + 1..])
  {
    assert params[i..][0] == params[i];
    assert params[i..][1..] == params[i + 1..];
  }

  /** Parameters whose placeholders do not occur leave the text exactly as it was. */
  lemma {:induction false} SubstituteAbsent(template: string, params: Params)
    requires forall i :: 0 <= i < |params| ==> !Contains(template, Placeholder(params[i].0))
    ensures Substitute(template, params) == template
    decreases |params|
  {
    if params != [] {
      assert ReplaceFirst(template, Placeholder(params[0].0), params[0].1) == template;
      forall i | 0 <= i < |params[1..]|
        ensures !Contains(template, Placeholder(params[1..][i].0))
      {
        assert params[1..][i] == params[i + 1];
      }
      SubstituteAbsent(template, params[1..]);
    }
  }

  /** One parameter fills the first occurrence of its placeholder and nothing else. */
  lemma SubstituteOne(template: string, name: string, value: string, k: nat)
    requires IndexOf(template, Placeholder(name)) == Some(k)
    requires '$' !in value
    ensures Substitute(template, [(name, value)])
            == template[..k] + value + template[k + |Placeholder(name)|..]
  {
    assert [(name, value)][1..] == [];
  }

  /** Only the first of two equal placeholders is filled. */
  lemma FirstOccurrenceOnly()
    ensures Substitute("{n}/{n}", [("n", "1")]) == "1/{n}"
  {
    var t := "{n}/{n}";
    assert OccursAt(t, Placeholder("n"), 0);
    IndexOfIs(t, Placeholder("n"), 0);
    SubstituteOne(t, "n", "1", 0);
  }

  /** A parameter the template does not mention is ignored, and an unfilled placeholder stays. */
  lemma KeepsUnfilledPlaceholder()
    ensures Substitute("X {name} Y", [("other", "v")]) == "X {name} Y"
  {
    var t := "X {name} Y";
    var p := Placeholder("other");
    forall j: nat ensures !OccursAt(t, p, j) {
      if j == 2 { MismatchAt(t, p, j, 1); } else { MismatchAt(t, p, j, 0); }
    }
    SubstituteAbsent(t, [("other", "v")]);
  }

  /** `t` under a language with no catalog resolves every key as `en` does. */
  lemma UnknownLanguageIsBaseline(catalogs: Catalogs, lang: string, key: string, params: Params)
    requires lang !in catalogs
    ensures Translate(catalogs, lang, key, params) == Translate(catalogs, Baseline, key, params)
  {
  }

  /** A key the current catalog lacks resolves as it does under `en`. */
  lemma MissingKeyIsBaseline(catalogs: Catalogs, lang: string, key: string, params: Params)
    requires lang in catalogs && key !in catalogs[lang]
    ensures Translate(catalogs, lang, key, params) == Translate(catalogs, Baseline, key, params)
  {
  }

  /** Under `mr`, the selector's `language.spanish` label falls back to the English text. */
  lemma SpanishNameUnderMarathi(catalogs: Catalogs)
    requires "mr" in catalogs && catalogs["mr"] == Translations.Marathi
    requires Baseline in catalogs && catalogs[Baseline] == Translations.English
    ensures Translate(catalogs, "mr", "language.spanish", []) == "Español"
  {
    Translations.MarathiLacksSpanishName();
    Translations.EnglishNamesSpanish();
  }

  /** Whether a language is written right to left (`['ar', 'he'].includes(code)`). */
  predicate IsRtl(code: string)
    ensures IsRtl(code) <==> code == "ar" || code == "he"
    ensures IsRtl(code) ==> forall o :: o in SupportedLanguages ==> o.code != code
  {
    code in ["ar", "he"]
  }

  /** `getLanguageClass`: the CSS class for the Devanagari catalogs. */
  function LanguageClass(lang: string): (r: string)
    ensures lang == "hi" ==> r == "hindi-text"
    ensures lang == "mr" ==> r == "marathi-text"
    ensures lang != "hi" && lang != "mr" ==> r == ""
  {
    var classes := map["hi" := "hindi-text", "mr" := "marathi-text"];
    if lang in classes then classes[lang] else ""
  }

  /** One entry of `supportedLanguages`. */
  datatype LanguageOption = LanguageOption(code: string, name: string, flag: string)

  /** `supportedLanguages` (lines 462-466): what the selector offers. */
  const SupportedLanguages: seq<LanguageOption> := [
    LanguageOption("en", "English", "🇺🇸"),
    LanguageOption("hi", "हिन्दी", "🇮🇳"),
    LanguageOption("mr", "मराठी", "🇮🇳")
  ]

  /** The state `LanguageProvider` keeps: the language code and the direction flag. */
  class LanguageProvider {
    const store: Browser.LocalStorage
    /** The `translations` object `t` reads (`Translations.Table` in the app). */
    const catalogs: Catalogs
    var language: string
    var isRTL: bool

    /** The direction flag is derived from the language and never set on its own. */
    ghost predicate Valid()
      reads this
    {
      isRTL == IsRtl(language)
    }

    /** The `useState` defaults, before the mount effect runs. */
    constructor (store: Browser.LocalStorage, catalogs: Catalogs)
      ensures this.store == store && this.catalogs == catalogs
      ensures language == Baseline && !isRTL && Valid()
    {
      this.store := store;
      this.catalogs := catalogs;
      language := Baseline;
      isRTL := false;
    }

    /** The mount effect: the stored language, or `en` when none (or an empty one) is stored. */
    method LoadSaved()
      modifies this
      ensures Browser.LanguageKey in store.items && store.items[Browser.LanguageKey] != ""
              ==> language == store.items[Browser.LanguageKey]
      ensures !(Browser.LanguageKey in store.items && store.items[Browser.LanguageKey] != "")
              ==> language == Baseline
      ensures isRTL == IsRtl(language) && Valid()
    {
      var saved := store.GetItem(Browser.LanguageKey).GetOr("");
      var code := if saved != "" then saved else Baseline;
      language := code;
      isRTL := IsRtl(code);
    }

    /** `changeLanguage(code)`: any code is taken as it is, and persisted. */
    method ChangeLanguage(code: string)
      modifies this, store
      ensures language == code && isRTL == IsRtl(code) && Valid()
      ensures store.items == old(store.items)[Browser.LanguageKey := code]
    {
      language := code;
      isRTL := IsRtl(code);
      store.SetItem(Browser.LanguageKey, code);
    }

    /** `t(key, params)`: the lookup in the current language's catalog, then
        the parameters filled in. */
    function T(key: string, params: Params): (r: string)
      reads this
      ensures params == [] ==> r == Lookup(catalogs, language, key)
      ensures language !in catalogs ==> r == Translate(catalogs, Baseline, key, params)
      ensures language in catalogs && key !in catalogs[language] ==> r == Translate(catalogs, Baseline, key, params)
    {
      Translate(catalogs, language, key, params)
    }
  }
}
