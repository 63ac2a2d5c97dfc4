/** The language dropdown (frontend/src/components/LanguageSelector.jsx): which
    entry the button shows, the open flag, and choosing an entry. */
module LanguageSelectorWidget {
  import opened Wrappers
  import Locale
  import Browser

  type LanguageOption = Locale.LanguageOption

  /** `options.find(lang => lang.code === code)`. */
  function Find(options: seq<LanguageOption>, code: string): (r: Option<nat>)
    ensures r.Some? ==> r.value < |options| && options[r.value].code == code
    ensures r.Some? ==> forall j :: 0 <= j < r.value ==> options[j].code != code
    ensures r.None? <==> forall j :: 0 <= j < |options| ==> options[j].code != code
  {
    if |options| == 0 then None
    else if options[0].code == code then Some(0)
    else
      match Find(options[1..], code)
      case None => None
      case Some(i) => Some(i + 1)
  }

  /** `currentLanguage`: the offered entry with the current code, else the first one. */
  function CurrentLanguage(language: string): (r: LanguageOption)
    ensures r in Locale.SupportedLanguages
    ensures (exists j :: 0 <= j < |Locale.SupportedLanguages| && Locale.SupportedLanguages[j].code == language)
            ==> r.code == language
    ensures (forall j :: 0 <= j < |Locale.SupportedLanguages| ==> Locale.SupportedLanguages[j].code != language)
            ==> r == Locale.SupportedLanguages[0]
  {
    match Find(Locale.SupportedLanguages, language)
    case Some(i) => Locale.SupportedLanguages[i]
    case None => Locale.SupportedLanguages[0]
  }

  /** A language that has a catalog but is not offered (`es`) is shown as English. */
  lemma UnofferedShowsEnglish()
    ensures CurrentLanguage("es") == Locale.LanguageOption("en", "English", "🇺🇸")
  {
  }

  /** The dropdown's open flag, over the shared language state. */
  class LanguageSelector {
    const provider: Locale.LanguageProvider
    var isOpen: bool

    /** Closed at first. */
    constructor (provider: Locale.LanguageProvider)
      ensures this.provider == provider && !isOpen
    {
      this.provider := provider;
      isOpen := false;
    }

    /** The button's `onClick`. */
    method Toggle()
      modifies this`isOpen
      ensures isOpen == !old(isOpen)
    {
      isOpen := !isOpen;
    }

    /** The document's `mousedown` listener; `inside` says whether the target
        lies within the dropdown. Only a press outside closes it. */
    method MouseDown(inside: bool)
      modifies this`isOpen
      ensures !inside ==> !isOpen
      ensures inside ==> isOpen == old(isOpen)
    {
      if !inside {
        isOpen := false;
      }
    }

    /** `handleLanguageChange` for the entry at `index` of the list the
        dropdown renders: its code becomes the language and is persisted, and
        the dropdown closes. */
    method Choose(index: nat)
      requires index < |Locale.SupportedLanguages|
      modifies this`isOpen, provider, provider.store
      ensures !isOpen
      ensures provider.language == Locale.SupportedLanguages[index].code
      ensures provider.language in {"en", "hi", "mr"}
      ensures CurrentLanguage(provider.language) == Locale.SupportedLanguages[index]
      ensures provider.isRTL == Locale.IsRtl(provider.language) && !provider.isRTL
      ensures provider.store.items
              == old(provider.store.items)[Browser.LanguageKey := Locale.SupportedLanguages[index].code]
    {
      var code := Locale.SupportedLanguages[index].code;
      provider.ChangeLanguage(code);
      isOpen := false;
    }
  }
}
