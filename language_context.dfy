/**
 * The language provider: the current language, its persistence in the browser's key-value
 * storage, the translation function bound to the current language, and the hook that
 * hands the provider to the components below it.
 */
module LanguageContext {
  import opened Wrappers
  import opened Translations

  /** The storage key the language preference is kept under. */
  const StorageKey: string := "mimick-language"

  /** The message `useLanguage` throws outside a provider. */
  const OutsideProviderMessage: string := "useLanguage must be used within a LanguageProvider"

  /** The code a language is written as: `'hi'` or `'en'`. */
  function Code(l: Language): string
  {
    match l
    case Hi => "hi"
    case En => "en"
  }

  /**
   * `getSavedLanguage`: without a window, Hindi; otherwise the stored value when it is
   * exactly one of the two codes, else Hindi. `storage` stands for `localStorage`.
   */
  function GetSavedLanguage(hasWindow: bool, storage: map<string, string>): (l: Language)
    ensures l == En <==> hasWindow && StorageKey in storage && storage[StorageKey] == Code(En)
    ensures !hasWindow ==> l == Hi
  {
    if !hasWindow then Hi
    else
      var saved := if StorageKey in storage then Some(storage[StorageKey]) else None;
      if saved == Some("en") then En
      else if saved == Some("hi") then Hi
      else Hi
  }

  /** Storing a language and reading it back in a browser gives that language. */
  lemma SavedLanguageRoundTrip(storage: map<string, string>, l: Language)
    ensures GetSavedLanguage(true, storage[StorageKey := Code(l)]) == l
  {
  }

  /** A stored value that is neither code, or no stored value at all, reads as Hindi. */
  lemma UnknownCodeIsHindi(storage: map<string, string>)
    requires StorageKey !in storage || storage[StorageKey] !in {"hi", "en"}
    ensures GetSavedLanguage(true, storage) == Hi
  {
  }

  /** The provider's state: the current language and the storage it writes to. */
  class LanguageProvider {
    var currentLanguage: Language
    var storage: map<string, string>

    /** The provider starts from the saved language. */
    constructor(hasWindow: bool, initialStorage: map<string, string>)
      ensures currentLanguage == GetSavedLanguage(hasWindow, initialStorage)
      ensures storage == initialStorage
    {
      currentLanguage := GetSavedLanguage(hasWindow, initialStorage);
      storage := initialStorage;
    }

    /** `setLanguage`: switches the current language and stores its code. */
    method SetLanguage(l: Language)
      modifies this
      ensures currentLanguage == l
      ensures storage == old(storage)[StorageKey := Code(l)]
      ensures GetSavedLanguage(true, storage) == l
    {
      currentLanguage := l;
      storage := storage[StorageKey := Code(l)];
      SavedLanguageRoundTrip(old(storage), l);
    }

    /** `t`: `getTranslation` in the current language. */
    method T(key: string, fallback: Option<string>, replacements: Option<seq<(string, string)>>)
      returns (text: string)
      ensures text == Translation(UiTexts(currentLanguage), key, fallback, replacements)
    {
      text := GetTranslation(currentLanguage, key, fallback, replacements);
    }
  }

  /** `useLanguage`: the provider above the caller, or the error thrown without one. */
  function UseLanguage(context: Option<LanguageProvider>): (r: Result<LanguageProvider, string>)
    ensures r.Err? <==> context.None?
    ensures r.Err? ==> r.error == OutsideProviderMessage
    ensures r.Ok? ==> r.value == context.value
  {
    match context
    case None => Err(OutsideProviderMessage)
    case Some(provider) => Ok(provider)
  }

  /**
   * Inside a provider, `useLanguage` hands back that very provider, so a component reads the
   * provider's language and `t`; outside every provider it is the error.
   */
  lemma UseLanguageGivesProvider(provider: LanguageProvider)
    ensures UseLanguage(Some(provider)).Ok? && UseLanguage(Some(provider)).value == provider
    ensures UseLanguage(None) == Err(OutsideProviderMessage)
  {
  }
}
