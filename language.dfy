/** The language store: the chosen interface language, persisted in browser storage. */
module Language {
  import opened Common

  const LanguageKey := "language"
  const DefaultLanguage := "en"
  const UseLanguageOutsideProvider := "useLanguage must be used within a LanguageProvider"

  /** The stored language when there is a non-empty one, else English. */
  function InitialLanguage(storage: map<string, string>): (l: string)
    ensures LanguageKey in storage && storage[LanguageKey] != "" ==> l == storage[LanguageKey]
    ensures (LanguageKey !in storage || storage[LanguageKey] == "") ==> l == DefaultLanguage
    ensures l != ""
  {
    if LanguageKey in storage && storage[LanguageKey] != "" then storage[LanguageKey] else DefaultLanguage
  }

  /** What the effect persists is what the next start picks up (an empty choice falls
      back to English). */
  lemma PersistedLanguageRestored(storage: map<string, string>, language: string)
    ensures language != "" ==> InitialLanguage(storage[LanguageKey := language]) == language
    ensures language == "" ==> InitialLanguage(storage[LanguageKey := language]) == DefaultLanguage
  {
  }

  /** `useLanguage`: the context value, or the error thrown outside a provider. */
  function UseLanguage<C>(context: Option<C>): (r: Outcome<C>)
    ensures context.Some? ==> r == Ok(context.value)
    ensures context.None? ==> r == Err(Failure(UseLanguageOutsideProvider, ""))
  {
    match context
    case Some(c) => Ok(c)
    case None => Err(Failure(UseLanguageOutsideProvider, ""))
  }

  class LanguageProvider {
    var currentLanguage: string
    var storage: map<string, string>
    /** The language last given to the translation library. */
    var translationLanguage: Option<string>

    constructor (storage: map<string, string>)
      ensures currentLanguage == InitialLanguage(storage)
      ensures this.storage == storage && translationLanguage.None?
    {
      currentLanguage := InitialLanguage(storage);
      this.storage := storage;
      translationLanguage := None;
    }

    method ChangeLanguage(language: string)
      modifies this
      ensures currentLanguage == language
      ensures storage == old(storage) && translationLanguage == old(translationLanguage)
    {
      currentLanguage := language;
    }

    /** The effect after a render: the translation library and storage both take the
        current language, and a later start would restore it. */
    method SyncEffect()
      modifies this
      ensures translationLanguage == Some(currentLanguage)
      ensures storage == old(storage)[LanguageKey := currentLanguage]
      ensures currentLanguage != "" ==> InitialLanguage(storage) == currentLanguage
      ensures currentLanguage == old(currentLanguage)
    {
      translationLanguage := Some(currentLanguage);
      storage := storage[LanguageKey := currentLanguage];
    }
  }
}
