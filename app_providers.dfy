/** src/app/providers.tsx: the effect that keeps the stored interface language valid. Only
    Turkish and English are supported; anything else stored (or nothing) is replaced by
    Turkish, which also becomes the active language. */
module AppProviders {
  import opened Common

  const LanguageKey: string := "i18nextLng"

  predicate Supported(lang: Option<string>) {
    lang == Some("tr") || lang == Some("en")
  }

  /** The storage the effect leaves behind. */
  function NormalizedStore(items: map<string, string>): (r: map<string, string>)
    ensures Supported(Lookup(r, LanguageKey))
    ensures Supported(Lookup(items, LanguageKey)) ==> r == items
    ensures !Supported(Lookup(items, LanguageKey)) ==> r == items[LanguageKey := "tr"]
  {
    if Supported(Lookup(items, LanguageKey)) then items else items[LanguageKey := "tr"]
  }

  /** Running the effect twice leaves the same storage as running it once. */
  lemma NormalizedStoreIdempotent(items: map<string, string>)
    ensures NormalizedStore(NormalizedStore(items)) == NormalizedStore(items)
  {
  }

  /** The effect. It returns the language passed to `changeLanguage`, if it was called. */
  method NormalizeLanguage(storage: LocalStorage) returns (changedTo: Option<string>)
    modifies storage
    ensures storage.items == NormalizedStore(old(storage.items))
    ensures changedTo == (if Supported(Lookup(old(storage.items), LanguageKey)) then None else Some("tr"))
  {
    var storedLang := storage.GetItem(LanguageKey);
    changedTo := None;
    if !Truthy(storedLang) || (storedLang.value != "tr" && storedLang.value != "en") {
      changedTo := Some("tr");
      storage.SetItem(LanguageKey, "tr");
    }
  }
}
