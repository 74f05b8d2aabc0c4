/**
  * The glossary translation store (`src/stores/glossaryTranslation.ts`): the
  * spelling store's twin over translations, with the same misdirected update
  * (`GlossarySpellings.UpdateAsWritten`) and no sorted getter.
  */
module GlossaryTranslations {
  import opened Wrappers
  import opened Api
  import opened Catalog

  datatype TranslationFields = TranslationFields(glossaryId: string, languageId: string, translation: string)

  type Translation = Resource<TranslationFields>

  function TranslationText(f: TranslationFields): string
  {
    f.translation
  }

  const TranslationMessages := Messages(
    "Failed to fetch glossary translations",
    "Failed to fetch glossary translation entry with ID: ",
    "Failed to create glossary translation entry",
    "Failed to update glossary translation entry",
    "Failed to delete glossary translation entry")

  /** `useGlossaryTranslationStore`: an empty store. */
  method NewTranslationStore() returns (store: CatalogStore<TranslationFields>)
    ensures fresh(store) && store.messages == TranslationMessages && store.name == TranslationText
    ensures store.entries == [] && store.current == None && !store.loading && store.error == None
  {
    store := new CatalogStore(TranslationMessages, TranslationText);
  }
}
