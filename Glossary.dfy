/** The glossary store (`src/stores/glossary.ts`), a catalog store over glossary entries. */
module Glossary {
  import opened Wrappers
  import opened Api
  import opened Catalog

  datatype GlossaryFields = GlossaryFields(internalName: string, backwardCompatibility: Option<string>)

  type GlossaryEntry = Resource<GlossaryFields>

  function GlossaryName(f: GlossaryFields): string
  {
    f.internalName
  }

  const GlossaryMessages := Messages(
    "Failed to fetch glossary",
    "Failed to fetch glossary entry with ID: ",
    "Failed to create glossary entry",
    "Failed to update glossary entry",
    "Failed to delete glossary entry")

  /** `useGlossaryStore`: an empty store sorted by `internal_name`. */
  method NewGlossaryStore() returns (store: CatalogStore<GlossaryFields>)
    ensures fresh(store) && store.messages == GlossaryMessages && store.name == GlossaryName
    ensures store.entries == [] && store.current == None && !store.loading && store.error == None
  {
    store := new CatalogStore(GlossaryMessages, GlossaryName);
  }
}
