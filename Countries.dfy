/** The country store (`src/stores/country.ts`), a catalog store over countries. */
module Countries {
  import opened Wrappers
  import opened Api
  import opened Catalog

  datatype CountryFields = CountryFields(internalName: string, backwardCompatibility: Option<string>)

  type Country = Resource<CountryFields>

  function CountryName(f: CountryFields): string
  {
    f.internalName
  }

  const CountryMessages := Messages(
    "Failed to fetch countries",
    "Failed to fetch country with ID: ",
    "Failed to create country",
    "Failed to update country",
    "Failed to delete country")

  /** `useCountryStore`: an empty store sorted by `internal_name`. */
  method NewCountryStore() returns (store: CatalogStore<CountryFields>)
    ensures fresh(store) && store.messages == CountryMessages && store.name == CountryName
    ensures store.entries == [] && store.current == None && !store.loading && store.error == None
  {
    store := new CatalogStore(CountryMessages, CountryName);
  }
}
