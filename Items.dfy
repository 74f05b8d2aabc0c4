/** The item store (`src/stores/item.ts`), a catalog store over items. */
module Items {
  import opened Wrappers
  import opened Api
  import opened Catalog

  datatype ItemFields = ItemFields(
    internalName: string,
    backwardCompatibility: Option<string>,
    partnerId: Option<string>,
    projectId: Option<string>)

  type Item = Resource<ItemFields>

  function ItemName(f: ItemFields): string
  {
    f.internalName
  }

  const ItemMessages := Messages(
    "Failed to fetch items",
    "Failed to fetch item with ID: ",
    "Failed to create item",
    "Failed to update item",
    "Failed to delete item")

  /** `useItemStore`: an empty store sorted by `internal_name`. */
  method NewItemStore() returns (store: CatalogStore<ItemFields>)
    ensures fresh(store) && store.messages == ItemMessages && store.name == ItemName
    ensures store.entries == [] && store.current == None && !store.loading && store.error == None
  {
    store := new CatalogStore(ItemMessages, ItemName);
  }
}
