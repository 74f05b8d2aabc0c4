/**
  * The glossary spelling store (`src/stores/glossarySpelling.ts`). Apart from
  * its update action it behaves as a catalog store over spellings sorted by
  * `spelling`. The update as written looks the entry up in the spelling list
  * but stores the answer into a second array, `glossary`, so the list keeps
  * the stale entry; `UpdateAsWritten` models that, and the store itself uses
  * the catalog update, which replaces the entry in the list.
  */
module GlossarySpellings {
  import opened Wrappers
  import opened Api
  import opened Lists
  import opened Catalog

  datatype SpellingFields = SpellingFields(glossaryId: string, languageId: string, spelling: string)

  type Spelling = Resource<SpellingFields>

  function SpellingText(f: SpellingFields): string
  {
    f.spelling
  }

  const SpellingMessages := Messages(
    "Failed to fetch glossary spellings",
    "Failed to fetch glossary spelling entry with ID: ",
    "Failed to create glossary spelling entry",
    "Failed to update glossary spelling entry",
    "Failed to delete glossary spelling entry")

  /** `useGlossarySpellingStore`: an empty store sorted by `spelling`. */
  method NewSpellingStore() returns (store: CatalogStore<SpellingFields>)
    ensures fresh(store) && store.messages == SpellingMessages && store.name == SpellingText
    ensures store.entries == [] && store.current == None && !store.loading && store.error == None
  {
    store := new CatalogStore(SpellingMessages, SpellingText);
  }

  /** JavaScript `array[index] = x`: in place below the length, otherwise the
    * array grows, with holes (None) between its old end and `index`. */
  function StoreAt<T>(a: seq<Option<T>>, index: nat, x: T): (r: seq<Option<T>>)
    ensures |r| == if index < |a| then |a| else index + 1
    ensures r[index] == Some(x)
    ensures forall j :: 0 <= j < |a| && j != index ==> r[j] == a[j]
    ensures forall j :: |a| <= j < |r| && j != index ==> r[j] == None
  {
    if index < |a| then a[index := Some(x)]
    else a + seq(index - |a|, _ => None) + [Some(x)]
  }

  /** The list and the `glossary` array after the update as written: the
    * position is found in the list, the answer is stored in the array. */
  function UpdateAsWritten<F>(entries: seq<Resource<F>>, glossary: seq<Option<Resource<F>>>, id: string, x: Resource<F>)
    : (r: (seq<Resource<F>>, seq<Option<Resource<F>>>))
    ensures r.0 == entries
    ensures IndexOf(entries, id) == -1 ==> r.1 == glossary
    ensures IndexOf(entries, id) != -1 ==>
              |r.1| == (if IndexOf(entries, id) < |glossary| then |glossary| else IndexOf(entries, id) + 1)
    ensures IndexOf(entries, id) != -1 ==>
              r.1[IndexOf(entries, id)] == Some(x)
              && forall j :: 0 <= j < |glossary| && j != IndexOf(entries, id) ==> r.1[j] == glossary[j]
  {
    var index := IndexOf(entries, id);
    if index == -1 then (entries, glossary) else (entries, StoreAt(glossary, index, x))
  }

  /** As written, an update of a listed entry leaves the list's entry stale: the
    * lookup still finds the old record and never the answer, while the answer
    * lands in `glossary`. */
  lemma {:induction false} UpdateAsWrittenLeavesListStale<F>(entries: seq<Resource<F>>, glossary: seq<Option<Resource<F>>>, id: string, x: Resource<F>)
    requires x.id == id
    requires Find(entries, id).Some? && Find(entries, id).value != x
    ensures UpdateAsWritten(entries, glossary, id, x).0 == entries
    ensures Find(UpdateAsWritten(entries, glossary, id, x).0, id) != Some(x)
    ensures UpdateAsWritten(entries, glossary, id, x).1[IndexOf(entries, id)] == Some(x)
  {
  }

  /** The smallest case: one listed spelling, an empty `glossary`. */
  lemma UpdateAsWrittenExample()
    ensures var old_ := Resource("s1", SpellingFields("g", "eng", "colour"));
            var new_ := Resource("s1", SpellingFields("g", "eng", "color"));
            UpdateAsWritten([old_], [], "s1", new_) == ([old_], [Some(new_)])
            && Find([old_], "s1") == Some(old_)
  {
    var old_ := Resource("s1", SpellingFields("g", "eng", "colour"));
    var new_ := Resource("s1", SpellingFields("g", "eng", "color"));
    assert IndexOf([old_], "s1") == 0;
    var stored := StoreAt([], 0, new_);
    assert |stored| == 1 && stored[0] == Some(new_);
    assert stored == [Some(new_)];
  }

  /** The corrected update (the catalog store's) makes the lookup find the answer. */
  lemma {:induction false} UpdateFindsAnswer(entries: seq<Spelling>, id: string, x: Spelling)
    requires x.id == id && Find(entries, id).Some?
    ensures Find(ReplaceFirst(entries, id, x), id) == Some(x)
  {
    FindAfterReplace(entries, id, x);
  }
}
