/**
  * The store shape that `src/stores/country.ts`, `src/stores/item.ts` and
  * `src/stores/glossary.ts` share line for line: a list with a sorted copy and
  * a count, a current entry, and actions that catch every failure, record an
  * error text and answer null or false instead of throwing.
  */
module Catalog {
  import opened Wrappers
  import opened Api
  import opened Lists
  import Sorting

  /** The error texts one store sets; the single-entry fetch appends the id. */
  datatype Messages = Messages(
    fetchAll: string,
    fetchOneWithId: string,
    create: string,
    update: string,
    delete: string)

  class CatalogStore<F(!new)> {
    const messages: Messages
    /** The field the sorted copy orders by (`internal_name`). */
    const name: F -> string
    var entries: seq<Resource<F>>
    var current: Option<Resource<F>>
    var loading: bool
    var error: Option<string>

    constructor(messages: Messages, name: F -> string)
      ensures this.messages == messages && this.name == name
      ensures entries == [] && current == None && !loading && error == None
    {
      this.messages := messages;
      this.name := name;
      entries := [];
      current := None;
      loading := false;
      error := None;
    }

    /** `sortedCountries`/`sortedItems`/`sortedGlossaryEntries`: a sorted copy;
      * the list itself keeps its order. */
    function SortedEntries(): (r: seq<Resource<F>>)
      reads this
      ensures multiset(r) == multiset(entries)
      ensures SortedBy(r, name)
      ensures Sorting.Stable(entries, r, ByName(name))
    {
      SortByNameSpec(entries, name);
      SortByName(entries, name)
    }

    /** `countriesCount`/`itemsCount`/`glossaryEntriesCount` */
    function Count(): (n: nat)
      reads this
      ensures n == |entries| == |SortedEntries()|
    {
      assert |multiset(SortedEntries())| == |multiset(entries)|;
      |entries|
    }

    /** `findCountryById`/`findItemById`/`findGlossaryEntryById` */
    function FindById(id: string): (r: Option<Resource<F>>)
      reads this
      ensures r == None <==> forall j :: 0 <= j < |entries| ==> entries[j].id != id
      ensures r.Some? ==> r.value.id == id && r.value == entries[IndexOf(entries, id)]
    {
      Find(entries, id)
    }

    /** The index fetch: the payload replaces the list, or `[]` when it has no
      * data or the call fails; nothing is thrown. */
    method FetchAll(reply: Call<Option<seq<Resource<F>>>>)
      modifies this
      ensures !loading && current == old(current)
      ensures reply.Returned? ==> entries == DataOrEmpty(reply.value) && error == None
      ensures reply.Threw? ==> entries == [] && error == Some(messages.fetchAll)
    {
      loading := true;
      error := None;
      if reply.Threw? {
        error := Some(messages.fetchAll);
        entries := [];
      } else {
        entries := DataOrEmpty(reply.value);
      }
      loading := false;
    }

    /** The single fetch: the current entry is cleared first and stays cleared
      * unless the answer carries the entry; the error text names the id. */
    method FetchOne(id: string, reply: Call<Option<Resource<F>>>)
      modifies this
      ensures !loading && entries == old(entries)
      ensures reply.Returned? && reply.value.Some? ==> current == reply.value && error == None
      ensures !(reply.Returned? && reply.value.Some?) ==>
                current == None && error == Some(messages.fetchOneWithId + id)
    {
      loading := true;
      error := None;
      current := None;
      if reply.Returned? && reply.value.Some? {
        current := reply.value;
      } else {
        error := Some(messages.fetchOneWithId + id);
        current := None;
      }
      loading := false;
    }

    /** Create: the new entry is appended and returned; otherwise null. */
    method Create(reply: Call<Option<Resource<F>>>) returns (r: Option<Resource<F>>)
      modifies this
      ensures !loading && current == old(current)
      ensures reply.Returned? && reply.value.Some? ==>
                r == reply.value && entries == old(entries) + [reply.value.value] && error == None
      ensures !(reply.Returned? && reply.value.Some?) ==>
                r == None && entries == old(entries) && error == Some(messages.create)
    {
      loading := true;
      error := None;
      if reply.Returned? && reply.value.Some? {
        entries := entries + [reply.value.value];
        r := reply.value;
      } else {
        error := Some(messages.create);
        r := None;
      }
      loading := false;
    }

    /** Update: the first entry with `id`, and a matching current entry, become
      * the answer, which is returned; otherwise null. */
    method Update(id: string, reply: Call<Option<Resource<F>>>) returns (r: Option<Resource<F>>)
      modifies this
      ensures !loading
      ensures reply.Returned? && reply.value.Some? ==>
                r == reply.value && entries == ReplaceFirst(old(entries), id, reply.value.value) && error == None
                && current == (if old(current).Some? && old(current).value.id == id then reply.value else old(current))
      ensures !(reply.Returned? && reply.value.Some?) ==>
                r == None && entries == old(entries) && current == old(current) && error == Some(messages.update)
    {
      loading := true;
      error := None;
      if reply.Returned? && reply.value.Some? {
        var updated := reply.value.value;
        var index := IndexOf(entries, id);
        if index != -1 {
          entries := entries[index := updated];
        }
        if current.Some? && current.value.id == id {
          current := Some(updated);
        }
        r := Some(updated);
      } else {
        error := Some(messages.update);
        r := None;
      }
      loading := false;
    }

    /** Delete: every entry with `id` goes, and a matching current entry; the
      * answer says whether the call succeeded. */
    method Delete(id: string, reply: Call<()>) returns (deleted: bool)
      modifies this
      ensures !loading && deleted == reply.Returned?
      ensures deleted ==>
                entries == RemoveId(old(entries), id) && error == None
                && current == (if old(current).Some? && old(current).value.id == id then None else old(current))
      ensures !deleted ==> entries == old(entries) && current == old(current) && error == Some(messages.delete)
    {
      loading := true;
      error := None;
      if reply.Returned? {
        entries := RemoveId(entries, id);
        if current.Some? && current.value.id == id {
          current := None;
        }
        deleted := true;
      } else {
        error := Some(messages.delete);
        deleted := false;
      }
      loading := false;
    }

    method ClearCurrent()
      modifies this
      ensures current == None && entries == old(entries) && loading == old(loading) && error == old(error)
    {
      current := None;
    }

    method ClearError()
      modifies this
      ensures error == None && entries == old(entries) && current == old(current) && loading == old(loading)
    {
      error := None;
    }
  }
}
