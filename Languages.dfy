/**
  * The language store (`src/stores/language.ts`): a cache of the API's languages
  * that loads every page once, keeps itself sorted by `internal_name` when
  * it grows, and mirrors create/update/delete/set-default on the cached list.
  */
module Languages {
  import opened Wrappers
  import opened Api
  import opened Lists
  import opened Reference

  type Language = ReferenceRecord

  const LoadFailed := "Failed to load languages"
  const FetchFailed := "Failed to fetch language"
  const CreateFailed := "Failed to create language"
  const UpdateFailed := "Failed to update language"
  const DeleteFailed := "Failed to delete language"
  const SetDefaultFailed := "Failed to set default language"
  const GetDefaultFailed := "Failed to get default language"

  /** `sortLanguages`: a copy ordered by `internal_name`. */
  function SortLanguages(s: seq<Language>): seq<Language>
  {
    SortByName(s, InternalName)
  }

  /** `meta.last_page ?? 1` */
  function LastPage(p: Page<Language>): int
  {
    if p.lastPage.Some? then p.lastPage.value else 1
  }

  /** Pages `from`..`last` of the index, concatenated in page order, or None
    * when any of those requests fails (`Promise.all` rejects). */
  function Pages(server: nat -> Call<Page<Language>>, from: nat, last: int): Option<seq<Language>>
    decreases last - from
  {
    if from > last then Some([])
    else match server(from)
      case Threw(_) => None
      case Returned(p) => Prepend(DataOrEmpty(p.data), Pages(server, from + 1, last))
  }

  /** Everything `loadAll` collects before sorting: page 1, then pages
    * 2..`last_page` as page 1 announced it. */
  function Fetched(server: nat -> Call<Page<Language>>): Option<seq<Language>>
  {
    match server(1)
    case Threw(_) => None
    case Returned(first) => Prepend(DataOrEmpty(first.data), Pages(server, 2, LastPage(first)))
  }

  /** A single-page index is read from page 1 alone: no later page is consulted. */
  lemma {:induction false} FetchedSinglePage(server: nat -> Call<Page<Language>>, other: nat -> Call<Page<Language>>)
    requires server(1).Returned? && LastPage(server(1).value) <= 1
    requires other(1) == server(1)
    ensures Fetched(server) == Fetched(other) == Some(DataOrEmpty(server(1).value.data))
  {
    var d := DataOrEmpty(server(1).value.data);
    assert d + [] == d;
  }

  /** One failed page among 2..`last_page` fails the whole load. */
  lemma {:induction false} PagesAllOrNothing(server: nat -> Call<Page<Language>>, from: nat, last: int, k: nat)
    requires from <= k <= last && server(k).Threw?
    ensures Pages(server, from, last) == None
    decreases last - from
  {
    if from < k && server(from).Returned? {
      PagesAllOrNothing(server, from + 1, last, k);
    }
  }

  lemma {:induction false} FetchedAllOrNothing(server: nat -> Call<Page<Language>>, k: nat)
    requires server(1).Returned? && 2 <= k <= LastPage(server(1).value) && server(k).Threw?
    ensures Fetched(server) == None
  {
    PagesAllOrNothing(server, 2, LastPage(server(1).value), k);
  }

  /** The cache after `updateInCache(x)`. */
  function CacheWith(cache: seq<Language>, isLoaded: bool, x: Language): seq<Language>
  {
    if IndexOf(cache, x.id) != -1 then ReplaceFirst(cache, x.id, x)
    else if isLoaded then SortLanguages(cache + [x])
    else cache
  }

  /** `updateInCache` replaces only the first entry with the record's id, in place;
    * an unknown record is appended and the cache re-sorted only once it is loaded. */
  lemma {:induction false} CacheWithSpec(cache: seq<Language>, isLoaded: bool, x: Language)
    ensures Find(cache, x.id).Some? ==>
              |CacheWith(cache, isLoaded, x)| == |cache|
              && Find(CacheWith(cache, isLoaded, x), x.id) == Some(x)
              && forall other :: other != x.id ==> Find(CacheWith(cache, isLoaded, x), other) == Find(cache, other)
    ensures Find(cache, x.id).None? && isLoaded ==>
              multiset(CacheWith(cache, isLoaded, x)) == multiset(cache) + multiset{x}
              && SortedBy(CacheWith(cache, isLoaded, x), InternalName)
    ensures Find(cache, x.id).None? && !isLoaded ==> CacheWith(cache, isLoaded, x) == cache
  {
    if Find(cache, x.id).Some? {
      FindAfterReplace(cache, x.id, x);
      forall other | other != x.id
        ensures Find(CacheWith(cache, isLoaded, x), other) == Find(cache, other)
      {
        ReplaceKeepsOthers(cache, x.id, x, other);
      }
    } else if isLoaded {
      SortByNameSpec(cache + [x], InternalName);
    }
  }

  /** `createLanguage` leaves a sorted cache holding the old entries plus the new one. */
  lemma {:induction false} CreatedCacheSorted(cache: seq<Language>, x: Language)
    ensures multiset(SortLanguages(cache + [x])) == multiset(cache) + multiset{x}
    ensures SortedBy(SortLanguages(cache + [x]), InternalName)
  {
    SortByNameSpec(cache + [x], InternalName);
  }

  class LanguageStore {
    var languages: seq<Language>
    var isLoaded: bool
    var loading: bool
    var currentLanguage: Option<Language>
    var error: Option<string>

    constructor()
      ensures languages == [] && !isLoaded && !loading && currentLanguage == None && error == None
    {
      languages := [];
      isLoaded := false;
      loading := false;
      currentLanguage := None;
      error := None;
    }

    /** `defaultLanguage`: the first cached language flagged as default. */
    function DefaultLanguage(): (r: Option<Language>)
      reads this
      ensures r == None <==> forall j :: 0 <= j < |languages| ==> !IsDefault(languages[j])
      ensures r.Some? ==> exists k :: 0 <= k < |languages| && languages[k] == r.value && IsDefault(r.value)
                            && forall j :: 0 <= j < k ==> !IsDefault(languages[j])
    {
      var k := FirstIndex(languages, IsDefault);
      if k == -1 then None else Some(languages[k])
    }

    /** `defaultLanguages`: every default language, in cache order. */
    function DefaultLanguages(): (r: seq<Language>)
      reads this
      ensures forall l :: l in r <==> l in languages && IsDefault(l)
      ensures SubsequenceOf(r, languages)
    {
      Filter(languages, IsDefault)
    }

    /** `ensureLoaded`: answers from the cache once loaded, otherwise loads. */
    method EnsureLoaded(server: nat -> Call<Page<Language>>) returns (r: Call<seq<Language>>)
      modifies this
      ensures old(isLoaded) || old(loading) ==>
                r == Returned(old(languages)) && languages == old(languages) && isLoaded == old(isLoaded)
                && loading == old(loading) && error == old(error)
      ensures !old(isLoaded) && !old(loading) && Fetched(server).Some? ==>
                r == Returned(languages) && languages == SortLanguages(Fetched(server).value)
                && isLoaded && !loading && error == None
      ensures !old(isLoaded) && !old(loading) && Fetched(server).None? ==>
                r.Threw? && languages == old(languages) && !isLoaded && !loading && error == Some(LoadFailed)
      ensures currentLanguage == old(currentLanguage)
    {
      if isLoaded {
        return Returned(languages);
      }
      if loading {
        // Another load is in flight; the model is sequential, so the wait ends at once.
        return Returned(languages);
      }
      var done := LoadAll(server);
      r := if done.Returned? then Returned(languages) else Threw(done.message);
    }

    /** `loadAll`: page 1, then pages 2..`last_page`, sorted into the cache;
      * it resolves to nothing. */
    method LoadAll(server: nat -> Call<Page<Language>>) returns (r: Call<()>)
      modifies this
      ensures !loading && currentLanguage == old(currentLanguage)
      ensures Fetched(server).Some? ==>
                languages == SortLanguages(Fetched(server).value) && isLoaded && error == None
                && r == Returned(())
      ensures Fetched(server).None? ==>
                languages == old(languages) && isLoaded == old(isLoaded) && error == Some(LoadFailed) && r.Threw?
    {
      loading := true;
      error := None;
      var firstReply := server(1);
      if firstReply.Threw? {
        error := Some(LoadFailed);
        loading := false;
        return Threw(firstReply.message);
      }
      var firstPage := DataOrEmpty(firstReply.value.data);
      var totalPages := LastPage(firstReply.value);
      if totalPages == 1 {
        assert firstPage + [] == firstPage;
        languages := SortLanguages(firstPage);
      } else {
        var all := firstPage;
        var page: nat := 2;
        while page <= totalPages
          invariant Fetched(server) == Prepend(all, Pages(server, page, totalPages))
          decreases totalPages - page
        {
          var reply := server(page);
          if reply.Threw? {
            error := Some(LoadFailed);
            loading := false;
            return Threw(reply.message);
          }
          var data := DataOrEmpty(reply.value.data);
          assert Pages(server, page, totalPages) == Prepend(data, Pages(server, page + 1, totalPages));
          assert forall rest: seq<Language> :: all + (data + rest) == (all + data) + rest;
          all := all + data;
          page := page + 1;
        }
        assert all + [] == all;
        languages := SortLanguages(all);
      }
      isLoaded := true;
      loading := false;
      r := Returned(());
    }

    /** `refresh`: forget the loaded flag, load again and read the cache back. */
    method Refresh(server: nat -> Call<Page<Language>>) returns (r: Call<seq<Language>>)
      modifies this
      ensures !loading && currentLanguage == old(currentLanguage)
      ensures Fetched(server).Some? ==>
                languages == SortLanguages(Fetched(server).value) && isLoaded && error == None
                && r == Returned(languages)
      ensures Fetched(server).None? ==>
                languages == old(languages) && !isLoaded && error == Some(LoadFailed) && r.Threw?
    {
      isLoaded := false;
      var done := LoadAll(server);
      r := if done.Returned? then Returned(languages) else Threw(done.message);
    }

    /** `updateInCache` */
    method UpdateInCache(x: Language)
      modifies this
      ensures languages == CacheWith(old(languages), isLoaded, x)
      ensures isLoaded == old(isLoaded) && loading == old(loading) && error == old(error)
      ensures currentLanguage == old(currentLanguage)
    {
      var index := IndexOf(languages, x.id);
      if index != -1 {
        languages := languages[index := x];
      } else if isLoaded {
        languages := SortLanguages(languages + [x]);
      }
    }

    /** `fetchLanguage`: becomes the current language and refreshes the cache. */
    method FetchLanguage(id: string, reply: Call<Language>) returns (r: Call<Language>)
      modifies this
      ensures r == reply && !loading && isLoaded == old(isLoaded)
      ensures reply.Returned? ==>
                currentLanguage == Some(reply.value) && error == None
                && languages == CacheWith(old(languages), isLoaded, reply.value)
      ensures reply.Threw? ==>
                currentLanguage == old(currentLanguage) && error == Some(FetchFailed) && languages == old(languages)
    {
      loading := true;
      error := None;
      if reply.Threw? {
        error := Some(FetchFailed);
      } else {
        currentLanguage := Some(reply.value);
        UpdateInCache(reply.value);
      }
      loading := false;
      r := reply;
    }

    /** `createLanguage`: the new language joins the cache, which is re-sorted. */
    method CreateLanguage(reply: Call<Language>) returns (r: Call<Language>)
      modifies this
      ensures r == reply && !loading && isLoaded == old(isLoaded) && currentLanguage == old(currentLanguage)
      ensures reply.Returned? ==> languages == SortLanguages(old(languages) + [reply.value]) && error == None
      ensures reply.Threw? ==> languages == old(languages) && error == Some(CreateFailed)
    {
      loading := true;
      error := None;
      if reply.Threw? {
        error := Some(CreateFailed);
      } else {
        languages := SortLanguages(languages + [reply.value]);
      }
      loading := false;
      r := reply;
    }

    /** `updateLanguage(id, …)`: refreshes the cache and, on id match, the current language. */
    method UpdateLanguage(id: string, reply: Call<Language>) returns (r: Call<Language>)
      modifies this
      ensures r == reply && !loading && isLoaded == old(isLoaded)
      ensures reply.Returned? ==>
                languages == CacheWith(old(languages), isLoaded, reply.value) && error == None
                && currentLanguage == (if old(currentLanguage).Some? && old(currentLanguage).value.id == id
                                       then Some(reply.value) else old(currentLanguage))
      ensures reply.Threw? ==>
                languages == old(languages) && currentLanguage == old(currentLanguage) && error == Some(UpdateFailed)
    {
      loading := true;
      error := None;
      if reply.Threw? {
        error := Some(UpdateFailed);
      } else {
        UpdateInCache(reply.value);
        if currentLanguage.Some? && currentLanguage.value.id == id {
          currentLanguage := Some(reply.value);
        }
      }
      loading := false;
      r := reply;
    }

    /** `deleteLanguage(id)`: drops every cached entry with the id and a matching current language. */
    method DeleteLanguage(id: string, reply: Call<()>) returns (r: Call<()>)
      modifies this
      ensures r == reply && !loading && isLoaded == old(isLoaded)
      ensures reply.Returned? ==>
                languages == RemoveId(old(languages), id) && error == None
                && currentLanguage == (if old(currentLanguage).Some? && old(currentLanguage).value.id == id
                                       then None else old(currentLanguage))
      ensures reply.Threw? ==>
                languages == old(languages) && currentLanguage == old(currentLanguage) && error == Some(DeleteFailed)
    {
      loading := true;
      error := None;
      if reply.Threw? {
        error := Some(DeleteFailed);
      } else {
        languages := RemoveId(languages, id);
        if currentLanguage.Some? && currentLanguage.value.id == id {
          currentLanguage := None;
        }
      }
      loading := false;
      r := reply;
    }

    /** `setDefaultLanguage(id, isDefault)`: the single-default rewrite of the cache. */
    method SetDefaultLanguage(id: string, isDefault: bool, reply: Call<Language>) returns (r: Call<Language>)
      modifies this
      ensures r == reply && !loading && isLoaded == old(isLoaded)
      ensures reply.Returned? ==>
                languages == MarkDefault(old(languages), id, isDefault) && error == None
                && currentLanguage == (if old(currentLanguage).Some? && old(currentLanguage).value.id == id
                                       then Some(reply.value) else old(currentLanguage))
      ensures reply.Threw? ==>
                languages == old(languages) && currentLanguage == old(currentLanguage) && error == Some(SetDefaultFailed)
    {
      loading := true;
      error := None;
      if reply.Threw? {
        error := Some(SetDefaultFailed);
      } else {
        languages := MarkDefault(languages, id, isDefault);
        if currentLanguage.Some? && currentLanguage.value.id == id {
          currentLanguage := Some(reply.value);
        }
      }
      loading := false;
      r := reply;
    }

    /** `getDefaultLanguage`: the server's default refreshes the cache. */
    method GetDefaultLanguage(reply: Call<Language>) returns (r: Call<Language>)
      modifies this
      ensures r == reply && !loading && isLoaded == old(isLoaded) && currentLanguage == old(currentLanguage)
      ensures reply.Returned? ==> languages == CacheWith(old(languages), isLoaded, reply.value) && error == None
      ensures reply.Threw? ==> languages == old(languages) && error == Some(GetDefaultFailed)
    {
      loading := true;
      error := None;
      if reply.Threw? {
        error := Some(GetDefaultFailed);
      } else {
        UpdateInCache(reply.value);
      }
      loading := false;
      r := reply;
    }

    method ClearError()
      modifies this
      ensures error == None
      ensures languages == old(languages) && isLoaded == old(isLoaded) && loading == old(loading)
      ensures currentLanguage == old(currentLanguage)
    {
      error := None;
    }

    method ClearCurrentLanguage()
      modifies this
      ensures currentLanguage == None
      ensures languages == old(languages) && isLoaded == old(isLoaded) && loading == old(loading)
      ensures error == old(error)
    {
      currentLanguage := None;
    }
  }
}
