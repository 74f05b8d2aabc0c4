/**
  * The partner store (`src/stores/partner.ts`): one page of partners with its
  * pagination links, a separately kept list of all partners collected page by
  * page, a current partner, and create/update/delete mirrored on the page.
  */
module Partners {
  import opened Wrappers
  import opened Api
  import opened Lists
  import opened Strings
  import opened Pagination
  import Sorting

  datatype PartnerFields = PartnerFields(
    internalName: string,
    kind: string,
    backwardCompatibility: Option<string>,
    countryId: Option<string>)

  type Partner = Resource<PartnerFields>

  function PartnerName(f: PartnerFields): string
  {
    f.internalName
  }

  /** What `partnerIndex(page, perPage)` answers: `data`, `links` and `meta`,
    * each possibly absent. */
  datatype PartnerIndex = PartnerIndex(data: Option<seq<Partner>>, links: Option<PageLinks>, meta: Option<PageMeta>)

  const FetchPartnersFailed := "Failed to fetch partners"
  const FetchAllFailed := "Failed to fetch all partners"
  const FetchPartnerFailed := "Failed to fetch partner with ID: "
  const CreateFailed := "Failed to create partner"
  const UpdateFailed := "Failed to update partner"
  const DeleteFailed := "Failed to delete partner"

  /** The page size `fetchAllPartners` asks for. */
  const AllPartnersPageSize := 100

  /** A page announces a next one when its meta says `current_page < last_page`. */
  predicate HasMore(index: PartnerIndex)
  {
    index.meta.Some? && index.meta.value.currentPage < index.meta.value.lastPage
  }

  /** The collecting loop ends at a page that fails or announces no next page. */
  predicate Stops(reply: Call<PartnerIndex>)
  {
    reply.Threw? || !HasMore(reply.value)
  }

  /** The partners of pages `page`, `page + 1`, ... up to the first page that
    * announces no next one, or None when a request on the way fails. `bound` is
    * any page at which the collection is known to stop. */
  function Collect(server: nat -> Call<PartnerIndex>, page: nat, bound: nat): Option<seq<Partner>>
    requires page <= bound && Stops(server(bound))
    decreases bound - page
  {
    match server(page)
    case Threw(_) => None
    case Returned(index) =>
      if HasMore(index) then Prepend(DataOrEmpty(index.data), Collect(server, page + 1, bound))
      else Some(DataOrEmpty(index.data))
  }

  /** The collection does not depend on which stopping page bounds it. */
  lemma {:induction false} CollectBoundIndependent(server: nat -> Call<PartnerIndex>, page: nat, b1: nat, b2: nat)
    requires page <= b1 && Stops(server(b1))
    requires page <= b2 && Stops(server(b2))
    ensures Collect(server, page, b1) == Collect(server, page, b2)
    decreases b1 - page
  {
    if server(page).Returned? && HasMore(server(page).value) {
      CollectBoundIndependent(server, page + 1, b1, b2);
    }
  }

  /** When any page on the way fails, nothing is collected. */
  lemma {:induction false} CollectAllOrNothing(server: nat -> Call<PartnerIndex>, page: nat, bound: nat, k: nat)
    requires page <= k <= bound && Stops(server(bound))
    requires forall j :: page <= j < k ==> server(j).Returned? && HasMore(server(j).value)
    requires server(k).Threw?
    ensures Collect(server, page, bound) == None
    decreases k - page
  {
    if page < k {
      CollectAllOrNothing(server, page + 1, bound, k);
    }
  }

  function SortPartners(s: seq<Partner>): seq<Partner>
  {
    SortByName(s, PartnerName)
  }

  /** The meta `fetchAllPartners` installs: one page, labelled "1". */
  const SinglePageMeta := PageMeta(1, 1, [
    MetaLink(Null, "pagination.previous", false),
    MetaLink(Null, "1", true),
    MetaLink(Null, "pagination.next", false)])

  lemma StepLabelsAreSteps()
    ensures IsStepLink(MetaLink(Null, "pagination.previous", false))
    ensures IsStepLink(MetaLink(Null, "pagination.next", false))
  {
    LowerLabelContains("pagination.previous", 11, "previous");
    LowerLabelContains("pagination.next", 11, "next");
  }

  /** A label text without capitals that holds `word` at `k` still holds it once lowered. */
  lemma {:induction false} LowerLabelContains(text: string, k: nat, word: string)
    requires forall i :: 0 <= i < |text| ==> !('A' <= text[i] <= 'Z')
    requires k + |word| <= |text| && text[k..k + |word|] == word
    ensures Contains(ToLower(text), word)
  {
    ToLowerKeepsLower(text);
    assert text[k..][..|word|] == word;
    ContainsIff(text, word);
  }

  lemma PageNumberLabelIsNumbered()
    ensures IsNumberedLink(MetaLink(Null, "1", true))
  {
    ToLowerKeepsLower("1");
    ContainsIff("1", "previous");
    ContainsIff("1", "next");
  }

  /** The installed meta renders exactly one page button, the active "1". */
  lemma SinglePageMetaShowsOneButton()
    ensures FilteredLinks(SinglePageMeta.links) == [MetaLink(Null, "1", true)]
  {
    StepLabelsAreSteps();
    PageNumberLabelIsNumbered();
    var links := SinglePageMeta.links;
    assert links[1..][1..][1..] == [];
  }

  class PartnerStore {
    var partners: seq<Partner>
    var allPartners: seq<Partner>
    var currentPartner: Option<Partner>
    var pageLinks: Option<PageLinks>
    var pageMeta: Option<PageMeta>
    var loading: bool
    var error: Option<string>

    constructor()
      ensures partners == [] && allPartners == [] && currentPartner == None
      ensures pageLinks == None && pageMeta == None && !loading && error == None
    {
      partners := [];
      allPartners := [];
      currentPartner := None;
      pageLinks := None;
      pageMeta := None;
      loading := false;
      error := None;
    }

    /** `sortedPartners`: a copy of the page ordered by `internal_name`. */
    function SortedPartners(): (r: seq<Partner>)
      reads this
      ensures multiset(r) == multiset(partners)
      ensures SortedBy(r, PartnerName)
      ensures Sorting.Stable(partners, r, ByName(PartnerName))
    {
      SortByNameSpec(partners, PartnerName);
      SortPartners(partners)
    }

    function PartnersCount(): (n: nat)
      reads this
      ensures n == |partners| == |SortedPartners()|
    {
      assert |multiset(SortedPartners())| == |multiset(partners)|;
      |partners|
    }

    function FindPartnerById(id: string): (r: Option<Partner>)
      reads this
      ensures r == None <==> forall j :: 0 <= j < |partners| ==> partners[j].id != id
      ensures r.Some? ==> r.value.id == id && r.value == partners[IndexOf(partners, id)]
    {
      Find(partners, id)
    }

    /** One page: its data, links and meta replace the store's; a failure
      * empties the page, records the error and is rethrown. */
    method FetchPartners(reply: Call<PartnerIndex>) returns (r: Call<seq<Partner>>)
      modifies this
      ensures !loading && allPartners == old(allPartners) && currentPartner == old(currentPartner)
      ensures reply.Returned? ==>
                partners == DataOrEmpty(reply.value.data) && r == Returned(partners)
                && pageLinks == reply.value.links && pageMeta == reply.value.meta && error == None
      ensures reply.Threw? ==>
                partners == [] && r == Threw(reply.message) && error == Some(FetchPartnersFailed)
                && pageLinks == old(pageLinks) && pageMeta == old(pageMeta)
    {
      loading := true;
      error := None;
      if reply.Threw? {
        error := Some(FetchPartnersFailed);
        partners := [];
        r := Threw(reply.message);
      } else {
        partners := DataOrEmpty(reply.value.data);
        pageLinks := reply.value.links;
        pageMeta := reply.value.meta;
        r := Returned(partners);
      }
      loading := false;
    }

    /** Every page of 100, from page 1 until a page announces no next one; the
      * concatenation is sorted by `internal_name` into `allPartners` and the
      * meta is reset to a single page. A failure keeps `allPartners` and
      * answers `[]`. */
    method FetchAllPartners(server: nat -> Call<PartnerIndex>, ghost bound: nat) returns (r: seq<Partner>)
      requires 1 <= bound && Stops(server(bound))
      modifies this
      ensures !loading && partners == old(partners) && currentPartner == old(currentPartner)
      ensures pageLinks == old(pageLinks)
      ensures Collect(server, 1, bound).Some? ==>
                r == allPartners == SortPartners(Collect(server, 1, bound).value)
                && pageMeta == Some(SinglePageMeta) && error == None
      ensures Collect(server, 1, bound).None? ==>
                r == [] && allPartners == old(allPartners) && pageMeta == old(pageMeta)
                && error == Some(FetchAllFailed)
    {
      loading := true;
      error := None;
      var fullList: seq<Partner> := [];
      var page: nat := 1;
      var more := true;
      var failed := false;
      assert Collect(server, 1, bound).Some? ==> [] + Collect(server, 1, bound).value == Collect(server, 1, bound).value;
      while more
        invariant 1 <= page <= bound
        invariant more ==> !failed && Collect(server, 1, bound) == Prepend(fullList, Collect(server, page, bound))
        invariant !more && failed ==> Collect(server, 1, bound) == None
        invariant !more && !failed ==> Collect(server, 1, bound) == Some(fullList)
        decreases bound - page, more
      {
        var reply := server(page);
        if reply.Returned? && HasMore(reply.value) {
          var data, rest := DataOrEmpty(reply.value.data), Collect(server, page + 1, bound);
          assert Collect(server, page, bound) == Prepend(data, rest);
          assert rest.Some? ==> fullList + (data + rest.value) == (fullList + data) + rest.value;
        }
        if reply.Threw? {
          failed := true;
          more := false;
        } else {
          fullList := fullList + DataOrEmpty(reply.value.data);
          if HasMore(reply.value) {
            page := page + 1;
          } else {
            more := false;
          }
        }
      }
      if failed {
        error := Some(FetchAllFailed);
        r := [];
      } else {
        allPartners := SortPartners(fullList);
        pageMeta := Some(SinglePageMeta);
        r := allPartners;
      }
      loading := false;
    }

    /** The current partner is cleared first and set only from an answer that
      * carries one; otherwise the error names the id. */
    method FetchPartner(id: string, reply: Call<Option<Partner>>)
      modifies this
      ensures !loading && partners == old(partners) && allPartners == old(allPartners)
      ensures pageLinks == old(pageLinks) && pageMeta == old(pageMeta)
      ensures reply.Returned? && reply.value.Some? ==> currentPartner == reply.value && error == None
      ensures !(reply.Returned? && reply.value.Some?) ==>
                currentPartner == None && error == Some(FetchPartnerFailed + id)
    {
      loading := true;
      error := None;
      currentPartner := None;
      if reply.Returned? && reply.value.Some? {
        currentPartner := reply.value;
      } else {
        error := Some(FetchPartnerFailed + id);
        currentPartner := None;
      }
      loading := false;
    }

    method CreatePartner(reply: Call<Option<Partner>>) returns (r: Option<Partner>)
      modifies this
      ensures !loading && currentPartner == old(currentPartner) && allPartners == old(allPartners)
      ensures pageLinks == old(pageLinks) && pageMeta == old(pageMeta)
      ensures reply.Returned? && reply.value.Some? ==>
                r == reply.value && partners == old(partners) + [reply.value.value] && error == None
      ensures !(reply.Returned? && reply.value.Some?) ==>
                r == None && partners == old(partners) && error == Some(CreateFailed)
    {
      loading := true;
      error := None;
      if reply.Returned? && reply.value.Some? {
        partners := partners + [reply.value.value];
        r := reply.value;
      } else {
        error := Some(CreateFailed);
        r := None;
      }
      loading := false;
    }

    method UpdatePartner(id: string, reply: Call<Option<Partner>>) returns (r: Option<Partner>)
      modifies this
      ensures !loading && allPartners == old(allPartners)
      ensures pageLinks == old(pageLinks) && pageMeta == old(pageMeta)
      ensures reply.Returned? && reply.value.Some? ==>
                r == reply.value && partners == ReplaceFirst(old(partners), id, reply.value.value) && error == None
                && currentPartner == (if old(currentPartner).Some? && old(currentPartner).value.id == id
                                      then reply.value else old(currentPartner))
      ensures !(reply.Returned? && reply.value.Some?) ==>
                r == None && partners == old(partners) && currentPartner == old(currentPartner)
                && error == Some(UpdateFailed)
    {
      loading := true;
      error := None;
      if reply.Returned? && reply.value.Some? {
        var updated := reply.value.value;
        var index := IndexOf(partners, id);
        if index != -1 {
          partners := partners[index := updated];
        }
        if currentPartner.Some? && currentPartner.value.id == id {
          currentPartner := Some(updated);
        }
        r := Some(updated);
      } else {
        error := Some(UpdateFailed);
        r := None;
      }
      loading := false;
    }

    method DeletePartner(id: string, reply: Call<()>) returns (deleted: bool)
      modifies this
      ensures !loading && deleted == reply.Returned? && allPartners == old(allPartners)
      ensures pageLinks == old(pageLinks) && pageMeta == old(pageMeta)
      ensures deleted ==>
                partners == RemoveId(old(partners), id) && error == None
                && currentPartner == (if old(currentPartner).Some? && old(currentPartner).value.id == id
                                      then None else old(currentPartner))
      ensures !deleted ==>
                partners == old(partners) && currentPartner == old(currentPartner) && error == Some(DeleteFailed)
    {
      loading := true;
      error := None;
      if reply.Returned? {
        partners := RemoveId(partners, id);
        if currentPartner.Some? && currentPartner.value.id == id {
          currentPartner := None;
        }
        deleted := true;
      } else {
        error := Some(DeleteFailed);
        deleted := false;
      }
      loading := false;
    }

    method ClearCurrentPartner()
      modifies this
      ensures currentPartner == None && partners == old(partners) && allPartners == old(allPartners)
      ensures pageLinks == old(pageLinks) && pageMeta == old(pageMeta) && loading == old(loading) && error == old(error)
    {
      currentPartner := None;
    }

    method ClearError()
      modifies this
      ensures error == None && partners == old(partners) && allPartners == old(allPartners)
      ensures currentPartner == old(currentPartner) && pageLinks == old(pageLinks)
      ensures pageMeta == old(pageMeta) && loading == old(loading)
    {
      error := None;
    }
  }
}
