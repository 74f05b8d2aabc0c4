/**
  * The array operations every store repeats on its list of resources:
  * `findIndex`/`find` by id, replacing the first match in place, `filter` to
  * delete, replace-or-append, and filtering by a flag.
  */
module Lists {
  import opened Wrappers
  import opened Api
  import opened Strings
  import Sorting

  /** `list.findIndex(e => e.id === id)`: the first position holding `id`, or -1. */
  function IndexOf<F>(s: seq<Resource<F>>, id: string): (k: int)
    ensures -1 <= k < |s|
    ensures k == -1 <==> forall j :: 0 <= j < |s| ==> s[j].id != id
    ensures 0 <= k ==> s[k].id == id && forall j :: 0 <= j < k ==> s[j].id != id
  {
    if |s| == 0 then -1
    else if s[0].id == id then 0
    else
      var k := IndexOf(s[1..], id);
      if k == -1 then -1 else k + 1
  }

  /** `list.find(e => e.id === id)` */
  function Find<F>(s: seq<Resource<F>>, id: string): (r: Option<Resource<F>>)
    ensures r == None <==> forall j :: 0 <= j < |s| ==> s[j].id != id
    ensures r.Some? ==> r.value.id == id && r.value in s
  {
    var k := IndexOf(s, id);
    if k == -1 then None else Some(s[k])
  }

  /** `const i = list.findIndex(e => e.id === id); if (i !== -1) list[i] = x` */
  function ReplaceFirst<F>(s: seq<Resource<F>>, id: string, x: Resource<F>): (r: seq<Resource<F>>)
    ensures |r| == |s|
  {
    var k := IndexOf(s, id);
    if k == -1 then s else s[k := x]
  }

  /** `list.filter(e => e.id !== id)` */
  function RemoveId<F>(s: seq<Resource<F>>, id: string): (r: seq<Resource<F>>)
    ensures |r| <= |s|
  {
    if |s| == 0 then []
    else if s[0].id == id then RemoveId(s[1..], id)
    else [s[0]] + RemoveId(s[1..], id)
  }

  /** Replace the entry with `x`'s id in place, or append `x` when there is none. */
  function Upsert<F>(s: seq<Resource<F>>, x: Resource<F>): (r: seq<Resource<F>>)
  {
    if IndexOf(s, x.id) == -1 then s + [x] else ReplaceFirst(s, x.id, x)
  }

  /** `list.filter(keep)` */
  function Filter<T(!new)>(s: seq<T>, keep: T -> bool): (r: seq<T>)
    ensures forall x :: x in r <==> x in s && keep(x)
    ensures SubsequenceOf(r, s)
  {
    if |s| == 0 then []
    else if keep(s[0]) then
      assert s == [s[0]] + s[1..];
      [s[0]] + Filter(s[1..], keep)
    else Filter(s[1..], keep)
  }

  /** `list.findIndex(keep)`: the first position whose element is kept, or -1. */
  function FirstIndex<T>(s: seq<T>, keep: T -> bool): (k: int)
    ensures -1 <= k < |s|
    ensures k == -1 <==> forall j :: 0 <= j < |s| ==> !keep(s[j])
    ensures 0 <= k ==> keep(s[k]) && forall j :: 0 <= j < k ==> !keep(s[j])
  {
    if |s| == 0 then -1
    else if keep(s[0]) then 0
    else
      var k := FirstIndex(s[1..], keep);
      if k == -1 then -1 else k + 1
  }

  /** `list.find(keep)` */
  function First<T>(s: seq<T>, keep: T -> bool): (r: Option<T>)
    ensures r == None <==> forall j :: 0 <= j < |s| ==> !keep(s[j])
    ensures r.Some? ==> keep(r.value) && r.value in s
  {
    var k := FirstIndex(s, keep);
    if k == -1 then None else Some(s[k])
  }

  /** `r` is `s` with some elements left out and the rest in their order. */
  ghost predicate SubsequenceOf<T>(r: seq<T>, s: seq<T>)
    decreases |s|
  {
    if r == [] then true
    else if s == [] then false
    else (r[0] == s[0] && SubsequenceOf(r[1..], s[1..])) || SubsequenceOf(r, s[1..])
  }

  // ------------------------------------------------------------ properties

  /** The contract of `IndexOf` determines it. */
  lemma {:induction false} IndexOfUnique<F>(s: seq<Resource<F>>, id: string, k: int)
    requires -1 <= k < |s|
    requires k == -1 ==> forall j :: 0 <= j < |s| ==> s[j].id != id
    requires 0 <= k ==> s[k].id == id && forall j :: 0 <= j < k ==> s[j].id != id
    ensures IndexOf(s, id) == k
  {
  }

  lemma {:induction false} FindHead<F>(s: seq<Resource<F>>, id: string)
    requires |s| > 0
    ensures Find(s, id) == if s[0].id == id then Some(s[0]) else Find(s[1..], id)
  {
  }

  /** After an update, looking the id up finds the new record ... */
  lemma {:induction false} FindAfterReplace<F>(s: seq<Resource<F>>, id: string, x: Resource<F>)
    requires x.id == id
    ensures Find(ReplaceFirst(s, id, x), id) == if Find(s, id) == None then None else Some(x)
  {
    var k := IndexOf(s, id);
    if k != -1 {
      var r := s[k := x];
      IndexOfUnique(r, id, k);
    }
  }

  /** ... and every other id still finds what it found before. */
  lemma {:induction false} ReplaceKeepsOthers<F>(s: seq<Resource<F>>, id: string, x: Resource<F>, other: string)
    requires x.id == id && other != id
    ensures Find(ReplaceFirst(s, id, x), other) == Find(s, other)
  {
    var k := IndexOf(s, id);
    if k != -1 {
      var r := s[k := x];
      var m := IndexOf(s, other);
      assert IndexOf(r, other) == m by {
        if m == -1 {
          assert forall j :: 0 <= j < |r| ==> r[j].id != other;
        } else {
          assert r[m].id == other;
          assert forall j :: 0 <= j < m ==> r[j].id != other;
        }
      }
    }
  }

  /** Only the first entry with the id is replaced; everything else stays put. */
  lemma {:induction false} ReplaceOnlyFirst<F>(s: seq<Resource<F>>, id: string, x: Resource<F>)
    ensures forall j :: 0 <= j < |s| && ReplaceFirst(s, id, x)[j] != s[j] ==>
              s[j].id == id && forall i :: 0 <= i < j ==> s[i].id != id
  {
  }

  /** A removed id is gone, and the list keeps every other entry in order. */
  lemma {:induction false} RemoveIdSpec<F>(s: seq<Resource<F>>, id: string)
    ensures forall e :: e in RemoveId(s, id) <==> e in s && e.id != id
    ensures SubsequenceOf(RemoveId(s, id), s)
    ensures Find(RemoveId(s, id), id) == None
  {
    if |s| > 0 {
      RemoveIdSpec(s[1..], id);
      assert s == [s[0]] + s[1..];
      if s[0].id != id {
        assert RemoveId(s, id)[1..] == RemoveId(s[1..], id);
      }
    }
  }

  /** Removing an id does not change what any other id finds. */
  lemma {:induction false} RemoveKeepsOthers<F>(s: seq<Resource<F>>, id: string, other: string)
    requires other != id
    ensures Find(RemoveId(s, id), other) == Find(s, other)
  {
    if |s| > 0 {
      RemoveKeepsOthers(s[1..], id, other);
      FindHead(s, other);
      if s[0].id != id {
        var r := RemoveId(s, id);
        assert r[0] == s[0] && r[1..] == RemoveId(s[1..], id);
        FindHead(r, other);
      }
    }
  }

  /** A record appended with a fresh id is found again. */
  lemma {:induction false} FindAppended<F>(s: seq<Resource<F>>, x: Resource<F>)
    requires Find(s, x.id) == None
    ensures Find(s + [x], x.id) == Some(x)
  {
    IndexOfUnique(s + [x], x.id, |s|);
  }

  /** After an upsert the record's id finds the record, and the list grows
    * exactly when the id was new. */
  lemma {:induction false} UpsertFinds<F>(s: seq<Resource<F>>, x: Resource<F>)
    ensures Find(Upsert(s, x), x.id) == Some(x)
    ensures |Upsert(s, x)| == if Find(s, x.id) == None then |s| + 1 else |s|
  {
    if IndexOf(s, x.id) == -1 {
      FindAppended(s, x);
    } else {
      FindAfterReplace(s, x.id, x);
    }
  }

  // ---------------------------------------------------------- sorted copy

  /** Orders resources by one text field, as `a.x.localeCompare(b.x) < 0` does. */
  function ByName<F>(name: F -> string): (Resource<F>, Resource<F>) -> bool
  {
    (a: Resource<F>, b: Resource<F>) => Less(name(a.fields), name(b.fields))
  }

  lemma {:induction false} ByNameStrict<F(!new)>(name: F -> string)
    ensures Sorting.StrictWeakOrder(ByName(name))
  {
    forall a: Resource<F>
      ensures !ByName(name)(a, a)
    {
      LessIrreflexive(name(a.fields));
    }
    forall a: Resource<F>, b: Resource<F>, c: Resource<F> | ByName(name)(a, b) && ByName(name)(b, c)
      ensures ByName(name)(a, c)
    {
      LessTransitive(name(a.fields), name(b.fields), name(c.fields));
    }
    forall a: Resource<F>, b: Resource<F>, c: Resource<F> | ByName(name)(a, c)
      ensures ByName(name)(a, b) || ByName(name)(b, c)
    {
      var na, nb, nc := name(a.fields), name(b.fields), name(c.fields);
      if !Less(na, nb) && !Less(nb, nc) {
        if na != nb { LessTotal(na, nb); }
        if nb != nc { LessTotal(nb, nc); }
        if Less(nb, na) && Less(nc, nb) { LessTransitive(nc, nb, na); }
        LessIrreflexive(na);
        if Less(nc, na) { LessTransitive(na, nc, na); }
      }
    }
  }

  /** `[...list].sort((a, b) => a.x.localeCompare(b.x))`: a new, sorted list. */
  function SortByName<F>(s: seq<Resource<F>>, name: F -> string): seq<Resource<F>>
  {
    Sorting.Sort(s, ByName(name))
  }

  /** No entry's name sorts strictly before an earlier entry's name. */
  ghost predicate SortedBy<F>(s: seq<Resource<F>>, name: F -> string)
  {
    forall i, j :: 0 <= i < j < |s| ==> !Less(name(s[j].fields), name(s[i].fields))
  }

  /** The sorted copy holds the same entries, in order of name; entries of
    * equal name keep their order. */
  lemma {:induction false} SortByNameSpec<F(!new)>(s: seq<Resource<F>>, name: F -> string)
    ensures multiset(SortByName(s, name)) == multiset(s)
    ensures SortedBy(SortByName(s, name), name)
    ensures Sorting.Stable(s, SortByName(s, name), ByName(name))
  {
    Sorting.SortPermutes(s, ByName(name));
    ByNameStrict(name);
    Sorting.SortSorts(s, ByName(name));
    Sorting.SortStable(s, ByName(name));
  }
}
