/**
  * The logic of the projects list view, as the `ProjectsLogic` class of
  * `src/views/__tests__/ProjectsLogic.test.ts` states it: the list chosen by
  * the filter mode, narrowed by the search query, and sorted on a copy by
  * the clicked column with empty values last.
  */
module ProjectsLogic {
  import opened Wrappers
  import opened Strings
  import opened Lists
  import opened Sorting
  import opened Projects

  datatype FilterMode = All | Enabled | Launched | Visible

  datatype Direction = Asc | Desc

  /** A column value as the comparator sees it: null/undefined, a string, or a boolean. */
  datatype SortValue = Missing | Text(s: string) | Flag(b: bool)

  function Optional(v: Option<string>): SortValue
  {
    if v.Some? then Text(v.value) else Missing
  }

  /** `project[key]`; an unknown key reads undefined. A null `internal_name`
    * is read as missing here, so it sorts last; the comparator as written
    * reads it as `''` instead (`FieldValueAsWritten`), and the view is
    * modelled with this corrected reading. */
  function FieldValue(p: Project, key: string): SortValue
  {
    if key == "internal_name" then Optional(p.fields.internalName)
    else if key == "id" then Text(p.id)
    else if key == "backward_compatibility" then Optional(p.fields.backwardCompatibility)
    else if key == "launch_date" then Optional(p.fields.launchDate)
    else if key == "is_enabled" then Flag(p.fields.isEnabled)
    else if key == "is_launched" then Flag(p.fields.isLaunched)
    else if key == "context_id" then Optional(p.fields.contextId)
    else if key == "language_id" then Optional(p.fields.languageId)
    else if key == "created_at" then Optional(p.fields.createdAt)
    else if key == "updated_at" then Optional(p.fields.updatedAt)
    else Missing
  }

  /** The comparator as written reads `internal_name ?? ''`, so a null name
    * is the empty string, which sorts first in ascending order. */
  function FieldValueAsWritten(p: Project, key: string): (v: SortValue)
    ensures v != FieldValue(p, key) <==> key == "internal_name" && p.fields.internalName.None?
    ensures key == "internal_name" ==> !v.Missing?
  {
    if key == "internal_name" then Text(if p.fields.internalName.Some? then p.fields.internalName.value else "")
    else FieldValue(p, key)
  }

  /** `valA < valB` between two present values of one column: strings by
    * code units, `false < true`; values of different kinds are unordered. */
  predicate ValueLess(a: SortValue, b: SortValue)
  {
    (a.Text? && b.Text? && Less(a.s, b.s)) || (a.Flag? && b.Flag? && !a.b && b.b)
  }

  /** The comparator answers negative: empty values after present ones, then
    * present values in the chosen direction. */
  predicate ValueBefore(a: SortValue, b: SortValue, dir: Direction)
  {
    if a.Missing? then false
    else if b.Missing? then true
    else if dir == Asc then ValueLess(a, b)
    else ValueLess(b, a)
  }

  lemma {:induction false} ValueLessStrict(a: SortValue, b: SortValue, c: SortValue)
    ensures !ValueLess(a, a)
    ensures ValueLess(a, b) && ValueLess(b, c) ==> ValueLess(a, c)
  {
    if a.Text? {
      LessIrreflexive(a.s);
      if ValueLess(a, b) && ValueLess(b, c) {
        LessTransitive(a.s, b.s, c.s);
      }
    }
  }

  function ProjectBefore(key: string, dir: Direction): (Project, Project) -> bool
  {
    (a: Project, b: Project) => ValueBefore(FieldValue(a, key), FieldValue(b, key), dir)
  }

  function ProjectBeforeAsWritten(key: string, dir: Direction): (Project, Project) -> bool
  {
    (a: Project, b: Project) => ValueBefore(FieldValueAsWritten(a, key), FieldValueAsWritten(b, key), dir)
  }

  /** `ValueLess` is total between two distinct values of one kind. */
  lemma {:induction false} ValueLessTotal(a: SortValue, b: SortValue)
    requires a.Text? == b.Text? && a.Flag? == b.Flag? && !a.Missing?
    ensures a == b || ValueLess(a, b) || ValueLess(b, a)
  {
    if a.Text? && a.s != b.s {
      LessTotal(a.s, b.s);
    }
  }

  /** Within one column every present value is of the same kind. */
  lemma {:induction false} FieldValueKind(p: Project, q: Project, key: string)
    ensures FieldValue(p, key).Flag? == FieldValue(q, key).Flag?
    ensures FieldValue(p, key).Flag? || FieldValue(p, key).Text? || FieldValue(p, key).Missing?
    ensures !FieldValue(p, key).Missing? && !FieldValue(q, key).Missing?
            ==> FieldValue(p, key).Text? == FieldValue(q, key).Text?
  {
  }

  lemma {:induction false} ValueBeforeStrict(a: SortValue, b: SortValue, c: SortValue, dir: Direction)
    ensures !ValueBefore(a, a, dir)
    ensures ValueBefore(a, b, dir) && ValueBefore(b, c, dir) ==> ValueBefore(a, c, dir)
  {
    ValueLessStrict(a, b, c);
    if dir == Desc {
      ValueLessStrict(c, b, a);
    }
  }

  lemma {:induction false} ProjectBeforeAsWrittenStrict(key: string, dir: Direction)
    ensures StrictOrder(ProjectBeforeAsWritten(key, dir))
  {
    forall a: Project
      ensures !ProjectBeforeAsWritten(key, dir)(a, a)
    {
      var v := FieldValueAsWritten(a, key);
      ValueBeforeStrict(v, v, v, dir);
    }
    forall a: Project, b: Project, c: Project | ProjectBeforeAsWritten(key, dir)(a, b) && ProjectBeforeAsWritten(key, dir)(b, c)
      ensures ProjectBeforeAsWritten(key, dir)(a, c)
    {
      ValueBeforeStrict(FieldValueAsWritten(a, key), FieldValueAsWritten(b, key), FieldValueAsWritten(c, key), dir);
    }
  }

  lemma {:induction false} ProjectBeforeStrict(key: string, dir: Direction)
    ensures StrictWeakOrder(ProjectBefore(key, dir))
  {
    forall a: Project
      ensures !ProjectBefore(key, dir)(a, a)
    {
      ValueLessStrict(FieldValue(a, key), FieldValue(a, key), FieldValue(a, key));
    }
    forall a: Project, b: Project, c: Project | ProjectBefore(key, dir)(a, b) && ProjectBefore(key, dir)(b, c)
      ensures ProjectBefore(key, dir)(a, c)
    {
      var va, vb, vc := FieldValue(a, key), FieldValue(b, key), FieldValue(c, key);
      if dir == Asc {
        ValueLessStrict(va, vb, vc);
      } else {
        ValueLessStrict(vc, vb, va);
      }
    }
    forall a: Project, b: Project, c: Project | ProjectBefore(key, dir)(a, c)
      ensures ProjectBefore(key, dir)(a, b) || ProjectBefore(key, dir)(b, c)
    {
      var va, vb, vc := FieldValue(a, key), FieldValue(b, key), FieldValue(c, key);
      if !vb.Missing? && !vc.Missing? && !ValueBefore(va, vb, dir) && !ValueBefore(vb, vc, dir) {
        FieldValueKind(a, b, key);
        FieldValueKind(b, c, key);
        // a does not come before b nor b before c, so c is a or comes before it
        ValueLessTotal(va, vb);
        ValueLessTotal(vb, vc);
        ValueLessStrict(va, vb, vc);
        ValueLessStrict(vc, vb, va);
        ValueLessStrict(va, vc, va);
        ValueLessStrict(vc, va, vc);
      }
    }
  }

  /** `[...list].sort(comparator)` */
  function SortProjects(list: seq<Project>, key: string, dir: Direction): seq<Project>
  {
    Sort(list, ProjectBefore(key, dir))
  }

  /** The sort as written: the same projects, ordered by the as-written
    * reading of the column. */
  function SortProjectsAsWritten(list: seq<Project>, key: string, dir: Direction): (r: seq<Project>)
    ensures multiset(r) == multiset(list)
    ensures Sorted(r, ProjectBeforeAsWritten(key, dir))
  {
    SortPermutes(list, ProjectBeforeAsWritten(key, dir));
    ProjectBeforeAsWrittenStrict(key, dir);
    SortSorts(list, ProjectBeforeAsWritten(key, dir));
    Sort(list, ProjectBeforeAsWritten(key, dir))
  }

  /** The sorted copy holds the same projects, ordered by the column in the
    * chosen direction, with every empty value after every present one. */
  lemma {:induction false} SortProjectsSpec(list: seq<Project>, key: string, dir: Direction)
    ensures multiset(SortProjects(list, key, dir)) == multiset(list)
    ensures Sorted(SortProjects(list, key, dir), ProjectBefore(key, dir))
    ensures var r := SortProjects(list, key, dir);
            forall i, j :: 0 <= i < j < |r| && FieldValue(r[i], key).Missing? ==> FieldValue(r[j], key).Missing?
    ensures Stable(list, SortProjects(list, key, dir), ProjectBefore(key, dir))
  {
    SortPermutes(list, ProjectBefore(key, dir));
    ProjectBeforeStrict(key, dir);
    SortSorts(list, ProjectBefore(key, dir));
    SortStable(list, ProjectBefore(key, dir));
    var r := SortProjects(list, key, dir);
    forall i, j | 0 <= i < j < |r| && FieldValue(r[i], key).Missing?
      ensures FieldValue(r[j], key).Missing?
    {
      assert !ProjectBefore(key, dir)(r[j], r[i]);
    }
  }

  /** As written, a project without a name sorts before a named one in the
    * default ascending order by name. */
  lemma {:induction false} NullNameFirstAsWritten(named: Project, unnamed: Project)
    requires named.fields.internalName == Some("Active Project") && unnamed.fields.internalName == None
    ensures SortProjectsAsWritten([named, unnamed], "internal_name", Asc) == [unnamed, named]
    ensures SortProjects([named, unnamed], "internal_name", Asc) == [named, unnamed]
  {
    assert Less("", "Active Project");
    var list := [named, unnamed];
    assert list[..1] == [named] && list[..1][..0] == [];
    var asWritten := ProjectBeforeAsWritten("internal_name", Asc);
    assert Sort(list[..1], asWritten) == [named];
    assert FieldValueAsWritten(unnamed, "internal_name") == Text("");
    assert FieldValueAsWritten(named, "internal_name") == Text("Active Project");
    assert ValueLess(Text(""), Text("Active Project"));
    assert asWritten(unnamed, named);
    assert Sort(list, asWritten) == Insert(unnamed, [named], asWritten);
    var corrected := ProjectBefore("internal_name", Asc);
    assert Sort(list[..1], corrected) == [named];
    assert !corrected(unnamed, named);
    assert Insert(unnamed, [named], corrected) == [named] + Insert(unnamed, [], corrected);
    assert Sort(list, corrected) == Insert(unnamed, [named], corrected);
  }

  /** The trimmed, lowercased search text. */
  function Query(searchQuery: string): string
  {
    ToLower(Trim(searchQuery, JavaScript))
  }

  /** `(x?.toLowerCase() ?? '').includes(query)` */
  predicate FieldContains(v: Option<string>, query: string)
  {
    Contains(ToLower(if v.Some? then v.value else ""), query)
  }

  predicate MatchesQuery(query: string, p: Project)
  {
    FieldContains(p.fields.internalName, query) || FieldContains(p.fields.backwardCompatibility, query)
  }

  /** The search step: a blank query keeps the whole list; otherwise exactly
    * the projects whose name or legacy id contains it, in list order. */
  function Search(list: seq<Project>, searchQuery: string): (r: seq<Project>)
    ensures Query(searchQuery) == "" ==> r == list
    ensures Query(searchQuery) != "" ==>
              (forall p :: p in r <==> p in list && MatchesQuery(Query(searchQuery), p)) && SubsequenceOf(r, list)
  {
    var query := Query(searchQuery);
    if |query| > 0 then Filter(list, p => MatchesQuery(query, p)) else list
  }

  /** `handleSort(key)`: the same column flips the direction, another column
    * starts ascending. */
  function NextSort(sortKey: string, dir: Direction, clicked: string): (r: (string, Direction))
    ensures r.0 == clicked
    ensures clicked == sortKey ==> r.1 != dir
    ensures clicked != sortKey ==> r.1 == Asc
  {
    if sortKey == clicked then (sortKey, if dir == Asc then Desc else Asc)
    else (clicked, Asc)
  }

  /** Clicking the current column twice restores the order. */
  lemma {:induction false} NextSortTwice(sortKey: string, dir: Direction)
    ensures var r := NextSort(sortKey, dir, sortKey); NextSort(r.0, r.1, sortKey) == (sortKey, dir)
  {
  }

  class ProjectsView {
    const store: ProjectStore
    var filterMode: FilterMode
    var searchQuery: string
    var sortKey: string
    var sortDirection: Direction

    /** All projects, no search, ascending by name. */
    constructor(store: ProjectStore)
      ensures this.store == store
      ensures filterMode == All && searchQuery == "" && sortKey == "internal_name" && sortDirection == Asc
    {
      this.store := store;
      filterMode := All;
      searchQuery := "";
      sortKey := "internal_name";
      sortDirection := Asc;
    }

    /** The store list the filter mode selects. */
    function SourceList(): (r: seq<Project>)
      reads this, store
      ensures filterMode == Visible ==> r == store.visibleProjects
      ensures filterMode == Enabled ==> r == store.EnabledProjects()
      ensures filterMode == Launched ==> r == store.LaunchedProjects()
      ensures filterMode == All ==> r == store.projects
    {
      match filterMode
      case Visible => store.visibleProjects
      case Enabled => store.EnabledProjects()
      case Launched => store.LaunchedProjects()
      case All => store.projects
    }

    /** `filteredProjects`: the searched source list, sorted on a copy. */
    function FilteredProjects(): (r: seq<Project>)
      reads this, store
      ensures multiset(r) == multiset(Search(SourceList(), searchQuery))
      ensures Sorted(r, ProjectBefore(sortKey, sortDirection))
      ensures forall i, j :: 0 <= i < j < |r| && FieldValue(r[i], sortKey).Missing? ==> FieldValue(r[j], sortKey).Missing?
      ensures Stable(Search(SourceList(), searchQuery), r, ProjectBefore(sortKey, sortDirection))
    {
      SortProjectsSpec(Search(SourceList(), searchQuery), sortKey, sortDirection);
      SortProjects(Search(SourceList(), searchQuery), sortKey, sortDirection)
    }

    method HandleSort(key: string)
      modifies this
      ensures (sortKey, sortDirection) == NextSort(old(sortKey), old(sortDirection), key)
      ensures filterMode == old(filterMode) && searchQuery == old(searchQuery)
    {
      if sortKey == key {
        sortDirection := if sortDirection == Asc then Desc else Asc;
      } else {
        sortKey := key;
        sortDirection := Asc;
      }
    }
  }
}
