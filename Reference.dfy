/**
  * Languages and contexts: the two kinds of reference data that carry an
  * `is_default` flag, with the same record shape and the same
  * "single default" rewrite in `setDefaultLanguage` and `setDefaultContext`.
  */
module Reference {
  import opened Wrappers
  import opened Api
  import opened Lists

  datatype ReferenceFields = ReferenceFields(
    internalName: string,
    backwardCompatibility: Option<string>,
    isDefault: bool)

  type ReferenceRecord = Resource<ReferenceFields>

  function InternalName(f: ReferenceFields): string
  {
    f.internalName
  }

  predicate IsDefault(r: ReferenceRecord)
  {
    r.fields.isDefault
  }

  /** `list.map(e => ({ ...e, is_default: e.id === id ? isDefault : false }))` */
  function MarkDefault(s: seq<ReferenceRecord>, id: string, isDefault: bool): (r: seq<ReferenceRecord>)
    ensures |r| == |s|
  {
    seq(|s|, j requires 0 <= j < |s| =>
      Resource(s[j].id, s[j].fields.(isDefault := s[j].id == id && isDefault)))
  }

  ghost predicate UniqueIds(s: seq<ReferenceRecord>)
  {
    forall i, j :: 0 <= i < j < |s| ==> s[i].id != s[j].id
  }

  /** The rewrite keeps every record in place with its id and other fields;
    * only the flags move: `id` gets the requested value and every other entry false. */
  lemma {:induction false} MarkDefaultSpec(s: seq<ReferenceRecord>, id: string, isDefault: bool)
    ensures forall j :: 0 <= j < |s| ==>
              MarkDefault(s, id, isDefault)[j].id == s[j].id
              && MarkDefault(s, id, isDefault)[j].fields.(isDefault := false) == s[j].fields.(isDefault := false)
    ensures forall j :: 0 <= j < |s| && s[j].id == id ==> IsDefault(MarkDefault(s, id, isDefault)[j]) == isDefault
    ensures forall j :: 0 <= j < |s| && s[j].id != id ==> !IsDefault(MarkDefault(s, id, isDefault)[j])
  {
  }

  /** With distinct ids, at most one entry is the default afterwards, and the
    * default getter then answers the entry that was chosen. */
  lemma {:induction false} MarkDefaultSingle(s: seq<ReferenceRecord>, id: string, isDefault: bool)
    requires UniqueIds(s)
    ensures forall i, j ::
              (0 <= i < |s| && 0 <= j < |s|
               && IsDefault(MarkDefault(s, id, isDefault)[i]) && IsDefault(MarkDefault(s, id, isDefault)[j])) ==> i == j
    ensures First(MarkDefault(s, id, isDefault), IsDefault) ==
              if isDefault && Find(s, id).Some? then Some(Find(s, id).value.(fields := Find(s, id).value.fields.(isDefault := true)))
              else None
  {
    var r := MarkDefault(s, id, isDefault);
    var k := IndexOf(s, id);
    if isDefault && k != -1 {
      assert IsDefault(r[k]);
      assert forall j :: 0 <= j < k ==> !IsDefault(r[j]);
      assert FirstIndex(r, IsDefault) == k;
    } else {
      assert forall j :: 0 <= j < |r| ==> !IsDefault(r[j]);
    }
  }
}
