// Owner references and the two ways the operator writes them: spliced into an apply body
// (setExplicitOwnerReferences) or as a merge patch on a Secret (reconcileSecretOwnership).
// Both are in internal/controller/deletion_policy.go.
module OwnerReferences {
  import opened Base
  import opened Json

  datatype OwnerReference = OwnerReference(
    apiVersion: string, kind: string, name: string, uid: Uid,
    controller: Option<bool>, blockOwnerDeletion: Option<bool>)

  // ----- Encoding -----

  /** Optional fields are left out rather than written as null. */
  function Optional(field: string, v: Option<bool>): map<string, Json> {
    if v.Some? then map[field := Bool(v.value)] else map[]
  }

  function Encode(r: OwnerReference): Json {
    Obj(map["apiVersion" := Str(r.apiVersion), "kind" := Str(r.kind), "name" := Str(r.name), "uid" := Str(r.uid)]
        + Optional("controller", r.controller) + Optional("blockOwnerDeletion", r.blockOwnerDeletion))
  }

  function EncodeAll(refs: seq<OwnerReference>): seq<Json> {
    seq(|refs|, i requires 0 <= i < |refs| => Encode(refs[i]))
  }

  function StringAt(j: Json, field: string): string {
    match Lookup(j, [field])
    case Some(Str(s)) => s
    case _ => ""
  }

  function BoolAt(j: Json, field: string): Option<bool> {
    match Lookup(j, [field])
    case Some(Bool(b)) => Some(b)
    case _ => None
  }

  /** How a reader of the stored object sees one entry. */
  function Decode(j: Json): OwnerReference {
    OwnerReference(StringAt(j, "apiVersion"), StringAt(j, "kind"), StringAt(j, "name"), StringAt(j, "uid"),
                   BoolAt(j, "controller"), BoolAt(j, "blockOwnerDeletion"))
  }

  /** An entry has the fields the API server knows, an unset flag left out. */
  lemma EncodedFields(r: OwnerReference)
    ensures Encode(r).Obj?
    ensures Encode(r).fields.Keys == {"apiVersion", "kind", "name", "uid"}
                                     + (if r.controller.Some? then {"controller"} else {})
                                     + (if r.blockOwnerDeletion.Some? then {"blockOwnerDeletion"} else {})
  {
  }

  lemma DecodeEncode(r: OwnerReference)
    ensures Decode(Encode(r)) == r
  {
    var j := Encode(r);
    LookupField(j, "apiVersion");
    LookupField(j, "kind");
    LookupField(j, "name");
    LookupField(j, "uid");
    LookupField(j, "controller");
    LookupField(j, "blockOwnerDeletion");
  }

  /** The list form both writers splice in, grown one reference at a time. */
  method OwnerReferencesJson(refs: seq<OwnerReference>) returns (list: seq<Json>)
    ensures list == EncodeAll(refs)
  {
    list := [];
    for i := 0 to |refs|
      invariant list == EncodeAll(refs[..i])
    {
      list := list + [Encode(refs[i])];
    }
    assert refs[..|refs|] == refs;
  }

  // ----- Splicing -----

  const OWNER_PATH := ["metadata", "ownerReferences"]

  function MetadataFields(fields: map<string, Json>): map<string, Json> {
    if "metadata" in fields then Fields(fields["metadata"]) else map[]
  }

  /** `fields` with exactly `refs` as its owner references, stated even when empty. */
  function Explicit(fields: map<string, Json>, refs: seq<OwnerReference>): map<string, Json> {
    fields["metadata" := Obj(MetadataFields(fields)["ownerReferences" := Arr(EncodeAll(refs))])]
  }

  method SetExplicitOwnerReferences(data: Json, refs: seq<OwnerReference>) returns (r: Result<Json>)
    requires !data.Null?
    ensures r.Ok? <==> data.Obj?
    ensures data.Obj? ==> r == Ok(Obj(Explicit(data.fields, refs)))
  {
    if !data.Obj? {
      return Err("decoding object");
    }
    var fields := data.fields;
    var metadata: map<string, Json> := map[];
    if "metadata" in fields && fields["metadata"].Obj? {
      metadata := fields["metadata"].fields;
    }
    var list := OwnerReferencesJson(refs);
    metadata := metadata["ownerReferences" := Arr(list)];
    fields := fields["metadata" := Obj(metadata)];
    return Ok(Obj(fields));
  }

  /** The merge patch sent for a Secret: it names nothing but the owner references. */
  function OwnerPatch(refs: seq<OwnerReference>): Json {
    Obj(map["metadata" := Obj(map["ownerReferences" := Arr(EncodeAll(refs))])])
  }

  // ----- What the two writes do to a tree -----

  /** `path` neither leads to the owner references nor into them. */
  predicate Elsewhere(path: seq<string>) {
    !(path <= OWNER_PATH) && !(OWNER_PATH <= path)
  }

  /** The given references and no other change. */
  ghost predicate OnlyOwnersReplaced(before: Json, after: Json, refs: seq<OwnerReference>) {
    && Lookup(after, OWNER_PATH) == Some(Arr(EncodeAll(refs)))
    && forall path :: Elsewhere(path) ==> Lookup(after, path) == Lookup(before, path)
  }

  lemma MergePatchIsExplicit(target: Json, refs: seq<OwnerReference>)
    ensures MergePatch(target, OwnerPatch(refs)) == Obj(Explicit(Fields(target), refs))
  {
    var t := Fields(target);
    var list := Arr(EncodeAll(refs));
    var inner := Obj(map["ownerReferences" := list]);
    var md := if "metadata" in t then t["metadata"] else Null;
    OneFieldPatch(md, "ownerReferences", list);
    OneFieldPatch(target, "metadata", inner);
    assert Fields(md) == MetadataFields(t);
  }

  /** A patch of one field leaves the others. */
  lemma OneFieldPatch(target: Json, field: string, patch: Json)
    requires !patch.Null?
    ensures var t := Fields(target);
            MergePatch(target, Obj(map[field := patch])) ==
            Obj(t[field := MergePatch(if field in t then t[field] else Null, patch)])
  {
    var t := Fields(target);
    var merged := MergePatch(target, Obj(map[field := patch])).fields;
    var updated := t[field := MergePatch(if field in t then t[field] else Null, patch)];
    assert merged.Keys == updated.Keys;
    forall k | k in merged ensures merged[k] == updated[k] {}
  }

  lemma ExplicitFrame(target: Json, refs: seq<OwnerReference>)
    ensures OnlyOwnersReplaced(target, Obj(Explicit(Fields(target), refs)), refs)
  {
    var before := Fields(target);
    var after := Explicit(before, refs);
    assert OWNER_PATH[1..] == ["ownerReferences"];
    LookupField(after["metadata"], "ownerReferences");
    forall path | Elsewhere(path) ensures Lookup(Obj(after), path) == Lookup(target, path) {
      assert path != [];
      if path[0] == "metadata" {
        var rest := path[1..];
        assert rest != [] && rest[0] != "ownerReferences" by {
          assert path == ["metadata"] + rest;
        }
        assert Lookup(after["metadata"], rest) ==
               if rest[0] in MetadataFields(before) then Lookup(MetadataFields(before)[rest[0]], rest[1..]) else None;
      }
    }
  }

  /** Patching any tree at all yields exactly these references and leaves every other path alone. */
  lemma OwnerPatchFrame(target: Json, refs: seq<OwnerReference>)
    ensures OnlyOwnersReplaced(target, MergePatch(target, OwnerPatch(refs)), refs)
  {
    MergePatchIsExplicit(target, refs);
    ExplicitFrame(target, refs);
  }

  /** Splicing writes what the merge patch would, so the two disciplines agree on every object. */
  lemma SplicingIsMergePatching(fields: map<string, Json>, refs: seq<OwnerReference>)
    ensures Obj(Explicit(fields, refs)) == MergePatch(Obj(fields), OwnerPatch(refs))
    ensures OnlyOwnersReplaced(Obj(fields), Obj(Explicit(fields, refs)), refs)
  {
    MergePatchIsExplicit(Obj(fields), refs);
    ExplicitFrame(Obj(fields), refs);
  }

  /** The last write decides, and repeating a write changes nothing. */
  lemma ExplicitLastWins(fields: map<string, Json>, first: seq<OwnerReference>, second: seq<OwnerReference>)
    ensures Explicit(Explicit(fields, first), second) == Explicit(fields, second)
  {
    assert MetadataFields(Explicit(fields, first)) ==
           MetadataFields(fields)["ownerReferences" := Arr(EncodeAll(first))];
    assert MetadataFields(Explicit(fields, first))["ownerReferences" := Arr(EncodeAll(second))]
        == MetadataFields(fields)["ownerReferences" := Arr(EncodeAll(second))];
  }

  /** Reading the stored list back gives the references, in order. */
  lemma ReadBack(target: Json, refs: seq<OwnerReference>)
    ensures var stored := Lookup(MergePatch(target, OwnerPatch(refs)), ["metadata", "ownerReferences"]);
            && stored.Some? && stored.value.Arr?
            && |stored.value.items| == |refs|
            && forall i :: 0 <= i < |refs| ==> Decode(stored.value.items[i]) == refs[i]
  {
    OwnerPatchFrame(target, refs);
    forall i | 0 <= i < |refs| ensures Decode(EncodeAll(refs)[i]) == refs[i] {
      DecodeEncode(refs[i]);
    }
  }

  /** The references a written body states. */
  function StatedRefs(body: Json): seq<OwnerReference> {
    match Lookup(body, OWNER_PATH)
    case Some(Arr(items)) => seq(|items|, i requires 0 <= i < |items| => Decode(items[i]))
    case _ => []
  }

  /** Both kinds of body state exactly the references they were made from, the empty list included. */
  lemma BodiesStateRefs(fields: map<string, Json>, refs: seq<OwnerReference>)
    ensures StatedRefs(Obj(Explicit(fields, refs))) == refs
    ensures StatedRefs(OwnerPatch(refs)) == refs
  {
    SplicingIsMergePatching(fields, refs);
    ReadBack(Obj(fields), refs);
    MergePatchIsExplicit(Null, refs);
    ReadBack(Null, refs);
    assert OwnerPatch(refs) == Obj(Explicit(map[], refs));
  }

  /** The first reference marked as the controller. */
  function ControllerOf(refs: seq<OwnerReference>): Option<OwnerReference> {
    if refs == [] then None
    else if refs[0].controller == Some(true) then Some(refs[0])
    else ControllerOf(refs[1..])
  }
}
