// JSON trees and JSON merge patch, the format of the requests in internal/controller/deletion_policy.go.
module Json {
  import opened Base

  datatype Json =
    | Null
    | Bool(b: bool)
    | Num(n: int)
    | Str(s: string)
    | Arr(items: seq<Json>)
    | Obj(fields: map<string, Json>)

  function Fields(j: Json): map<string, Json> {
    if j.Obj? then j.fields else map[]
  }

  /** Section 2 of RFC 7396. A missing target is Null. */
  function MergePatch(target: Json, patch: Json): Json
    decreases patch
  {
    if !patch.Obj? then patch
    else
      var t := Fields(target);
      Obj(map k | k in t.Keys + patch.fields.Keys && (k in patch.fields ==> !patch.fields[k].Null?) ::
            if k in patch.fields
            then MergePatch(if k in t then t[k] else Null, patch.fields[k])
            else t[k])
  }

  /** The value at a path of object fields, if there is one. */
  function Lookup(j: Json, path: seq<string>): Option<Json>
    decreases |path|
  {
    if path == [] then Some(j)
    else if j.Obj? && path[0] in j.fields then Lookup(j.fields[path[0]], path[1..])
    else None
  }

  lemma LookupField(j: Json, field: string)
    ensures Lookup(j, [field]) == if j.Obj? && field in j.fields then Some(j.fields[field]) else None
  {
    assert [field][1..] == [];
  }
}
