// Status conditions: SetCondition in internal/controller/conditions.go, over the Kubernetes
// library's upsert by type.
module Conditions {
  import opened Base
  import opened Api

  function Find(cs: seq<Condition>, kind: ConditionType): (i: nat)
    ensures i <= |cs|
    ensures i < |cs| ==> cs[i].kind == kind
    ensures forall j :: 0 <= j < i ==> cs[j].kind != kind
  {
    if cs == [] || cs[0].kind == kind then 0 else 1 + Find(cs[1..], kind)
  }

  /** The condition of this type, if it is there. */
  function Get(cs: seq<Condition>, kind: ConditionType): Option<Condition> {
    var i := Find(cs, kind);
    if i < |cs| then Some(cs[i]) else None
  }

  /** What the upsert leaves behind: the transition time moves only with the status. */
  function Updated(before: Option<Condition>, c: Condition): Condition {
    if before.Some? && before.value.status == c.status then c.(transition := before.value.transition) else c
  }

  /** c.transition is the time of the call. */
  function Upsert(cs: seq<Condition>, c: Condition): seq<Condition> {
    var i := Find(cs, c.kind);
    if i < |cs| then cs[i := Updated(Some(cs[i]), c)] else cs + [c]
  }

  lemma FindIs(cs: seq<Condition>, kind: ConditionType, i: nat)
    requires i <= |cs|
    requires i < |cs| ==> cs[i].kind == kind
    requires forall j :: 0 <= j < i ==> cs[j].kind != kind
    ensures Find(cs, kind) == i
  {
  }

  /** The upsert sets the one condition and leaves the other type's alone. */
  lemma UpsertGet(cs: seq<Condition>, c: Condition, kind: ConditionType)
    ensures Get(Upsert(cs, c), kind) == if kind == c.kind then Some(Updated(Get(cs, kind), c)) else Get(cs, kind)
    ensures |Upsert(cs, c)| == |cs| + if Get(cs, c.kind).Some? then 0 else 1
  {
    var i := Find(cs, c.kind);
    var out := Upsert(cs, c);
    if kind == c.kind {
      FindIs(out, kind, i);
    } else {
      var k := Find(cs, kind);
      if k < |cs| {
        assert k != i;
        FindIs(out, kind, k);
      } else {
        FindIs(out, kind, |out|);
      }
    }
  }

  /** One condition per type. */
  predicate Keyed(cs: seq<Condition>) {
    forall i, j :: 0 <= i < j < |cs| ==> cs[i].kind != cs[j].kind
  }

  lemma UpsertKeyed(cs: seq<Condition>, c: Condition)
    requires Keyed(cs)
    ensures Keyed(Upsert(cs, c))
  {
  }
}
