// An abstract API server: objects by kind, namespace and name, and what one request does to them.
// Every request also consults an oracle, so that any of them may be refused, may take effect
// without its reply arriving, or may be answered from an old read.
module Server {
  import opened Base
  import opened Api
  import opened OwnerReferences
  import Resources

  datatype Kind = DeploymentKind | ServiceKind | PvcKind | SecretKind | ClusterKind | CrdKind

  datatype Key = Key(kind: Kind, ns: string, name: string)

  /**
   * `applied` are the owner references under this operator's own name, `others` everyone else's.
   * readyReplicas is the status of a Deployment.
   */
  datatype Object = Object(
    uid: Uid, applied: seq<OwnerReference>, others: seq<OwnerReference>, content: Resources.Content, readyReplicas: int)
  {
    function Owners(): seq<OwnerReference> {
      applied + others
    }
  }

  /** `live` are the owners that exist outside of this model. */
  datatype State = State(insts: map<Id, Instance>, objs: map<Key, Object>, live: set<Uid>)

  function Find(s: State, k: Key): Option<Object> {
    if k in s.objs then Some(s.objs[k]) else None
  }

  datatype Fault =
    | NoFault
    | Refused              // an error, and no effect
    | LostReply            // an error, although a write took effect
    | StaleAbsent          // a read from the cache that finds nothing
    | StaleSecret          // the same of a Secret, which only a cached client would see
    | StaleRead(earlier: Instance)  // a read of the instance that finds an earlier version

  /** Everything about one request that the operator does not control. */
  datatype Oracle = Oracle(fault: Fault, uid: Uid, raw: Option<seq<bv8>>, now: int, message: string)

  datatype Reply<+T> = Got(value: T) | Absent | Failed(message: string)

  predicate Errs(o: Oracle) {
    o.fault.Refused? || o.fault.LostReply?
  }

  // ----- Reads -----

  function GetInstance(s: State, id: Id, o: Oracle): Reply<Instance> {
    if Errs(o) then Failed(o.message)
    else if o.fault.StaleRead? then Got(o.fault.earlier)
    else if o.fault.StaleAbsent? || id !in s.insts then Absent
    else Got(s.insts[id])
  }

  function GetObject(s: State, k: Key, o: Oracle): Reply<Object> {
    if Errs(o) then Failed(o.message)
    else if (if k.kind.SecretKind? then o.fault.StaleSecret? else o.fault.StaleAbsent?) || k !in s.objs then Absent
    else Got(s.objs[k])
  }

  // ----- Writes -----

  /** Fails loudly when the object is already there. */
  function Create(s: State, k: Key, content: Resources.Content, refs: seq<OwnerReference>, o: Oracle)
    : (State, Reply<()>)
  {
    if o.fault.Refused? || k in s.objs then (s, Failed(o.message))
    else (s.(objs := s.objs[k := Object(o.uid, refs, [], content, 0)]),
          if o.fault.LostReply? then Failed(o.message) else Got(()))
  }

  /** A merge patch that names only the owner references: the list is replaced wholesale. */
  function PatchOwners(s: State, k: Key, refs: seq<OwnerReference>, o: Oracle): (State, Reply<()>) {
    if o.fault.Refused? || k !in s.objs then (s, Failed(o.message))
    else (s.(objs := s.objs[k := s.objs[k].(applied := refs, others := [])]),
          if o.fault.LostReply? then Failed(o.message) else Got(()))
  }

  /** The server accepts no second controller. */
  predicate OneController(refs: seq<OwnerReference>) {
    forall i, j :: 0 <= i < |refs| && 0 <= j < |refs|
                   && refs[i].controller == Some(true) && refs[j].controller == Some(true) ==>
      refs[i].uid == refs[j].uid
  }

  function Others(x: Option<Object>): seq<OwnerReference> {
    if x.Some? then x.value.others else []
  }

  /** Server-Side Apply: exactly this manager's entries and content are replaced. */
  function Applied(x: Option<Object>, content: Resources.Content, refs: seq<OwnerReference>, uid: Uid): Object {
    match x
    case None => Object(uid, refs, [], content, 0)
    case Some(obj) => obj.(applied := refs, content := content)
  }

  function Apply(s: State, k: Key, content: Resources.Content, refs: seq<OwnerReference>, o: Oracle)
    : (State, Reply<Object>)
  {
    if o.fault.Refused? || !OneController(refs + Others(Find(s, k))) then (s, Failed(o.message))
    else
      var obj := Applied(Find(s, k), content, refs, o.uid);
      (s.(objs := s.objs[k := obj]), if o.fault.LostReply? then Failed(o.message) else Got(obj))
  }

  /**
   * The merge patch between two statuses: a field is written only where they differ, and the condition
   * list as a whole.
   */
  function Merged(stored: Status, base: Status, now: Status): Status {
    Status(if now.conditions == base.conditions then stored.conditions else now.conditions,
           if now.observedGeneration == base.observedGeneration
           then stored.observedGeneration else now.observedGeneration)
  }

  function PatchStatus(s: State, id: Id, base: Status, now: Status, o: Oracle): (State, Reply<()>) {
    if o.fault.Refused? || id !in s.insts then (s, Failed(o.message))
    else (s.(insts := s.insts[id := s.insts[id].(status := Merged(s.insts[id].status, base, now))]),
          if o.fault.LostReply? then Failed(o.message) else Got(()))
  }

  // ----- Garbage collection -----

  function LiveUids(s: State): set<Uid> {
    s.live + (set id | id in s.insts :: s.insts[id].uid) + (set k | k in s.objs :: s.objs[k].uid)
  }

  /** It has owners, and none of them is left. */
  predicate Collectable(s: State, k: Key) {
    && k in s.objs
    && s.objs[k].Owners() != []
    && forall r :: r in s.objs[k].Owners() ==> r.uid !in LiveUids(s)
  }

  function Collect(s: State, k: Key): State
    requires Collectable(s, k)
  {
    s.(objs := s.objs - {k})
  }
}
