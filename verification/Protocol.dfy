// One reconcile pass as a sequence of single API requests. Between two requests the process may
// crash and anyone else may act; the control flow is that of Reconcile and its steps in
// internal/controller/paperlessinstance_controller.go and internal/controller/deletion_policy.go.
module Protocol {
  import opened Base
  import opened Api
  import opened Names
  import OwnerReferences
  import opened Resources
  import opened Server
  import C = Conditions

  // ----- What a pass goes through, in order -----

  datatype Stage = Secrets | Storage | Database | Cache | Workload

  datatype Item =
    | SecretItem(g: Generated)
    | PvcItem(part: Part)
    | ExternalDbItem
    | ClusterItem
    | ValkeyDeploymentItem
    | ValkeyServiceItem
    | ValkeyPvcItem
    | ServiceItem
    | DeploymentItem

  function StageOf(item: Item): Stage {
    match item
    case SecretItem(_) => Secrets
    case PvcItem(_) => Storage
    case ExternalDbItem => Database
    case ClusterItem => Database
    case ValkeyDeploymentItem => Cache
    case ValkeyServiceItem => Cache
    case ValkeyPvcItem => Cache
    case ServiceItem => Workload
    case DeploymentItem => Workload
  }

  /** Position of the database item in every plan. */
  const DATABASE_POS: nat := 6

  function Length(spec: Spec): nat {
    if spec.cache.IsManaged() then 12 else 9
  }

  /** The items of a pass, in order. */
  function Plan(spec: Spec, pos: nat): Item
    requires pos < Length(spec)
  {
    if pos == 0 then SecretItem(SecretKey)
    else if pos == 1 then SecretItem(Admin)
    else if pos == 2 then PvcItem(DataPart)
    else if pos == 3 then PvcItem(MediaPart)
    else if pos == 4 then PvcItem(ConsumePart)
    else if pos == 5 then PvcItem(ExportPart)
    else if pos == DATABASE_POS then (if spec.database.IsExternal() then ExternalDbItem else ClusterItem)
    else if pos + 1 == Length(spec) then DeploymentItem
    else if pos + 2 == Length(spec) then ServiceItem
    else if pos == 7 then ValkeyDeploymentItem
    else if pos == 8 then ValkeyServiceItem
    else ValkeyPvcItem
  }

  /** The object an item writes, or for an external database the one it reads. */
  function KeyOf(id: Id, spec: Spec, item: Item): Key {
    match item
    case SecretItem(g) => Key(SecretKind, id.ns, DerivedName(id.name, PartOf(g)))
    case PvcItem(part) => Key(PvcKind, id.ns, DerivedName(id.name, part))
    case ExternalDbItem =>
      Key(SecretKind, id.ns, if spec.database.external.Some? then spec.database.external.value.credentials else "")
    case ClusterItem => Key(ClusterKind, id.ns, DerivedName(id.name, DbPart))
    case ValkeyDeploymentItem => Key(DeploymentKind, id.ns, DerivedName(id.name, ValkeyPart))
    case ValkeyServiceItem => Key(ServiceKind, id.ns, DerivedName(id.name, ValkeyPart))
    case ValkeyPvcItem => Key(PvcKind, id.ns, DerivedName(id.name, ValkeyPart))
    case ServiceItem => Key(ServiceKind, id.ns, id.name)
    case DeploymentItem => Key(DeploymentKind, id.ns, id.name)
  }

  const CRD_KEY := Key(CrdKind, "", "clusters.postgresql.cnpg.io")

  /** The object an applied item describes. Secrets are never applied. */
  function ContentOf(id: Id, spec: Spec, item: Item): Content
    requires !item.SecretItem? && !item.ExternalDbItem?
  {
    match item
    case PvcItem(part) =>
      (match part
       case DataPart => VolumePvc(id, "data", spec.storage.data, DEFAULT_DATA_SIZE)
       case MediaPart => VolumePvc(id, "media", spec.storage.media, DEFAULT_MEDIA_SIZE)
       case ConsumePart => VolumePvc(id, "consume", spec.storage.consume, DEFAULT_CONSUME_SIZE)
       case _ => VolumePvc(id, "export", spec.storage.exported, DEFAULT_EXPORT_SIZE))
    case ClusterItem => ClusterOf(id, spec)
    case ValkeyDeploymentItem => ValkeyDeploymentOf(id)
    case ValkeyServiceItem => ServiceContent(Labels(id.name, "cache"))
    case ValkeyPvcItem => BuildPvc(id, "cache", VALKEY_DATA_SIZE, [], None)
    case ServiceItem => ServiceContent(Labels(id.name, "server"))
    case DeploymentItem => DeploymentOf(id, spec)
  }

  // ----- Ownership -----

  /** What SetControllerReference puts on an object that has no owners yet. */
  function ControllerRef(id: Id, uid: Uid): OwnerReferences.OwnerReference {
    OwnerReferences.OwnerReference("paperless.p3l1.de/v1alpha1", "PaperlessInstance", id.name, uid, Some(true),
                                   Some(true))
  }

  /** The reproducible objects are owned whatever the policy says. */
  predicate AlwaysOwned(item: Item) {
    item in [ValkeyDeploymentItem, ValkeyServiceItem, ValkeyPvcItem, ServiceItem, DeploymentItem]
  }

  predicate WantsOwner(spec: Spec, item: Item) {
    AlwaysOwned(item) || spec.Deletes()
  }

  function OwnersFor(id: Id, uid: Uid, spec: Spec, item: Item): seq<OwnerReferences.OwnerReference> {
    if WantsOwner(spec, item) then [ControllerRef(id, uid)] else []
  }

  predicate ControlledBy(obj: Object, uid: Uid) {
    var c := OwnerReferences.ControllerOf(obj.Owners());
    c.Some? && c.value.uid == uid
  }

  // ----- The state of a pass -----

  /** The instance as it was read, whose status is the patch's base, and the status in memory. */
  datatype Pass = Pass(id: Id, inst: Instance, status: Status)

  /** Only the status in memory may differ. */
  predicate SameRun(a: Pass, b: Pass) {
    a.id == b.id && a.inst == b.inst
  }

  /** What the next request is, within an item. */
  datatype Sub = First | ToCreate(value: string) | ToPatch | ToApply

  /** requeueAfter is in seconds; 0 means not requeued. */
  datatype Ending = Ending(requeueAfter: nat, error: Option<Message>)

  datatype RawProc =
    | Starting(id: Id)
    | Working(pass: Pass, pos: nat, sub: Sub)
    | Finishing(pass: Pass, pos: nat, result: Ending)
    | Finished(last: Option<Pass>, pos: nat, result: Ending)

  predicate Fits(p: RawProc) {
    match p
    case Working(pass, pos, sub) =>
      && pos < Length(pass.inst.spec)
      && ((sub.ToCreate? || sub.ToPatch?) ==> Plan(pass.inst.spec, pos).SecretItem?)
      && (sub.ToApply? ==> Plan(pass.inst.spec, pos).ClusterItem?)
    case Finishing(pass, pos, _) => pos <= Length(pass.inst.spec)
    case Finished(last, pos, _) => if last.Some? then pos <= Length(last.value.inst.spec) else pos == 0
    case Starting(_) => true
  }

  type Proc = p: RawProc | Fits(p) witness Starting(Id("", ""))

  // ----- Local steps -----

  /** SetCondition: the condition is stamped with the generation that was read. */
  function Set(pass: Pass, kind: ConditionType, status: bool, reason: Reason, message: Message, now: int): Pass {
    Put(pass, Condition(kind, status, pass.inst.generation, reason, message, now))
  }

  function Put(pass: Pass, c: Condition): Pass {
    pass.(status := pass.status.(conditions := C.Upsert(pass.status.conditions, c)))
  }

  function Seed(generation: int, now: int): Condition {
    Condition(Ready, false, generation, Reconciling, TheOperatorIsReconciling, now)
  }

  /** Ready=False before any step runs. */
  function Begin(id: Id, inst: Instance, now: int): Proc {
    Working(Put(Pass(id, inst, inst.status), Seed(inst.generation, now)), 0, First)
  }

  function FailureReason(stage: Stage): Reason {
    match stage
    case Secrets => SecretsNotReady
    case Storage => StorageNotReady
    case Database => DatabaseNotReady
    case Cache => CacheNotReady
    case Workload => WorkloadApplyFailed
  }

  function Fail(pass: Pass, pos: nat, message: Message, now: int): Proc
    requires pos < Length(pass.inst.spec)
  {
    var reason := FailureReason(StageOf(Plan(pass.inst.spec, pos)));
    Finishing(Set(pass, Ready, false, reason, message, now), pos, Ending(0, Some(message)))
  }

  const NOT_READY_REQUEUE: nat := 30

  /** No usable database yet: the pass stops here, and comes back by itself. */
  function NotUsable(pass: Pass, pos: nat, reason: Reason, message: Message, now: int): Proc
    requires pos < Length(pass.inst.spec)
  {
    var pass1 := Set(pass, DatabaseReady, false, reason, message, now);
    Finishing(Set(pass1, Ready, false, FailureReason(Database),
                  SeeDatabaseReady, now),
              pos, Ending(NOT_READY_REQUEUE, None))
  }

  function Advance(pass: Pass, pos: nat): Proc
    requires pos + 1 < Length(pass.inst.spec)
  {
    Working(pass, pos + 1, First)
  }

  function UsableDatabase(spec: Spec, generation: int, now: int): Condition {
    if spec.database.IsExternal()
    then Condition(DatabaseReady, true, generation, ExternalDatabaseConfigured,
                   UsingExternalDatabase, now)
    else Condition(DatabaseReady, true, generation, CloudNativePGClusterApplied,
                   ClusterHasBeenApplied, now)
  }

  /** The database is usable: the pass goes on to what needs it. */
  function Usable(pass: Pass, pos: nat, now: int): Proc
    requires pos + 1 < Length(pass.inst.spec)
  {
    Advance(Put(pass, UsableDatabase(pass.inst.spec, pass.inst.generation, now)), pos)
  }

  function WorkloadCondition(ready: bool, generation: int, now: int): Condition {
    if ready
    then Condition(Ready, true, generation, WorkloadReady, HasReadyReplica, now)
    else Condition(Ready, false, generation, WorkloadNotReady, WaitingForReadyReplica, now)
  }

  /** Ready follows the Deployment the server returned. */
  function Report(pass: Pass, pos: nat, readyReplicas: int, now: int): Proc
    requires pos + 1 == Length(pass.inst.spec)
  {
    Finishing(Put(pass, WorkloadCondition(readyReplicas >= 1, pass.inst.generation, now)), pos + 1, Ending(0, None))
  }

  // ----- One request -----

  /** Strictly decreases with every request. */
  function Remaining(p: Proc): nat {
    match p
    case Starting(_) => 100
    case Working(pass, pos, sub) => 2 * (Length(pass.inst.spec) - pos) + (if sub.First? then 1 else 0) + 1
    case Finishing(_, _, _) => 1
    case Finished(_, _, _) => 0
  }

  predicate HasCredentials(obj: Object) {
    obj.content.SecretContent? && "username" in obj.content.data && "password" in obj.content.data
  }

  function MissingKey(obj: Object): string {
    if obj.content.SecretContent? && "username" in obj.content.data then "password" else "username"
  }

  function StepSecret(pass: Pass, pos: nat, sub: Sub, s: State, o: Oracle): (r: (Proc, State))
    requires Fits(Working(pass, pos, sub)) && Plan(pass.inst.spec, pos).SecretItem?
    ensures Remaining(r.0) < Remaining(Working(pass, pos, sub))
  {
    var spec := pass.inst.spec;
    var item := Plan(spec, pos);
    var k := KeyOf(pass.id, spec, item);
    var refs := OwnersFor(pass.id, pass.inst.uid, spec, item);
    if sub.ToCreate? then
      var (s', reply) := Create(s, k, SecretWith(item.g, pass.id, spec, sub.value), refs, o);
      (if reply.Got? then Advance(pass, pos) else Fail(pass, pos, RequestFailed(o.message), o.now), s')
    else if sub.ToPatch? then
      var (s', reply) := PatchOwners(s, k, refs, o);
      (if reply.Got? then Advance(pass, pos) else Fail(pass, pos, RequestFailed(o.message), o.now), s')
    else
      match GetObject(s, k, o)
      case Failed(text) => (Fail(pass, pos, RequestFailed(text), o.now), s)
      case Got(obj) =>
        (if ControlledBy(obj, pass.inst.uid) == spec.Deletes() then Advance(pass, pos)
         else Working(pass, pos, ToPatch), s)
      case Absent =>
        (match Mint(item.g, pass.id, spec, o.raw)
         case Nothing => Advance(pass, pos)
         case Unbuildable(message) => Fail(pass, pos, message, o.now)
         case Value(value) => Working(pass, pos, ToCreate(value)), s)
  }

  /** Where the pass stands once the credentials have been looked up. */
  function AfterCredentials(pass: Pass, pos: nat, reply: Reply<Object>, o: Oracle): (p: Proc)
    requires pos == DATABASE_POS
    ensures Remaining(p) < Remaining(Working(pass, pos, First))
  {
    var name := KeyOf(pass.id, pass.inst.spec, ExternalDbItem).name;
    match reply
    case Failed(text) => Fail(pass, pos, RequestFailed(text), o.now)
    case Absent => NotUsable(pass, pos, ExternalDatabaseSecretMissing, SecretDoesNotExist(name), o.now)
    case Got(obj) =>
      if HasCredentials(obj) then Usable(pass, pos, o.now)
      else NotUsable(pass, pos, ExternalDatabaseSecretInvalid,
                     SecretMissesKey(name, MissingKey(obj)), o.now)
  }

  function StepExternalDatabase(pass: Pass, pos: nat, s: State, o: Oracle): (r: (Proc, State))
    requires Fits(Working(pass, pos, First)) && Plan(pass.inst.spec, pos).ExternalDbItem?
    ensures Remaining(r.0) < Remaining(Working(pass, pos, First))
  {
    (AfterCredentials(pass, pos, GetObject(s, KeyOf(pass.id, pass.inst.spec, ExternalDbItem), o), o), s)
  }

  function StepFindCrd(pass: Pass, pos: nat, s: State, o: Oracle): (r: (Proc, State))
    requires Fits(Working(pass, pos, First)) && Plan(pass.inst.spec, pos).ClusterItem?
    ensures Remaining(r.0) < Remaining(Working(pass, pos, First))
  {
    match GetObject(s, CRD_KEY, o)
    case Failed(text) => (Fail(pass, pos, RequestFailed(text), o.now), s)
    case Absent => (NotUsable(pass, pos, CloudNativePGMissing, InstallCloudNativePG, o.now), s)
    case Got(_) =>
      if !ValidName(DerivedName(pass.id.name, DbPart)) then (Fail(pass, pos, InvalidName, o.now), s)
      else (Working(pass, pos, ToApply), s)
  }

  function ApplyItem(pass: Pass, pos: nat, s: State, o: Oracle): (State, Reply<Object>)
    requires pos < Length(pass.inst.spec)
    requires !Plan(pass.inst.spec, pos).SecretItem? && !Plan(pass.inst.spec, pos).ExternalDbItem?
  {
    var spec := pass.inst.spec;
    var item := Plan(spec, pos);
    Apply(s, KeyOf(pass.id, spec, item), ContentOf(pass.id, spec, item), OwnersFor(pass.id, pass.inst.uid, spec, item),
          o)
  }

  /** Where the pass stands once an apply has been answered. */
  function AfterApply(pass: Pass, pos: nat, reply: Reply<Object>, o: Oracle): (p: Proc)
    requires pos < Length(pass.inst.spec)
    requires !Plan(pass.inst.spec, pos).SecretItem? && !Plan(pass.inst.spec, pos).ExternalDbItem?
    ensures Remaining(p) < 2 * (Length(pass.inst.spec) - pos) + 1
  {
    var item := Plan(pass.inst.spec, pos);
    match reply
    case Got(obj) =>
      if item.DeploymentItem? then Report(pass, pos, obj.readyReplicas, o.now)
      else if item.ClusterItem? then Usable(pass, pos, o.now)
      else Advance(pass, pos)
    case _ => Fail(pass, pos, RequestFailed(o.message), o.now)
  }

  function StepApply(pass: Pass, pos: nat, s: State, o: Oracle): (r: (Proc, State))
    requires pos < Length(pass.inst.spec)
    requires !Plan(pass.inst.spec, pos).SecretItem? && !Plan(pass.inst.spec, pos).ExternalDbItem?
    ensures Remaining(r.0) < 2 * (Length(pass.inst.spec) - pos) + 1
  {
    var (s', reply) := ApplyItem(pass, pos, s, o);
    (AfterApply(pass, pos, reply, o), s')
  }

  function Observed(pass: Pass): Status {
    pass.status.(observedGeneration := pass.inst.generation)
  }

  /** The next request of a pass, what the server makes of it, and where the pass then stands. */
  function Step(p: Proc, s: State, o: Oracle): (r: (Proc, State))
    ensures !p.Finished? ==> Remaining(r.0) < Remaining(p)
  {
    match p
    case Starting(id) =>
      (match GetInstance(s, id, o)
       case Failed(text) => (Finished(None, 0, Ending(0, Some(RequestFailed(text)))), s)
       case Absent => (Finished(None, 0, Ending(0, None)), s)
       case Got(inst) => (Begin(id, inst, o.now), s))
    case Working(pass, pos, sub) =>
      var item := Plan(pass.inst.spec, pos);
      if item.SecretItem? then StepSecret(pass, pos, sub, s, o)
      else if item.ExternalDbItem? then StepExternalDatabase(pass, pos, s, o)
      else if item.ClusterItem? && sub.First? then StepFindCrd(pass, pos, s, o)
      else StepApply(pass, pos, s, o)
    case Finishing(pass, pos, result) =>
      var (s', reply) := PatchStatus(s, pass.id, pass.inst.status, Observed(pass), o);
      (Finished(Some(pass), pos, if reply.Got? then result else Ending(0, Some(RequestFailed(o.message)))), s')
    case Finished(_, _, _) => (p, s)
  }

  // ----- A pass left to itself -----

  /** The outcomes of the requests to come, one after the other. */
  type Script = nat -> Oracle

  datatype Outcome = Outcome(proc: Proc, state: State, at: nat)

  /** The pass run to its end, request n taking its outcome from the script at `at` + n. */
  function Rest(p: Proc, s: State, script: Script, at: nat): (r: Outcome)
    ensures r.proc.Finished?
    decreases Remaining(p)
  {
    if p.Finished? then Outcome(p, s, at)
    else
      var (p', s') := Step(p, s, script(at));
      Rest(p', s', script, at + 1)
  }

  lemma RestStep(p: Proc, s: State, script: Script, at: nat)
    requires !p.Finished?
    ensures var (p', s') := Step(p, s, script(at)); Rest(p, s, script, at) == Rest(p', s', script, at + 1)
  {
  }

  /** The pass cut off after at most n requests: a crash. */
  function Cut(p: Proc, s: State, script: Script, at: nat, n: nat): Outcome
    decreases n
  {
    if n == 0 || p.Finished? then Outcome(p, s, at)
    else
      var (p', s') := Step(p, s, script(at));
      Cut(p', s', script, at + 1, n - 1)
  }
}
