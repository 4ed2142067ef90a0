// The reconciler as the program it is: methods that call the API server one request at a time, update
// the instance's status in place and return early. Each is proved to go the way of the protocol, so
// that what the other modules prove of passes holds of these methods.
module Controller {
  import opened Base
  import opened Json
  import opened Api
  import opened Names
  import opened OwnerReferences
  import opened Resources
  import opened Server
  import opened Protocol

  // ----- The API server as a client sees it -----

  class Client {
    const script: Script
    const encode: (Key, Content) -> map<string, Json>  // the library's encoding of an object
    var state: State
    var clock: nat  // requests made so far

    constructor (state: State, script: Script, encode: (Key, Content) -> map<string, Json>)
      ensures this.state == state && this.script == script && this.encode == encode && clock == 0
    {
      this.state, this.script, this.encode, clock := state, script, encode, 0;
    }

    /** The wall clock, as of the last reply. */
    function Now(): int
      requires clock > 0
      reads this
    {
      script(clock - 1).now
    }

    /** The random source. */
    function Random(): Option<seq<bv8>>
      requires clock > 0
      reads this
    {
      script(clock - 1).raw
    }

    method ReadInstance(id: Id) returns (r: Reply<Instance>)
      modifies this
      ensures state == old(state) && clock == old(clock) + 1
      ensures r == GetInstance(old(state), id, script(old(clock)))
    {
      r := GetInstance(state, id, script(clock));
      clock := clock + 1;
    }

    method Read(k: Key) returns (r: Reply<Object>)
      modifies this
      ensures state == old(state) && clock == old(clock) + 1
      ensures r == GetObject(old(state), k, script(old(clock)))
    {
      r := GetObject(state, k, script(clock));
      clock := clock + 1;
    }

    method CreateSecret(k: Key, content: Content, refs: seq<OwnerReference>) returns (r: Reply<()>)
      modifies this
      ensures clock == old(clock) + 1
      ensures (state, r) == Server.Create(old(state), k, content, refs, script(old(clock)))
    {
      var (s, reply) := Server.Create(state, k, content, refs, script(clock));
      state, clock, r := s, clock + 1, reply;
    }

    /** A JSON merge patch on a Secret, which must name nothing but the owner references. */
    method MergePatchSecret(k: Key, body: Json) returns (r: Reply<()>)
      requires body == OwnerPatch(StatedRefs(body))
      modifies this
      ensures clock == old(clock) + 1
      ensures (state, r) == PatchOwners(old(state), k, StatedRefs(body), script(old(clock)))
    {
      var (s, reply) := PatchOwners(state, k, StatedRefs(body), script(clock));
      state, clock, r := s, clock + 1, reply;
    }

    /** A forced Server-Side Apply, whose body must describe the whole object and state its owner references. */
    method ApplyPatch(k: Key, content: Content, body: Json) returns (r: Reply<Object>)
      requires body == Obj(Explicit(encode(k, content), StatedRefs(body)))
      modifies this
      ensures clock == old(clock) + 1
      ensures (state, r) == Server.Apply(old(state), k, content, StatedRefs(body), script(old(clock)))
    {
      var (s, reply) := Server.Apply(state, k, content, StatedRefs(body), script(clock));
      state, clock, r := s, clock + 1, reply;
    }

    method PatchInstanceStatus(id: Id, base: Status, now: Status) returns (r: Reply<()>)
      modifies this
      ensures clock == old(clock) + 1
      ensures (state, r) == Server.PatchStatus(old(state), id, base, now, script(old(clock)))
    {
      var (s, reply) := Server.PatchStatus(state, id, base, now, script(clock));
      state, clock, r := s, clock + 1, reply;
    }
  }

  // ----- The instance in memory -----

  class Live {
    const id: Id
    const read: Instance  // as first read: the status patch's base
    var status: Status

    constructor (id: Id, read: Instance)
      ensures this.id == id && this.read == read && status == read.status
    {
      this.id, this.read, status := id, read, read.status;
    }

    function AsPass(): Pass
      reads this
    {
      Pass(id, read, status)
    }

    /** Upserts a condition in place, stamped with the generation that was read. */
    method SetCondition(kind: ConditionType, value: bool, reason: Reason, message: Message, now: int)
      modifies this
      ensures AsPass() == Set(old(AsPass()), kind, value, reason, message, now)
    {
      var cs := status.conditions;
      var c := Condition(kind, value, read.generation, reason, message, now);
      var i := 0;
      while i < |cs| && cs[i].kind != kind
        invariant 0 <= i <= |cs|
        invariant forall j :: 0 <= j < i ==> cs[j].kind != kind
      {
        i := i + 1;
      }
      C.FindIs(cs, kind, i);
      if i == |cs| {
        cs := cs + [c];
      } else {
        if cs[i].status == c.status {
          c := c.(transition := cs[i].transition);
        }
        cs := cs[i := c];
      }
      status := status.(conditions := cs);
    }
  }

  // ----- One step of the protocol at a time -----

  /** What becomes of a pass from some point on. */
  type Future = (Proc, State, nat) -> Outcome

  /** It is what the protocol makes of it, one request after the other. */
  ghost predicate Follows(future: Future, script: Script) {
    && (forall p: Proc, s: State, at: nat {:trigger Step(p, s, script(at))} :: !p.Finished? ==>
          future(p, s, at) == future(Step(p, s, script(at)).0, Step(p, s, script(at)).1, at + 1))
    && (forall p: Proc, s: State, at: nat {:trigger future(p, s, at)} :: p.Finished? ==>
          future(p, s, at) == Outcome(p, s, at))
  }

  /** The pass left to itself. */
  ghost function RestOf(script: Script): Future {
    (p: Proc, s: State, at: nat) => Rest(p, s, script, at)
  }

  lemma RestFollows(script: Script)
    ensures Follows(RestOf(script), script)
  {
    forall p: Proc, s: State, at: nat | !p.Finished?
      ensures RestOf(script)(p, s, at) == RestOf(script)(Step(p, s, script(at)).0, Step(p, s, script(at)).1, at + 1)
    {
      RestStep(p, s, script, at);
    }
  }

  lemma RestOfIs(id: Id, s: State, script: Script, at: nat)
    ensures RestOf(script)(Starting(id), s, at) == Rest(Starting(id), s, script, at)
  {
  }

  /** Acknowledged, the pass moves on; otherwise it fails with what the server said. */
  function Answered<T>(pass: Pass, pos: nat, reply: Reply<T>, o: Oracle): Proc
    requires pos + 1 < Length(pass.inst.spec)
  {
    if reply.Got? then Advance(pass, pos) else Fail(pass, pos, RequestFailed(o.message), o.now)
  }

  lemma CreateStep(future: Future, pass: Pass, g: Generated, value: string, s: State, script: Script, at: nat)
    requires Follows(future, script)
    ensures var pos := PositionOf(g);
            var (s', reply) := Server.Create(s, KeyOf(pass.id, pass.inst.spec, SecretItem(g)),
                                             SecretWith(g, pass.id, pass.inst.spec, value),
                                             OwnersFor(pass.id, pass.inst.uid, pass.inst.spec, SecretItem(g)),
                                             script(at));
            future(Working(pass, pos, ToCreate(value)), s, at) ==
            future(Answered(pass, pos, reply, script(at)), s', at + 1)
  {
    var p := Working(pass, PositionOf(g), ToCreate(value));
    assert Step(p, s, script(at)) == StepSecret(pass, PositionOf(g), ToCreate(value), s, script(at));
  }

  lemma PatchStep(future: Future, pass: Pass, g: Generated, s: State, script: Script, at: nat)
    requires Follows(future, script)
    ensures var pos := PositionOf(g);
            var (s', reply) := PatchOwners(s, KeyOf(pass.id, pass.inst.spec, SecretItem(g)),
                                           OwnersFor(pass.id, pass.inst.uid, pass.inst.spec, SecretItem(g)),
                                           script(at));
            future(Working(pass, pos, ToPatch), s, at) ==
            future(Answered(pass, pos, reply, script(at)), s', at + 1)
  {
    var p := Working(pass, PositionOf(g), ToPatch);
    assert Step(p, s, script(at)) == StepSecret(pass, PositionOf(g), ToPatch, s, script(at));
  }

  /** Where the pass stands once the Secret has been looked up. */
  function AfterLookup(pass: Pass, g: Generated, reply: Reply<Object>, o: Oracle): Proc {
    var pos := PositionOf(g);
    match reply
    case Failed(text) => Fail(pass, pos, RequestFailed(text), o.now)
    case Got(obj) => Aligned(pass, g, obj)
    case Absent =>
      match Mint(g, pass.id, pass.inst.spec, o.raw)
      case Nothing => Advance(pass, pos)
      case Unbuildable(message) => Fail(pass, pos, message, o.now)
      case Value(value) => Working(pass, pos, ToCreate(value))
  }

  /** A Secret that is there is passed over or patched. */
  function Aligned(pass: Pass, g: Generated, obj: Object): Proc {
    if ControlledBy(obj, pass.inst.uid) == (pass.inst.spec.deletionPolicy == Delete) then Advance(pass, PositionOf(g))
    else Working(pass, PositionOf(g), ToPatch)
  }

  lemma LookupStep(future: Future, pass: Pass, g: Generated, s: State, script: Script, at: nat)
    requires Follows(future, script)
    ensures future(Working(pass, PositionOf(g), First), s, at) ==
            future(AfterLookup(pass, g, GetObject(s, KeyOf(pass.id, pass.inst.spec, SecretItem(g)), script(at)),
                             script(at)),
                 s, at + 1)
  {
    var p := Working(pass, PositionOf(g), First);
    assert Step(p, s, script(at)) == StepSecret(pass, PositionOf(g), First, s, script(at));
  }

  lemma DeploymentReported(pass: Pass, reply: Reply<Object>, o: Oracle)
    ensures AfterApply(pass, Length(pass.inst.spec) - 1, reply, o) == AfterDeployment(pass, reply, o)
  {
  }

  lemma ClusterAnswered(pass: Pass, reply: Reply<Object>, o: Oracle)
    requires !pass.inst.spec.database.IsExternal()
    ensures AfterApply(pass, DATABASE_POS, reply, o) == AfterCluster(pass, reply, o)
  {
  }

  lemma WorkloadStage(spec: Spec)
    ensures Plan(spec, Length(spec) - 2) == ServiceItem && Plan(spec, Length(spec) - 1) == DeploymentItem
    ensures StageOf(ServiceItem) == Workload && StageOf(DeploymentItem) == Workload && AlwaysOwned(ServiceItem)
  {
  }

  lemma CacheStage(spec: Spec, pos: nat)
    requires spec.cache.IsManaged() && DATABASE_POS < pos <= 9
    ensures pos + 1 < Length(spec) - 1 && StageOf(Plan(spec, pos)) == Cache
  {
  }

  /** The arguments are the ones the item at this position calls for. */
  predicate Describes(pass: Pass, pos: nat, sub: Sub, k: Key, content: Content, refs: seq<OwnerReference>) {
    && Fits(Working(pass, pos, sub))
    && var item := Plan(pass.inst.spec, pos);
    && !item.SecretItem? && !item.ExternalDbItem?
    && (item.ClusterItem? ==> sub.ToApply?)
    && k == KeyOf(pass.id, pass.inst.spec, item)
    && content == ContentOf(pass.id, pass.inst.spec, item)
    && refs == OwnersFor(pass.id, pass.inst.uid, pass.inst.spec, item)
  }

  lemma ApplyStep(future: Future, pass: Pass, pos: nat, sub: Sub, k: Key, content: Content, refs: seq<OwnerReference>,
                  s: State,
                  script: Script, at: nat)
    requires Follows(future, script)
    requires Describes(pass, pos, sub, k, content, refs)
    ensures var (s', reply) := Server.Apply(s, k, content, refs, script(at));
            future(Working(pass, pos, sub), s, at) ==
                future(AfterApply(pass, pos, reply, script(at)), s', at + 1)
  {
    assert Step(Working(pass, pos, sub), s, script(at)) == StepApply(pass, pos, s, script(at));
  }

  /** For most items an apply is either acknowledged or fails the pass. */
  lemma AfterPlainApply(pass: Pass, pos: nat, reply: Reply<Object>, o: Oracle)
    requires pos < Length(pass.inst.spec)
    requires var item := Plan(pass.inst.spec, pos);
             item.PvcItem? || (AlwaysOwned(item) && !item.DeploymentItem?)
    ensures AfterApply(pass, pos, reply, o) ==
            if reply.Got? then Advance(pass, pos) else Fail(pass, pos, RequestFailed(o.message), o.now)
  {
  }

  lemma PlainApplyStep(future: Future, pass: Pass, pos: nat, k: Key, content: Content, refs: seq<OwnerReference>,
                       s: State,
                       script: Script, at: nat)
    requires Follows(future, script)
    requires Describes(pass, pos, First, k, content, refs)
    requires var item := Plan(pass.inst.spec, pos);
             item.PvcItem? || (AlwaysOwned(item) && !item.DeploymentItem?)
    ensures pos + 1 < Length(pass.inst.spec)
    ensures var (s', reply) := Server.Apply(s, k, content, refs, script(at));
            future(Working(pass, pos, First), s, at) ==
            future(Answered(pass, pos, reply, script(at)), s', at + 1)
  {
    ApplyStep(future, pass, pos, First, k, content, refs, s, script, at);
    AfterPlainApply(pass, pos, Server.Apply(s, k, content, refs, script(at)).1, script(at));
  }

  /** Where the pass stands once the Cluster has been applied. */
  function AfterCluster(pass: Pass, reply: Reply<Object>, o: Oracle): Proc {
    if !reply.Got? then Fail(pass, DATABASE_POS, RequestFailed(o.message), o.now)
    else Advance(Set(pass, DatabaseReady, true, CloudNativePGClusterApplied, ClusterHasBeenApplied, o.now),
                 DATABASE_POS)
  }

  lemma ClusterStep(future: Future, pass: Pass, s: State, script: Script, at: nat)
    requires Follows(future, script)
    requires !pass.inst.spec.database.IsExternal()
    ensures var (s', reply) := Server.Apply(s, KeyOf(pass.id, pass.inst.spec, ClusterItem),
                                            ClusterOf(pass.id, pass.inst.spec),
                                            OwnersFor(pass.id, pass.inst.uid, pass.inst.spec, ClusterItem), script(at));
            future(Working(pass, DATABASE_POS, ToApply), s, at) ==
            future(AfterCluster(pass, reply, script(at)), s', at + 1)
  {
    var k, content := KeyOf(pass.id, pass.inst.spec, ClusterItem), ClusterOf(pass.id, pass.inst.spec);
    var refs := OwnersFor(pass.id, pass.inst.uid, pass.inst.spec, ClusterItem);
    ApplyStep(future, pass, DATABASE_POS, ToApply, k, content, refs, s, script, at);
    ClusterAnswered(pass, Server.Apply(s, k, content, refs, script(at)).1, script(at));
  }

  /** Where the pass stands once the Deployment has been applied: the reply decides Ready. */
  function AfterDeployment(pass: Pass, reply: Reply<Object>, o: Oracle): Proc {
    var pos := Length(pass.inst.spec) - 1;
    if !reply.Got? then Fail(pass, pos, RequestFailed(o.message), o.now)
    else if reply.value.readyReplicas >= 1
    then Finishing(Set(pass, Ready, true, WorkloadReady, HasReadyReplica, o.now), pos + 1, Ending(0, None))
    else Finishing(Set(pass, Ready, false, WorkloadNotReady, WaitingForReadyReplica, o.now), pos + 1, Ending(0, None))
  }

  /** From here the pass goes on as after an apply of this object. */
  ghost predicate AppliedAt(future: Future, script: Script, pass: Pass, content: Content, s: State, at: nat) {
    var (s', reply) := Server.Apply(s, KeyOf(pass.id, pass.inst.spec, DeploymentItem), content,
                                    [ControllerRef(pass.id, pass.inst.uid)], script(at));
    future(Working(pass, Length(pass.inst.spec) - 1, First), s, at) ==
    future(AfterDeployment(pass, reply, script(at)), s', at + 1)
  }

  lemma DeploymentStep(future: Future, pass: Pass, content: Content, s: State, script: Script, at: nat)
    requires Follows(future, script)
    requires Describes(pass, Length(pass.inst.spec) - 1, First, KeyOf(pass.id, pass.inst.spec, DeploymentItem), content,
                       [ControllerRef(pass.id, pass.inst.uid)])
    ensures AppliedAt(future, script, pass, content, s, at)
  {
    var k, refs := KeyOf(pass.id, pass.inst.spec, DeploymentItem), [ControllerRef(pass.id, pass.inst.uid)];
    ApplyStep(future, pass, Length(pass.inst.spec) - 1, First, k, content, refs, s, script, at);
    DeploymentReported(pass, Server.Apply(s, k, content, refs, script(at)).1, script(at));
  }

  /** It is this object that the pass applies as its Deployment, whenever it comes to it. */
  ghost predicate AppliedNext(future: Future, script: Script, pass: Pass, content: Content) {
    forall s: State, at: nat :: AppliedAt(future, script, pass, content, s, at)
  }

  lemma DeploymentIsNext(future: Future, script: Script, pass: Pass, content: Content)
    requires Follows(future, script)
    requires Describes(pass, Length(pass.inst.spec) - 1, First, KeyOf(pass.id, pass.inst.spec, DeploymentItem), content,
                       [ControllerRef(pass.id, pass.inst.uid)])
    ensures AppliedNext(future, script, pass, content)
  {
    forall s: State, at: nat ensures AppliedAt(future, script, pass, content, s, at) {
      DeploymentStep(future, pass, content, s, script, at);
    }
  }

  lemma CredentialsStep(future: Future, pass: Pass, s: State, script: Script, at: nat)
    requires Follows(future, script)
    requires pass.inst.spec.database.IsExternal()
    ensures future(Working(pass, DATABASE_POS, First), s, at) ==
            future(AfterCredentials(pass, DATABASE_POS,
                                  GetObject(s, KeyOf(pass.id, pass.inst.spec, ExternalDbItem), script(at)), script(at)),
                 s, at + 1)
  {
    var p := Working(pass, DATABASE_POS, First);
    assert Step(p, s, script(at)) == StepExternalDatabase(pass, DATABASE_POS, s, script(at));
  }

  lemma CrdStep(future: Future, pass: Pass, s: State, script: Script, at: nat)
    requires Follows(future, script)
    requires !pass.inst.spec.database.IsExternal()
    ensures future(Working(pass, DATABASE_POS, First), s, at) ==
            future(StepFindCrd(pass, DATABASE_POS, s, script(at)).0, s, at + 1)
  {
    var p := Working(pass, DATABASE_POS, First);
    assert Step(p, s, script(at)) == StepFindCrd(pass, DATABASE_POS, s, script(at));
  }

  /** What the caller still has to do when there is no usable database: say so on Ready, and come back. */
  function Blocked(pass: Pass, now: int): Proc {
    Finishing(Set(pass, Ready, false, FailureReason(Database), SeeDatabaseReady, now),
              DATABASE_POS, Ending(NOT_READY_REQUEUE, None))
  }

  /** Where the pass stands after the database step, whose outcome is `usable` and `err`. */
  function AfterDatabase(pass: Pass, usable: bool, err: Option<Message>, now: int): Proc {
    if err.Some? then Fail(pass, DATABASE_POS, err.value, now)
    else if usable then Advance(pass, DATABASE_POS)
    else Blocked(pass, now)
  }

  lemma StartStep(future: Future, id: Id, s: State, script: Script, at: nat)
    requires Follows(future, script)
    ensures var r := GetInstance(s, id, script(at));
            future(Starting(id), s, at) ==
            match r
            case Failed(text) => Outcome(Finished(None, 0, Ending(0, Some(RequestFailed(text)))), s, at + 1)
            case Absent => Outcome(Finished(None, 0, Ending(0, None)), s, at + 1)
            case Got(read) => future(Begin(id, read, script(at).now), s, at + 1)
  {
    var (p', s') := Step(Starting(id), s, script(at));
    assert future(Starting(id), s, at) == future(p', s', at + 1);
  }

  lemma FinishStep(future: Future, pass: Pass, pos: nat, result: Ending, s: State, script: Script, at: nat)
    requires Follows(future, script)
    requires pos <= Length(pass.inst.spec)
    ensures var (s', reply) := Server.PatchStatus(s, pass.id, pass.inst.status, Observed(pass), script(at));
            future(Finishing(pass, pos, result), s, at) ==
            Outcome(Finished(Some(pass), pos, if reply.Got? then result
                             else Ending(0, Some(RequestFailed(script(at).message)))),
                    s', at + 1)
  {
    var (p', s') := Step(Finishing(pass, pos, result), s, script(at));
    assert future(Finishing(pass, pos, result), s, at) == future(p', s', at + 1);
  }

  lemma DeploymentItemContent(id: Id, spec: Spec)
    ensures ContentOf(id, spec, DeploymentItem) == DeploymentOf(id, spec)
  {
  }

  lemma DeploymentDescribed(pass: Pass, content: Content)
    requires content == ContentOf(pass.id, pass.inst.spec, DeploymentItem)
    ensures Describes(pass, Length(pass.inst.spec) - 1, First, KeyOf(pass.id, pass.inst.spec, DeploymentItem), content,
                      [ControllerRef(pass.id, pass.inst.uid)])
  {
  }

  /** What the lookup of the credentials comes to, condition by condition. */
  lemma CredentialsAnswered(pass: Pass, reply: Reply<Object>, o: Oracle)
    requires pass.inst.spec.database.IsExternal()
    ensures var secret := pass.inst.spec.database.external.value.credentials;
            AfterCredentials(pass, DATABASE_POS, reply, o) ==
            match reply
            case Failed(text) => Fail(pass, DATABASE_POS, RequestFailed(text), o.now)
            case Absent =>
              Blocked(Set(pass, DatabaseReady, false, ExternalDatabaseSecretMissing, SecretDoesNotExist(secret),
                          o.now), o.now)
            case Got(obj) =>
              if HasCredentials(obj)
              then Advance(Set(pass, DatabaseReady, true, ExternalDatabaseConfigured, UsingExternalDatabase, o.now),
                           DATABASE_POS)
              else Blocked(Set(pass, DatabaseReady, false, ExternalDatabaseSecretInvalid,
                               SecretMissesKey(secret, MissingKey(obj)), o.now), o.now)
  {
  }

  /** resources.PVCs: the four claims, by key and content. */
  function Pvcs(id: Id, spec: Spec): seq<(Key, Content)> {
    [(Key(PvcKind, id.ns, DerivedName(id.name, DataPart)),
      VolumePvc(id, "data", spec.storage.data, DEFAULT_DATA_SIZE)),
     (Key(PvcKind, id.ns, DerivedName(id.name, MediaPart)),
      VolumePvc(id, "media", spec.storage.media, DEFAULT_MEDIA_SIZE)),
     (Key(PvcKind, id.ns, DerivedName(id.name, ConsumePart)),
      VolumePvc(id, "consume", spec.storage.consume, DEFAULT_CONSUME_SIZE)),
     (Key(PvcKind, id.ns, DerivedName(id.name, ExportPart)),
      VolumePvc(id, "export", spec.storage.exported, DEFAULT_EXPORT_SIZE))]
  }

  lemma PvcDescribed(pass: Pass, i: nat)
    requires i < 4
    ensures Plan(pass.inst.spec, i + 2).PvcItem?
    ensures Describes(pass, i + 2, First, Pvcs(pass.id, pass.inst.spec)[i].0, Pvcs(pass.id, pass.inst.spec)[i].1,
                      if pass.inst.spec.deletionPolicy == Delete then [ControllerRef(pass.id, pass.inst.uid)] else [])
  {
  }

  lemma PvcStep(future: Future, pass: Pass, i: nat, k: Key, content: Content, s: State, script: Script, at: nat)
    requires Follows(future, script)
    requires i < 4 && (k, content) == Pvcs(pass.id, pass.inst.spec)[i]
    ensures i + 3 < Length(pass.inst.spec)
    ensures var refs := if pass.inst.spec.deletionPolicy == Delete then [ControllerRef(pass.id, pass.inst.uid)] else [];
            var (s', reply) := Server.Apply(s, k, content, refs, script(at));
            future(Working(pass, i + 2, First), s, at) == future(Answered(pass, i + 2, reply, script(at)), s', at + 1)
  {
    PvcDescribed(pass, i);
    PlainApplyStep(future, pass, i + 2, k, content,
                   if pass.inst.spec.deletionPolicy == Delete then [ControllerRef(pass.id, pass.inst.uid)] else [],
                   s, script, at);
  }

  function PositionOf(g: Generated): nat {
    if g == SecretKey then 0 else 1
  }

  class Reconciler {
    const client: Client
    ghost const future: Future  // the methods below are proved for any that follows the protocol

    ghost predicate Valid() {
      future == RestOf(client.script)
    }

    constructor (client: Client)
      ensures this.client == client && Valid()
    {
      this.client, future := client, RestOf(client.script);
    }

    /** isControlledBy. */
    method IsControlledBy(obj: Object, uid: Uid) returns (b: bool)
      ensures b == ControlledBy(obj, uid)
    {
      var refs := obj.Owners();
      var i := 0;
      while i < |refs| && refs[i].controller != Some(true)
        invariant 0 <= i <= |refs|
        invariant ControllerOf(refs) == ControllerOf(refs[i..])
      {
        i := i + 1;
      }
      b := i < |refs| && refs[i].uid == uid;
    }

    /** A merge patch that names nothing but the owner references. */
    method PatchSecretOwners(inst: Live, g: Generated, refs: seq<OwnerReference>) returns (err: Option<Message>)
      requires Follows(future, client.script)
      requires refs == OwnersFor(inst.id, inst.read.uid, inst.read.spec, SecretItem(g))
      modifies client
      ensures client.clock > 0
      ensures future(Working(inst.AsPass(), PositionOf(g), ToPatch), old(client.state), old(client.clock)) ==
              future(if err.None? then Advance(inst.AsPass(), PositionOf(g))
                   else Fail(inst.AsPass(), PositionOf(g), err.value, client.Now()),
                   client.state, client.clock)
    {
      var list := OwnerReferencesJson(refs);
      var body := Obj(map["metadata" := Obj(map["ownerReferences" := Arr(list)])]);
      BodiesStateRefs(map[], refs);
      PatchStep(future, inst.AsPass(), g, client.state, client.script, client.clock);
      var reply := client.MergePatchSecret(KeyOf(inst.id, inst.read.spec, SecretItem(g)), body);
      if reply.Got? {
        return None;
      }
      var m := LastError();
      return Some(m);
    }

    /** Aligns the ownership of a Secret that is there; no request when it already matches. */
    method ReconcileSecretOwnership(inst: Live, g: Generated, secret: Object) returns (err: Option<Message>)
      requires Follows(future, client.script)
      requires client.clock > 0
      modifies client
      ensures client.clock > 0
      ensures future(Aligned(inst.AsPass(), g, secret), old(client.state), old(client.clock)) ==
              future(if err.None? then Advance(inst.AsPass(), PositionOf(g))
                   else Fail(inst.AsPass(), PositionOf(g), err.value, client.Now()),
                   client.state, client.clock)
    {
      var wantOwned := inst.read.spec.DeletionPolicyOrDefault() == Delete;
      var isOwned := IsControlledBy(secret, inst.read.uid);
      if wantOwned == isOwned {
        return None;
      }
      var refs := [];
      if wantOwned {
        refs := [ControllerRef(inst.id, inst.read.uid)];
      }
      err := PatchSecretOwners(inst, g, refs);
    }

    /** Create only, never apply: the value is fresh on every call. */
    method CreateGenerated(inst: Live, g: Generated, value: string) returns (err: Option<Message>)
      requires Follows(future, client.script)
      modifies client
      ensures var pass, pos := inst.AsPass(), PositionOf(g);
              client.clock > 0
              && future(Working(pass, pos, ToCreate(value)), old(client.state), old(client.clock)) ==
                 future(if err.None? then Advance(pass, pos) else Fail(pass, pos, err.value, client.Now()),
                      client.state, client.clock)
    {
      var spec := inst.read.spec;
      var refs := [];
      if spec.DeletionPolicyOrDefault() == Delete {
        refs := [ControllerRef(inst.id, inst.read.uid)];
      }
      CreateStep(future, inst.AsPass(), g, value, client.state, client.script, client.clock);
      var reply := client.CreateSecret(KeyOf(inst.id, spec, SecretItem(g)), SecretWith(g, inst.id, spec, value), refs);
      err := if reply.Got? then None else Some(RequestFailed(client.script(client.clock - 1).message));
    }

    /** The Secret was looked up and is not there. */
    method BuildAndCreate(inst: Live, g: Generated) returns (err: Option<Message>)
      requires Follows(future, client.script) && client.clock > 0
      modifies client
      ensures var pass, pos := inst.AsPass(), PositionOf(g);
              client.clock > 0
              && future(AfterLookup(pass, g, Absent, client.script(old(client.clock) - 1)), old(client.state),
                        old(client.clock)) ==
                 future(if err.None? then Advance(pass, pos) else Fail(pass, pos, err.value, client.Now()),
                        client.state, client.clock)
    {
      var built := MintSecret(g, inst.id, inst.read.spec, client.Random());
      if built.Value? {
        err := CreateGenerated(inst, g, built.value);
      } else {
        err := if built.Nothing? then None else Some(built.message);
      }
    }

    /** Creates the Secret only when none is there; one that is has its ownership aligned instead. */
    method EnsureGeneratedSecret(inst: Live, g: Generated) returns (err: Option<Message>)
      requires Follows(future, client.script)
      modifies client
      ensures var pass, pos := inst.AsPass(), PositionOf(g);
              client.clock > 0
              && future(Working(pass, pos, First), old(client.state), old(client.clock)) ==
                 future(if err.None? then Advance(pass, pos) else Fail(pass, pos, err.value, client.Now()),
                      client.state, client.clock)
    {
      LookupStep(future, inst.AsPass(), g, client.state, client.script, client.clock);
      var existing := client.Read(KeyOf(inst.id, inst.read.spec, SecretItem(g)));
      if existing.Got? {
        err := ReconcileSecretOwnership(inst, g, existing.value);
      } else if existing.Failed? {
        err := Some(RequestFailed(existing.message));
      } else {
        err := BuildAndCreate(inst, g);
      }
    }

    method ReconcileSecrets(inst: Live) returns (err: Option<Message>, ghost pos: nat)
      requires Follows(future, client.script)
      modifies client
      ensures client.clock > 0 && pos < DATABASE_POS && (err.None? ==> pos == 1)
      ensures var pass := inst.AsPass();
              StageOf(Plan(pass.inst.spec, pos)) == Secrets
              && future(Working(pass, 0, First), old(client.state), old(client.clock)) ==
                 future(if err.None? then Advance(pass, pos) else Fail(pass, pos, err.value, client.Now()),
                      client.state, client.clock)
    {
      pos := 0;
      err := EnsureGeneratedSecret(inst, SecretKey);
      if err.None? {
        pos := 1;
        err := EnsureGeneratedSecret(inst, Admin);
      }
    }

    /** The object as the library encodes it, with exactly these owner references. */
    method ApplyBody(k: Key, content: Content, refs: seq<OwnerReference>) returns (body: Json)
      ensures body == Obj(Explicit(client.encode(k, content), refs)) && StatedRefs(body) == refs
    {
      var data := Obj(client.encode(k, content));
      var result := SetExplicitOwnerReferences(data, refs);
      BodiesStateRefs(data.fields, refs);
      body := result.value;
    }

    /** Server-Side Applies the object with its owner references stated explicitly. */
    method Apply(k: Key, content: Content, refs: seq<OwnerReference>) returns (reply: Reply<Object>)
      modifies client
      ensures client.clock == old(client.clock) + 1
      ensures (client.state, reply) ==
              Server.Apply(old(client.state), k, content, refs, client.script(old(client.clock)))
    {
      var body := ApplyBody(k, content, refs);
      reply := client.ApplyPatch(k, content, body);
    }

    /** Ties the object to the instance whatever the policy. */
    method ApplyOwned(inst: Live, k: Key, content: Content) returns (reply: Reply<Object>)
      modifies client
      ensures client.clock == old(client.clock) + 1
      ensures (client.state, reply) ==
              Server.Apply(old(client.state), k, content, [ControllerRef(inst.id, inst.read.uid)],
                           client.script(old(client.clock)))
    {
      reply := Apply(k, content, [ControllerRef(inst.id, inst.read.uid)]);
    }

    /** Ties the object to the instance under Delete, and to nothing under Retain. */
    method ApplyStateful(inst: Live, k: Key, content: Content) returns (reply: Reply<Object>)
      modifies client
      ensures client.clock == old(client.clock) + 1
      ensures (client.state, reply) ==
              Server.Apply(old(client.state), k, content,
                           if inst.read.spec.deletionPolicy == Delete then [ControllerRef(inst.id, inst.read.uid)]
                               else [],
                           client.script(old(client.clock)))
    {
      var refs := [];
      if inst.read.spec.DeletionPolicyOrDefault() == Delete {
        refs := [ControllerRef(inst.id, inst.read.uid)];
      }
      reply := Apply(k, content, refs);
    }

    method LastError() returns (m: Message)
      requires client.clock > 0
      ensures m == RequestFailed(client.script(client.clock - 1).message)
    {
      m := RequestFailed(client.script(client.clock - 1).message);
    }

    method ApplyPvc(inst: Live, ghost i: nat, k: Key, content: Content) returns (err: Option<Message>)
      requires Follows(future, client.script)
      requires i < 4 && (k, content) == Pvcs(inst.id, inst.read.spec)[i]
      modifies client
      ensures client.clock > 0
      ensures future(Working(inst.AsPass(), i + 2, First), old(client.state), old(client.clock)) ==
              future(if err.None? then Advance(inst.AsPass(), i + 2)
                   else Fail(inst.AsPass(), i + 2, err.value, client.Now()),
                   client.state, client.clock)
    {
      PvcStep(future, inst.AsPass(), i, k, content, client.state, client.script, client.clock);
      var reply := ApplyStateful(inst, k, content);
      if reply.Got? {
        return None;
      }
      var m := LastError();
      return Some(m);
    }

    method ReconcileStorage(inst: Live) returns (err: Option<Message>, ghost pos: nat)
      requires Follows(future, client.script)
      requires client.clock > 0
      modifies client
      ensures client.clock > 0 && 2 <= pos < DATABASE_POS && (err.None? ==> pos == DATABASE_POS - 1)
      ensures var pass := inst.AsPass();
              future(Working(pass, 2, First), old(client.state), old(client.clock)) ==
              future(if err.None? then Advance(pass, pos) else Fail(pass, pos, err.value, client.Now()),
                   client.state, client.clock)
    {
      var pvcs := Pvcs(inst.id, inst.read.spec);
      err, pos := None, 1;
      for i := 0 to |pvcs|
        invariant client.clock > 0 && pos == i + 1
        invariant future(Working(inst.AsPass(), 2, First), old(client.state), old(client.clock)) ==
                  future(Working(inst.AsPass(), i + 2, First), client.state, client.clock)
      {
        pos := i + 2;
        err := ApplyPvc(inst, i, pvcs[i].0, pvcs[i].1);
        if err.Some? {
          return;
        }
      }
      err := None;
    }

    /** The credentials Secret must be there and carry both keys. */
    method ReconcileExternalDatabase(inst: Live, ext: ExternalDatabase) returns (usable: bool, err: Option<Message>)
      requires Follows(future, client.script)
      requires inst.read.spec.database.external == Some(ext)
      modifies client, inst
      ensures client.clock > 0 && SameRun(old(inst.AsPass()), inst.AsPass())
      ensures err.Some? ==> inst.AsPass() == old(inst.AsPass())
      ensures future(Working(old(inst.AsPass()), DATABASE_POS, First), old(client.state), old(client.clock)) ==
              future(AfterDatabase(inst.AsPass(), usable, err, client.Now()), client.state, client.clock)
    {
      CredentialsStep(future, inst.AsPass(), client.state, client.script, client.clock);
      var reply := client.Read(KeyOf(inst.id, inst.read.spec, ExternalDbItem));
      CredentialsAnswered(inst.AsPass(), reply, client.script(client.clock - 1));
      if reply.Absent? {
        inst.SetCondition(DatabaseReady, false, ExternalDatabaseSecretMissing, SecretDoesNotExist(ext.credentials),
                          client.Now());
        return false, None;
      }
      if reply.Failed? {
        return false, Some(RequestFailed(reply.message));
      }
      var missing := FirstMissingKey(reply.value);
      if missing.Some? {
        inst.SetCondition(DatabaseReady, false, ExternalDatabaseSecretInvalid,
                          SecretMissesKey(ext.credentials, missing.value), client.Now());
        return false, None;
      }
      inst.SetCondition(DatabaseReady, true, ExternalDatabaseConfigured, UsingExternalDatabase, client.Now());
      return true, None;
    }

    /** The first of the two required keys that the Secret does not carry. */
    method FirstMissingKey(secret: Object) returns (missing: Option<string>)
      ensures missing == if HasCredentials(secret) then None else Some(MissingKey(secret))
    {
      var keys := ["username", "password"];
      for i := 0 to |keys|
        invariant secret.content.SecretContent? || i == 0
        invariant forall j :: 0 <= j < i ==> keys[j] in secret.content.data
      {
        if !(secret.content.SecretContent? && keys[i] in secret.content.data) {
          assert i == 1 ==> keys[0] in secret.content.data;
          return Some(keys[i]);
        }
      }
      assert keys[0] in secret.content.data && keys[1] in secret.content.data;
      return None;
    }

    /** Applies the Cluster once CloudNativePG's own definition of it is found. */
    method ReconcileManagedDatabase(inst: Live) returns (usable: bool, err: Option<Message>)
      requires Follows(future, client.script)
      requires !inst.read.spec.database.IsExternal()
      modifies client, inst
      ensures client.clock > 0 && SameRun(old(inst.AsPass()), inst.AsPass())
      ensures err.Some? ==> inst.AsPass() == old(inst.AsPass())
      ensures future(Working(old(inst.AsPass()), DATABASE_POS, First), old(client.state), old(client.clock)) ==
              future(AfterDatabase(inst.AsPass(), usable, err, client.Now()), client.state, client.clock)
    {
      CrdStep(future, inst.AsPass(), client.state, client.script, client.clock);
      var crd := client.Read(CRD_KEY);
      if crd.Failed? {
        return false, Some(RequestFailed(crd.message));
      }
      if crd.Absent? {
        inst.SetCondition(DatabaseReady, false, CloudNativePGMissing, InstallCloudNativePG, client.Now());
        return false, None;
      }
      var cluster := CnpgCluster(inst.id, inst.read.spec);
      if cluster.None? {
        return false, Some(InvalidName);
      }
      usable, err := ApplyCluster(inst, cluster.value);
    }

    method ApplyCluster(inst: Live, cluster: Content) returns (usable: bool, err: Option<Message>)
      requires Follows(future, client.script)
      requires !inst.read.spec.database.IsExternal() && cluster == ClusterOf(inst.id, inst.read.spec)
      modifies client, inst
      ensures client.clock > 0 && SameRun(old(inst.AsPass()), inst.AsPass())
      ensures err.Some? ==> inst.AsPass() == old(inst.AsPass())
      ensures future(Working(old(inst.AsPass()), DATABASE_POS, ToApply), old(client.state), old(client.clock)) ==
              future(AfterDatabase(inst.AsPass(), usable, err, client.Now()), client.state, client.clock)
    {
      var reply := SendCluster(inst, cluster);
      if !reply.Got? {
        var m := LastError();
        return false, Some(m);
      }
      inst.SetCondition(DatabaseReady, true, CloudNativePGClusterApplied, ClusterHasBeenApplied, client.Now());
      return true, None;
    }

    method SendCluster(inst: Live, cluster: Content) returns (reply: Reply<Object>)
      requires Follows(future, client.script)
      requires !inst.read.spec.database.IsExternal() && cluster == ClusterOf(inst.id, inst.read.spec)
      modifies client
      ensures client.clock > 0
      ensures future(Working(inst.AsPass(), DATABASE_POS, ToApply), old(client.state), old(client.clock)) ==
              future(AfterCluster(inst.AsPass(), reply, client.script(client.clock - 1)), client.state, client.clock)
    {
      ClusterStep(future, inst.AsPass(), client.state, client.script, client.clock);
      reply := ApplyStateful(inst, KeyOf(inst.id, inst.read.spec, ClusterItem), cluster);
    }

    method ReconcileDatabase(inst: Live) returns (usable: bool, err: Option<Message>)
      requires Follows(future, client.script)
      modifies client, inst
      ensures client.clock > 0 && SameRun(old(inst.AsPass()), inst.AsPass())
      ensures err.Some? ==> inst.AsPass() == old(inst.AsPass())
      ensures future(Working(old(inst.AsPass()), DATABASE_POS, First), old(client.state), old(client.clock)) ==
              future(AfterDatabase(inst.AsPass(), usable, err, client.Now()), client.state, client.clock)
    {
      var ext := inst.read.spec.database.external;
      if ext.Some? {
        usable, err := ReconcileExternalDatabase(inst, ext.value);
      } else {
        usable, err := ReconcileManagedDatabase(inst);
      }
    }

    /** One reproducible object other than the Deployment. */
    method ApplyPlain(inst: Live, ghost pos: nat, k: Key, content: Content) returns (err: Option<Message>)
      requires Follows(future, client.script)
      requires Describes(inst.AsPass(), pos, First, k, content, [ControllerRef(inst.id, inst.read.uid)])
      requires AlwaysOwned(Plan(inst.read.spec, pos)) && !Plan(inst.read.spec, pos).DeploymentItem?
      modifies client
      ensures client.clock > 0
      ensures future(Working(inst.AsPass(), pos, First), old(client.state), old(client.clock)) ==
              future(if err.None? then Advance(inst.AsPass(), pos)
                     else Fail(inst.AsPass(), pos, err.value, client.Now()),
                   client.state, client.clock)
    {
      PlainApplyStep(future, inst.AsPass(), pos, k, content, [ControllerRef(inst.id, inst.read.uid)],
                     client.state, client.script, client.clock);
      var reply := ApplyOwned(inst, k, content);
      if reply.Got? {
        return None;
      }
      var m := LastError();
      return Some(m);
    }

    /** One of the cache's three objects, or the Service. */
    method ApplyPlanned(inst: Live, ghost pos: nat, item: Item) returns (err: Option<Message>)
      requires Follows(future, client.script)
      requires pos < Length(inst.read.spec) && Plan(inst.read.spec, pos) == item
      requires AlwaysOwned(item) && !item.DeploymentItem?
      modifies client
      ensures client.clock > 0
      ensures future(Working(inst.AsPass(), pos, First), old(client.state), old(client.clock)) ==
              future(if err.None? then Advance(inst.AsPass(), pos)
                     else Fail(inst.AsPass(), pos, err.value, client.Now()),
                   client.state, client.clock)
    {
      err := ApplyPlain(inst, pos, KeyOf(inst.id, inst.read.spec, item), ContentOf(inst.id, inst.read.spec, item));
    }

    method ApplyServiceAndClaim(inst: Live) returns (err: Option<Message>, ghost pos: nat)
      requires Follows(future, client.script)
      requires inst.read.spec.cache.IsManaged()
      modifies client
      ensures client.clock > 0 && 8 <= pos <= 9 && (err.None? ==> pos == 9)
      ensures future(Working(inst.AsPass(), 8, First), old(client.state), old(client.clock)) ==
              future(if err.None? then Advance(inst.AsPass(), pos)
                     else Fail(inst.AsPass(), pos, err.value, client.Now()),
                   client.state, client.clock)
    {
      pos := 8;
      err := ApplyPlanned(inst, pos, ValkeyServiceItem);
      if err.None? {
        pos := 9;
        err := ApplyPlanned(inst, pos, ValkeyPvcItem);
      }
    }

    method ApplyCache(inst: Live) returns (err: Option<Message>, ghost pos: nat)
      requires Follows(future, client.script)
      requires inst.read.spec.cache.IsManaged()
      modifies client
      ensures client.clock > 0 && 7 <= pos <= 9 && (err.None? ==> pos == 9)
      ensures future(Working(inst.AsPass(), 7, First), old(client.state), old(client.clock)) ==
              future(if err.None? then Advance(inst.AsPass(), pos)
                     else Fail(inst.AsPass(), pos, err.value, client.Now()),
                   client.state, client.clock)
    {
      pos := 7;
      err := ApplyPlanned(inst, pos, ValkeyDeploymentItem);
      if err.None? {
        err, pos := ApplyServiceAndClaim(inst);
      }
    }

    /** The managed Valkey's Deployment, Service and claim, or nothing for an external cache. */
    method ReconcileCache(inst: Live) returns (err: Option<Message>, ghost pos: nat)
      requires Follows(future, client.script)
      requires client.clock > 0
      modifies client
      ensures client.clock > 0 && DATABASE_POS < pos < Length(inst.read.spec) - 1
      ensures err.None? ==> pos == Length(inst.read.spec) - 2
      ensures err.Some? ==> StageOf(Plan(inst.read.spec, pos)) == Cache
      ensures future(Working(inst.AsPass(), DATABASE_POS + 1, First), old(client.state), old(client.clock)) ==
              future(if err.None? then Working(inst.AsPass(), pos, First)
                   else Fail(inst.AsPass(), pos, err.value, client.Now()),
                   client.state, client.clock)
    {
      err, pos := None, DATABASE_POS + 1;
      if inst.read.spec.cache.IsManaged() {
        err, pos := ApplyCache(inst);
        CacheStage(inst.read.spec, pos);
        if err.None? {
          pos := pos + 1;
        }
      }
    }

    /** The Service, then the Deployment, whose returned status decides Ready. */
    method ReconcileWorkload(inst: Live) returns (err: Option<Message>, ghost pos: nat)
      requires Follows(future, client.script)
      requires client.clock > 0
      modifies client, inst
      ensures client.clock > 0 && SameRun(old(inst.AsPass()), inst.AsPass())
      ensures pos < Length(inst.read.spec) && StageOf(Plan(inst.read.spec, pos)) == Workload
      ensures err.Some? ==> inst.AsPass() == old(inst.AsPass())
      ensures future(Working(old(inst.AsPass()), Length(inst.read.spec) - 2, First), old(client.state),
                     old(client.clock)) ==
              future(if err.None? then Finishing(inst.AsPass(), Length(inst.read.spec), Ending(0, None))
                   else Fail(inst.AsPass(), pos, err.value, client.Now()),
                   client.state, client.clock)
    {
      WorkloadStage(inst.read.spec);
      pos := Length(inst.read.spec) - 2;
      err := ApplyPlanned(inst, pos, ServiceItem);
      if err.Some? {
        return;
      }
      pos := Length(inst.read.spec) - 1;
      err := ApplyDeployment(inst);
    }

    method ApplyDeployment(inst: Live) returns (err: Option<Message>)
      requires Follows(future, client.script)
      modifies client, inst
      ensures client.clock > 0 && SameRun(old(inst.AsPass()), inst.AsPass())
      ensures err.Some? ==> inst.AsPass() == old(inst.AsPass())
      ensures future(Working(old(inst.AsPass()), Length(inst.read.spec) - 1, First), old(client.state),
                     old(client.clock)) ==
              future(if err.None? then Finishing(inst.AsPass(), Length(inst.read.spec), Ending(0, None))
                   else Fail(inst.AsPass(), Length(inst.read.spec) - 1, err.value, client.Now()),
                   client.state, client.clock)
    {
      var reply := SendDeployment(inst);
      err := ReportWorkload(inst, reply);
    }

    method SendDeployment(inst: Live) returns (reply: Reply<Object>)
      requires Follows(future, client.script)
      modifies client
      ensures client.clock > 0
      ensures future(Working(inst.AsPass(), Length(inst.read.spec) - 1, First), old(client.state), old(client.clock)) ==
              future(AfterDeployment(inst.AsPass(), reply, client.script(client.clock - 1)), client.state, client.clock)
    {
      var content := PrepareDeployment(inst);
      assert AppliedAt(future, client.script, inst.AsPass(), content, client.state, client.clock);
      reply := ApplyOwned(inst, KeyOf(inst.id, inst.read.spec, DeploymentItem), content);
    }

    method PrepareDeployment(inst: Live) returns (content: Content)
      requires Follows(future, client.script)
      ensures AppliedNext(future, client.script, inst.AsPass(), content)
    {
      content := BuildDeployment(inst.id, inst.read.spec);
      DeploymentItemContent(inst.id, inst.read.spec);
      DeploymentDescribed(inst.AsPass(), content);
      DeploymentIsNext(future, client.script, inst.AsPass(), content);
    }

    /** Ready from the Deployment's own status, as the server returned it. */
    method ReportWorkload(inst: Live, reply: Reply<Object>) returns (err: Option<Message>)
      requires client.clock > 0
      modifies inst
      ensures SameRun(old(inst.AsPass()), inst.AsPass())
      ensures err.Some? ==> inst.AsPass() == old(inst.AsPass())
      ensures AfterDeployment(old(inst.AsPass()), reply, client.script(client.clock - 1)) ==
              if err.None? then Finishing(inst.AsPass(), Length(inst.read.spec), Ending(0, None))
              else Fail(inst.AsPass(), Length(inst.read.spec) - 1, err.value, client.Now())
    {
      if !reply.Got? {
        var m := LastError();
        return Some(m);
      }
      var status, reason, message := false, WorkloadNotReady, WaitingForReadyReplica;
      if reply.value.readyReplicas >= 1 {
        status, reason, message := true, WorkloadReady, HasReadyReplica;
      }
      inst.SetCondition(Ready, status, reason, message, client.Now());
      return None;
    }

    /** A failed step is named on Ready. */
    method StampFailure(inst: Live, ghost pos: nat, reason: Reason, err: Message) returns (result: Ending)
      requires client.clock > 0 && pos < Length(inst.read.spec)
               && reason == FailureReason(StageOf(Plan(inst.read.spec, pos)))
      modifies inst
      ensures SameRun(old(inst.AsPass()), inst.AsPass())
      ensures Fail(old(inst.AsPass()), pos, err, client.Now()) == Finishing(inst.AsPass(), pos, result)
    {
      inst.SetCondition(Ready, false, reason, err, client.Now());
      result := Ending(0, Some(err));
    }

    // The five ordered steps of a pass. Each method takes one and hands on to the next, so that every
    // way out leaves the instance stamped and the pass about to store its status at `pos`.

    method ReconcileInstance(inst: Live) returns (result: Ending, ghost pos: nat)
      requires Follows(future, client.script)
      modifies client, inst
      ensures client.clock > 0 && pos <= Length(inst.read.spec) && SameRun(old(inst.AsPass()), inst.AsPass())
      ensures future(Working(old(inst.AsPass()), 0, First), old(client.state), old(client.clock)) ==
              future(Finishing(inst.AsPass(), pos, result), client.state, client.clock)
    {
      var err;
      err, pos := ReconcileSecrets(inst);
      if err.Some? {
        result := StampFailure(inst, pos, SecretsNotReady, err.value);
      } else {
        result, pos := StorageOnward(inst);
      }
    }

    method StorageOnward(inst: Live) returns (result: Ending, ghost pos: nat)
      requires Follows(future, client.script)
      requires client.clock > 0
      modifies client, inst
      ensures client.clock > 0 && pos <= Length(inst.read.spec) && SameRun(old(inst.AsPass()), inst.AsPass())
      ensures future(Working(old(inst.AsPass()), 2, First), old(client.state), old(client.clock)) ==
              future(Finishing(inst.AsPass(), pos, result), client.state, client.clock)
    {
      var err;
      err, pos := ReconcileStorage(inst);
      if err.Some? {
        result := StampFailure(inst, pos, StorageNotReady, err.value);
      } else {
        result, pos := DatabaseOnward(inst);
      }
    }

    method DatabaseOnward(inst: Live) returns (result: Ending, ghost pos: nat)
      requires Follows(future, client.script)
      requires client.clock > 0
      modifies client, inst
      ensures client.clock > 0 && pos <= Length(inst.read.spec) && SameRun(old(inst.AsPass()), inst.AsPass())
      ensures future(Working(old(inst.AsPass()), DATABASE_POS, First), old(client.state), old(client.clock)) ==
              future(Finishing(inst.AsPass(), pos, result), client.state, client.clock)
    {
      var usable, err := ReconcileDatabase(inst);
      pos := DATABASE_POS;
      if err.Some? {
        result := StampFailure(inst, pos, DatabaseNotReady, err.value);
      } else if !usable {
        inst.SetCondition(Ready, false, DatabaseNotReady, SeeDatabaseReady, client.Now());
        result := Ending(NOT_READY_REQUEUE, None);
      } else {
        result, pos := CacheOnward(inst);
      }
    }

    method CacheOnward(inst: Live) returns (result: Ending, ghost pos: nat)
      requires Follows(future, client.script)
      requires client.clock > 0
      modifies client, inst
      ensures client.clock > 0 && pos <= Length(inst.read.spec) && SameRun(old(inst.AsPass()), inst.AsPass())
      ensures future(Working(old(inst.AsPass()), DATABASE_POS + 1, First), old(client.state), old(client.clock)) ==
              future(Finishing(inst.AsPass(), pos, result), client.state, client.clock)
    {
      var err;
      err, pos := ReconcileCache(inst);
      if err.Some? {
        result := StampFailure(inst, pos, CacheNotReady, err.value);
      } else {
        result, pos := WorkloadOnward(inst);
      }
    }

    method WorkloadOnward(inst: Live) returns (result: Ending, ghost pos: nat)
      requires Follows(future, client.script)
      requires client.clock > 0
      modifies client, inst
      ensures client.clock > 0 && pos <= Length(inst.read.spec) && SameRun(old(inst.AsPass()), inst.AsPass())
      ensures future(Working(old(inst.AsPass()), Length(inst.read.spec) - 2, First), old(client.state),
                     old(client.clock)) ==
              future(Finishing(inst.AsPass(), pos, result), client.state, client.clock)
    {
      var err;
      err, pos := ReconcileWorkload(inst);
      if err.Some? {
        result := StampFailure(inst, pos, WorkloadApplyFailed, err.value);
      } else {
        pos := Length(inst.read.spec);
        result := Ending(0, None);
      }
    }

    /** Stores the status as a merge patch against what was read. */
    method PatchStatus(inst: Live) returns (err: Option<Message>)
      modifies client, inst
      ensures client.clock == old(client.clock) + 1 && SameRun(old(inst.AsPass()), inst.AsPass())
      ensures var r := Server.PatchStatus(old(client.state), inst.id, inst.read.status, Observed(old(inst.AsPass())),
                                          client.script(old(client.clock)));
              && client.state == r.0
              && err == if r.1.Got? then None else Some(RequestFailed(client.script(old(client.clock)).message))
    {
      inst.status := inst.status.(observedGeneration := inst.read.generation);
      var reply := client.PatchInstanceStatus(inst.id, inst.read.status, inst.status);
      if reply.Got? {
        return None;
      }
      var m := LastError();
      return Some(m);
    }

    /** One pass, as the protocol goes. */
    method ReconcilePass(id: Id) returns (result: Ending)
      requires Follows(future, client.script)
      modifies client
      ensures var r := future(Starting(id), old(client.state), old(client.clock));
              client.state == r.state && client.clock == r.at && r.proc.Finished? && result == r.proc.result
    {
      StartStep(future, id, client.state, client.script, client.clock);
      var reply := client.ReadInstance(id);
      match reply
      case Failed(text) => return Ending(0, Some(RequestFailed(text)));
      case Absent => return Ending(0, None);
      case Got(read) =>
        var inst := new Live(id, read);
        inst.SetCondition(Ready, false, Reconciling, TheOperatorIsReconciling, client.Now());
        ghost var pos;
        result, pos := ReconcileInstance(inst);
        FinishStep(future, inst.AsPass(), pos, result, client.state, client.script, client.clock);
        var err := PatchStatus(inst);
        if err.Some? {
          result := Ending(0, err);
        }
    }

    /**
     * Drives the instance one pass on, exactly as the protocol run to its end from the same state under
     * the same outcomes.
     */
    method Reconcile(id: Id) returns (result: Ending)
      requires Valid()
      modifies client
      ensures var r := Rest(Starting(id), old(client.state), client.script, old(client.clock));
              client.state == r.state && client.clock == r.at && result == r.proc.result
    {
      RestFollows(client.script);
      RestOfIs(id, client.state, client.script, client.clock);
      result := ReconcilePass(id);
    }
  }
}
