// What a pass leaves on the server and says of it, in the literals of the source: keys, contents, owner
// references and reasons, over the fields of the spec as the user wrote them. Nothing here is stated
// through the functions that compute them.
module Manifest {
  import opened Base
  import opened Json
  import opened Api
  import opened Names
  import Environment
  import OwnerReferences
  import opened Resources
  import opened Server
  import opened Protocol
  import opened Passes
  import opened Reports
  import opened Promises

  // ----- The objects of a pass, in order, and what Ready says when one of them is not acknowledged -----

  /** Object number n of a pass is k. */
  predicate IsObject(id: Id, spec: Spec, n: nat, k: Key) {
    if n == 0 then k == Key(SecretKind, id.ns, id.name + "-secret-key")
    else if n == 1 then k == Key(SecretKind, id.ns, id.name + "-admin")
    else if n == 2 then k == Key(PvcKind, id.ns, id.name + "-data")
    else if n == 3 then k == Key(PvcKind, id.ns, id.name + "-media")
    else if n == 4 then k == Key(PvcKind, id.ns, id.name + "-consume")
    else if n == 5 then k == Key(PvcKind, id.ns, id.name + "-export")
    else if n == 6 && spec.database.external.Some? then
      k == Key(SecretKind, id.ns, spec.database.external.value.credentials)
    else if n == 6 then k == Key(ClusterKind, id.ns, id.name + "-db")
    else if n == 7 && ManagesCache(spec) then k == Key(DeploymentKind, id.ns, id.name + "-valkey")
    else if n == 8 && ManagesCache(spec) then k == Key(ServiceKind, id.ns, id.name + "-valkey")
    else if n == 9 && ManagesCache(spec) then k == Key(PvcKind, id.ns, id.name + "-valkey")
    else if n == WorkloadPos(spec) then k == Key(ServiceKind, id.ns, id.name)
    else n == WorkloadPos(spec) + 1 && k == Key(DeploymentKind, id.ns, id.name)
  }

  /** A pass comes to these objects in this order and to no others. */
  lemma PlanSpelled(id: Id, spec: Spec, n: nat)
    ensures Length(spec) == WorkloadPos(spec) + 2
    ensures n < Length(spec) ==> IsObject(id, spec, n, KeyOf(id, spec, Plan(spec, n)))
  {
    NamesSpelled(id.name);
  }

  // ----- What the objects ask for -----

  predicate Holding(s: State, k: Key, content: Content) {
    k in s.objs && s.objs[k].content == content
  }

  /** The claim asks for what the user gave for the volume, and where nothing was given for the defaults. */
  predicate AsksFor(s: State, id: Id, component: string, vol: VolumeSpec, gib: nat) {
    Holding(s, Key(PvcKind, id.ns, id.name + "-" + component),
            PvcContent(Labels(id.name, component),
                       if vol.size != 0 then vol.size else gib * 1024 * 1024 * 1024,
                       if vol.accessModes != [] then vol.accessModes else ["ReadWriteOnce"],
                       vol.storageClassName))
  }

  /** Everything past the Secrets that the pass has acknowledged is as asked. */
  lemma ItemIsDone(id: Id, s: State, script: Script, at: nat, n: nat, j: nat)
    requires var p := Run(id, s, script, at, n).proc; Current(p).Some? && 2 <= j < Position(p)
    ensures var c := Run(id, s, script, at, n);
            Current(c.proc).value.id == id && Position(c.proc) <= Length(Current(c.proc).value.inst.spec)
            && Done(Current(c.proc).value, j, c.state)
  {
    RunKnown(id, s, script, at, n, AFTER_SECRETS);
  }

  lemma ClaimContent(pass: Pass, j: nat, s: State)
    requires 2 <= j < 6 && Done(pass, j, s)
    ensures var storage := pass.inst.spec.storage;
            if j == 2 then AsksFor(s, pass.id, "data", storage.data, 5)
            else if j == 3 then AsksFor(s, pass.id, "media", storage.media, 20)
            else if j == 4 then AsksFor(s, pass.id, "consume", storage.consume, 5)
            else AsksFor(s, pass.id, "export", storage.exported, 10)
  {
  }

  /** Once a pass has acknowledged its storage step, each of the four claims asks for its own volume. */
  lemma ClaimsAskForVolumes(id: Id, s: State, script: Script, at: nat, n: nat)
    requires var p := Run(id, s, script, at, n).proc; Current(p).Some? && Position(p) >= 6
    ensures var c := Run(id, s, script, at, n);
            var storage := Current(c.proc).value.inst.spec.storage;
            && AsksFor(c.state, id, "data", storage.data, 5)
            && AsksFor(c.state, id, "media", storage.media, 20)
            && AsksFor(c.state, id, "consume", storage.consume, 5)
            && AsksFor(c.state, id, "export", storage.exported, 10)
  {
    var c := Run(id, s, script, at, n);
    forall j | 2 <= j < 6 ensures Done(Current(c.proc).value, j, c.state) && Current(c.proc).value.id == id {
      ItemIsDone(id, s, script, at, n, j);
    }
    ClaimContent(Current(c.proc).value, 2, c.state);
    ClaimContent(Current(c.proc).value, 3, c.state);
    ClaimContent(Current(c.proc).value, 4, c.state);
    ClaimContent(Current(c.proc).value, 5, c.state);
  }

  /** The Cluster has the size, the storage and the database that the spec asks for, or the defaults. */
  predicate ClusterAsksFor(id: Id, spec: Spec, content: Content) {
    var cnpg := spec.database.cnpg;
    && content.ClusterContent? && content.labels == Labels(id.name, "database")
    && Lookup(content.spec, ["instances"]) ==
       Some(Num(if cnpg.Some? && cnpg.value.instances >= 1 then cnpg.value.instances else 1))
    && Lookup(content.spec, ["storage", "size"]) ==
       Some(Num(if cnpg.Some? && cnpg.value.storage.size != 0 then cnpg.value.storage.size
                else 10 * 1024 * 1024 * 1024))
    && Lookup(content.spec, ["storage", "storageClass"]) ==
       (if cnpg.Some? && cnpg.value.storage.storageClassName.Some?
        then Some(Str(cnpg.value.storage.storageClassName.value)) else None)
    && Lookup(content.spec, ["bootstrap", "initdb", "database"]) == Some(Str("paperless"))
  }

  /**
   * Once a pass has acknowledged its database step, the managed Cluster is as the spec asks, and
   * CloudNativePG's definition of Clusters is there.
   */
  lemma ClusterAsAsked(id: Id, s: State, script: Script, at: nat, n: nat)
    requires var p := Run(id, s, script, at, n).proc;
             Current(p).Some? && Position(p) >= 7 && Current(p).value.inst.spec.database.external.None?
    ensures var c := Run(id, s, script, at, n);
            var k := Key(ClusterKind, id.ns, id.name + "-db");
            && k in c.state.objs && ClusterAsksFor(id, Current(c.proc).value.inst.spec, c.state.objs[k].content)
            && Key(CrdKind, "", "clusters.postgresql.cnpg.io") in c.state.objs
  {
    var c := Run(id, s, script, at, n);
    var spec := Current(c.proc).value.inst.spec;
    ItemIsDone(id, s, script, at, n, 6);
    NamesSpelled(id.name);
    ClusterIsSized(spec);
    ClusterServesWorkload(id, spec);
  }

  lemma CacheContent(pass: Pass, j: nat, s: State)
    requires 7 <= j < 10 && ManagesCache(pass.inst.spec) && Done(pass, j, s)
    ensures var id := pass.id;
            if j == 7 then Holding(s, Key(DeploymentKind, id.ns, id.name + "-valkey"),
                                   DeploymentContent(Labels(id.name, "cache"), [],
                                                     [Volume("data", id.name + "-valkey")], [Mount("data", "/data")]))
            else if j == 8 then Holding(s, Key(ServiceKind, id.ns, id.name + "-valkey"),
                                        ServiceContent(Labels(id.name, "cache")))
            else Holding(s, Key(PvcKind, id.ns, id.name + "-valkey"),
                         PvcContent(Labels(id.name, "cache"), 1024 * 1024 * 1024, ["ReadWriteOnce"], None))
  {
    NamesSpelled(pass.id.name);
  }

  /**
   * Once a pass has acknowledged its cache step, Valkey's Deployment keeps its data on the claim of its
   * own name, of 1 GiB, and the Service selects its pods.
   */
  lemma CacheAsAsked(id: Id, s: State, script: Script, at: nat, n: nat)
    requires var p := Run(id, s, script, at, n).proc;
             Current(p).Some? && Position(p) >= 10 && ManagesCache(Current(p).value.inst.spec)
    ensures var t := Run(id, s, script, at, n).state;
            && Holding(t, Key(DeploymentKind, id.ns, id.name + "-valkey"),
                       DeploymentContent(Labels(id.name, "cache"), [],
                                         [Volume("data", id.name + "-valkey")], [Mount("data", "/data")]))
            && Holding(t, Key(ServiceKind, id.ns, id.name + "-valkey"), ServiceContent(Labels(id.name, "cache")))
            && Holding(t, Key(PvcKind, id.ns, id.name + "-valkey"),
                       PvcContent(Labels(id.name, "cache"), 1024 * 1024 * 1024, ["ReadWriteOnce"], None))
  {
    var c := Run(id, s, script, at, n);
    forall j | 7 <= j < 10 ensures Done(Current(c.proc).value, j, c.state) && Current(c.proc).value.id == id {
      ItemIsDone(id, s, script, at, n, j);
    }
    CacheContent(Current(c.proc).value, 7, c.state);
    CacheContent(Current(c.proc).value, 8, c.state);
    CacheContent(Current(c.proc).value, 9, c.state);
  }

  lemma ServiceContentDone(pass: Pass, j: nat, s: State)
    requires j + 2 == Length(pass.inst.spec) && Done(pass, j, s)
    ensures Holding(s, Key(ServiceKind, pass.id.ns, pass.id.name), ServiceContent(Labels(pass.id.name, "server")))
  {
    assert Plan(pass.inst.spec, j) == ServiceItem;
  }

  lemma DeploymentContentDone(pass: Pass, j: nat, s: State)
    requires j + 1 == Length(pass.inst.spec) && Done(pass, j, s)
    ensures Holding(s, Key(DeploymentKind, pass.id.ns, pass.id.name), DeploymentOf(pass.id, pass.inst.spec))
  {
    assert Plan(pass.inst.spec, j) == DeploymentItem;
  }

  /**
   * Once a pass has gone all the way, the workload's Deployment mounts the four claims and has the
   * environment that the module Variables spells out, and the Service selects its pods.
   */
  lemma WorkloadAsAsked(id: Id, s: State, script: Script, at: nat, n: nat)
    requires var p := Run(id, s, script, at, n).proc;
             Current(p).Some? && Position(p) == WorkloadPos(Current(p).value.inst.spec) + 2
    ensures var c := Run(id, s, script, at, n);
            && Holding(c.state, Key(ServiceKind, id.ns, id.name), ServiceContent(Labels(id.name, "server")))
            && Holding(c.state, Key(DeploymentKind, id.ns, id.name),
                 DeploymentContent(
                   Labels(id.name, "server"), Environment.WorkloadEnv(id, Current(c.proc).value.inst.spec),
                   [Volume("data", id.name + "-data"), Volume("media", id.name + "-media"),
                    Volume("consume", id.name + "-consume"), Volume("export", id.name + "-export")],
                   [Mount("data", "/usr/src/paperless/data"), Mount("media", "/usr/src/paperless/media"),
                    Mount("consume", "/usr/src/paperless/consume"), Mount("export", "/usr/src/paperless/export")]))
  {
    var c := Run(id, s, script, at, n);
    var pass := Current(c.proc).value;
    PlanSpelled(id, pass.inst.spec, 0);
    ItemIsDone(id, s, script, at, n, WorkloadPos(pass.inst.spec));
    ItemIsDone(id, s, script, at, n, WorkloadPos(pass.inst.spec) + 1);
    ServiceContentDone(pass, WorkloadPos(pass.inst.spec), c.state);
    DeploymentContentDone(pass, WorkloadPos(pass.inst.spec) + 1, c.state);
    MountsBindClaims(id);
  }

  // ----- Whose they are -----

  /** The reference to the instance as its controller, as the library writes it. */
  function Controls(id: Id, uid: Uid): OwnerReferences.OwnerReference {
    OwnerReferences.OwnerReference("paperless.p3l1.de/v1alpha1", "PaperlessInstance", id.name, uid,
                                   Some(true), Some(true))
  }

  /**
   * The references the operator has put on an applied object that a pass has acknowledged: on a claim
   * or a Cluster the one to the instance exactly if the spec says Delete, so none if it says nothing;
   * on everything after them that one in any case.
   */
  lemma ReferencesSpelled(id: Id, s: State, script: Script, at: nat, n: nat, j: nat)
    requires var p := Run(id, s, script, at, n).proc;
             && Current(p).Some? && 2 <= j < Position(p)
             && (j == 6 ==> Current(p).value.inst.spec.database.external.None?)
    ensures var c := Run(id, s, script, at, n);
            var inst := Current(c.proc).value.inst;
            j < Length(inst.spec)
            && var k := KeyOf(id, inst.spec, Plan(inst.spec, j));
            && IsObject(id, inst.spec, j, k)
            && k in c.state.objs
            && c.state.objs[k].applied ==
               if j <= 6 && inst.spec.deletionPolicy != Delete then [] else [Controls(id, inst.uid)]
  {
    ItemIsDone(id, s, script, at, n, j);
    PlanSpelled(id, Current(Run(id, s, script, at, n).proc).value.inst.spec, j);
  }
}
