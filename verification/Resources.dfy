// The objects a pass builds: storage.go, secret.go, cache.go, database.go and the names and
// references of workload.go, all in internal/resources.
module Resources {
  import opened Base
  import opened Json
  import opened Api
  import opened Names
  import opened Environment
  import opened Variables
  import RandomKey

  /** commonLabels, less the two entries that never vary. */
  datatype Labels = Labels(instance: string, component: string)

  datatype Volume = Volume(name: string, claim: string)

  datatype Mount = Mount(volume: string, path: string)

  datatype Content =
    | DeploymentContent(podLabels: Labels, env: seq<EnvVar>, volumes: seq<Volume>, mounts: seq<Mount>)
    | ServiceContent(selector: Labels)
    | PvcContent(labels: Labels, size: nat, accessModes: seq<string>, storageClassName: Option<string>)
    | ClusterContent(labels: Labels, spec: Json)
    | SecretContent(labels: Labels, data: map<string, string>)
    | CrdContent

  // ----- Generated Secrets -----

  datatype Generated = SecretKey | Admin

  const SECRET_KEY_LENGTH := 50
  const ADMIN_PASSWORD_LENGTH := 32

  function PartOf(g: Generated): Part {
    if g == SecretKey then SecretKeyPart else AdminPart
  }

  function KeyLength(g: Generated): nat {
    if g == SecretKey then SECRET_KEY_LENGTH else ADMIN_PASSWORD_LENGTH
  }

  predicate Generates(g: Generated, spec: Spec) {
    if g == SecretKey then GeneratesSecretKey(spec) else GeneratesAdmin(spec)
  }

  /** The Secret around a freshly generated value. */
  function SecretWith(g: Generated, id: Id, spec: Spec, value: string): Content {
    match g
    case SecretKey => SecretContent(Labels(id.name, "secret-key"), map["PAPERLESS_SECRET_KEY" := value])
    case Admin => SecretContent(Labels(id.name, "admin"), map["username" := spec.admin.username, "password" := value])
  }

  /** The key under which the generated value is stored. */
  function ValueKey(g: Generated): string {
    if g == SecretKey then "PAPERLESS_SECRET_KEY" else "password"
  }

  datatype Build = Nothing | Unbuildable(message: Message) | Value(value: string)

  /** What the builder makes of the random bytes it is given. */
  function Mint(g: Generated, id: Id, spec: Spec, raw: Option<seq<bv8>>): Build {
    if !Generates(g, spec) then Nothing
    else if !ValidName(DerivedName(id.name, PartOf(g))) then Unbuildable(InvalidName)
    else if raw.None? || |raw.value| < KeyLength(g) then Unbuildable(NoRandomBytes)
    else Value(RandomKey.KeyOf(raw.value[..KeyLength(g)]))
  }

  method MintSecret(g: Generated, id: Id, spec: Spec, raw: Option<seq<bv8>>) returns (b: Build)
    ensures b == Mint(g, id, spec, raw)
  {
    if !Generates(g, spec) {
      return Nothing;
    }
    if !ValidName(DerivedName(id.name, PartOf(g))) {
      return Unbuildable(InvalidName);
    }
    var key := RandomKey.Generate(KeyLength(g), raw);
    if key.None? {
      return Unbuildable(NoRandomBytes);
    }
    return Value(key.value);
  }

  // ----- Claims -----

  const DEFAULT_ACCESS_MODES := ["ReadWriteOnce"]
  const VALKEY_DATA_SIZE := 1 * GI

  function BuildPvc(id: Id, component: string, size: nat, accessModes: seq<string>,
                    storageClassName: Option<string>): Content {
    PvcContent(Labels(id.name, component), size,
               if accessModes == [] then DEFAULT_ACCESS_MODES else accessModes, storageClassName)
  }

  function VolumePvc(id: Id, component: string, vol: VolumeSpec, defaultSize: nat): Content {
    BuildPvc(id, component, vol.SizeOrDefault(defaultSize), vol.accessModes, vol.storageClassName)
  }

  // ----- The database Cluster -----

  function ManagedSpec(spec: Spec): ManagedDatabase {
    if spec.database.cnpg.Some? then spec.database.cnpg.value else ManagedDatabase(0, VolumeSpec(0, None, []))
  }

  function ClusterSpec(spec: Spec): Json {
    var cnpg := ManagedSpec(spec);
    Obj(map[
      "instances" := Num(if cnpg.instances < 1 then 1 else cnpg.instances),
      "storage" := Obj(map["size" := Num(cnpg.storage.SizeOrDefault(DEFAULT_DATABASE_SIZE))]
                       + if cnpg.storage.storageClassName.Some?
                         then map["storageClass" := Str(cnpg.storage.storageClassName.value)] else map[]),
      "bootstrap" := Obj(map["initdb" := Obj(map["database" := Str(MANAGED_DATABASE_NAME)])])])
  }

  function ClusterOf(id: Id, spec: Spec): Content {
    ClusterContent(Labels(id.name, "database"), ClusterSpec(spec))
  }

  method CnpgCluster(id: Id, spec: Spec) returns (r: Option<Content>)
    ensures r == if ValidName(DerivedName(id.name, DbPart)) then Some(ClusterOf(id, spec)) else None
  {
    if !ValidName(DerivedName(id.name, DbPart)) {
      return None;
    }
    var cnpg := ManagedSpec(spec);
    var instances := cnpg.instances;
    if instances < 1 {
      instances := 1;
    }
    var storage: map<string, Json> := map["size" := Num(cnpg.storage.SizeOrDefault(DEFAULT_DATABASE_SIZE))];
    if cnpg.storage.storageClassName.Some? {
      storage := storage["storageClass" := Str(cnpg.storage.storageClassName.value)];
    }
    assert storage == ClusterSpec(spec).fields["storage"].fields;
    var fields: map<string, Json> := map[
      "instances" := Num(instances), "storage" := Obj(storage),
      "bootstrap" := Obj(map["initdb" := Obj(map["database" := Str(MANAGED_DATABASE_NAME)])])];
    return Some(ClusterContent(Labels(id.name, "database"), Obj(fields)));
  }

  /**
   * The database the Deployment is told to use is the one the Cluster is bootstrapped with, at the
   * Cluster's own Service.
   */
  lemma ClusterServesWorkload(id: Id, spec: Spec)
    requires spec.database.external.None?
    ensures Lookup(ClusterSpec(spec), ["bootstrap", "initdb", "database"]) == Some(Str("paperless"))
    ensures Given(id, spec, "PAPERLESS_DBNAME", Literal("paperless"))
    ensures Given(id, spec, "PAPERLESS_DBHOST", Literal(id.name + "-db-rw"))
  {
    var path := ["bootstrap", "initdb", "database"];
    assert path[1..] == ["initdb", "database"] && path[1..][1..] == ["database"];
    LookupField(ClusterSpec(spec).fields["bootstrap"].fields["initdb"], "database");
    DatabaseVariables(id, spec);
  }

  /** A Cluster has as many instances as the spec asks for and at least one, and the storage it asks for or 10 GiB. */
  lemma ClusterIsSized(spec: Spec)
    ensures var cnpg := spec.database.cnpg;
            && Lookup(ClusterSpec(spec), ["instances"]) ==
               Some(Num(if cnpg.Some? && cnpg.value.instances >= 1 then cnpg.value.instances else 1))
            && Lookup(ClusterSpec(spec), ["storage", "size"]) ==
               Some(Num(if cnpg.Some? && cnpg.value.storage.size != 0 then cnpg.value.storage.size
                        else 10 * 1024 * 1024 * 1024))
            && Lookup(ClusterSpec(spec), ["storage", "storageClass"]) ==
               if cnpg.Some? && cnpg.value.storage.storageClassName.Some?
               then Some(Str(cnpg.value.storage.storageClassName.value)) else None
  {
    LookupField(ClusterSpec(spec), "instances");
    assert ["storage", "size"][1..] == ["size"] && ["storage", "storageClass"][1..] == ["storageClass"];
    LookupField(ClusterSpec(spec).fields["storage"], "size");
    LookupField(ClusterSpec(spec).fields["storage"], "storageClass");
  }

  // ----- The workload -----

  /** Each volume with the claim it binds and the path it is mounted at. */
  function VolumeSpecs(id: Id): seq<(string, string, string)> {
    [("data", DerivedName(id.name, DataPart), "/usr/src/paperless/data"),
     ("media", DerivedName(id.name, MediaPart), "/usr/src/paperless/media"),
     ("consume", DerivedName(id.name, ConsumePart), "/usr/src/paperless/consume"),
     ("export", DerivedName(id.name, ExportPart), "/usr/src/paperless/export")]
  }

  function VolumesOf(specs: seq<(string, string, string)>): seq<Volume> {
    seq(|specs|, i requires 0 <= i < |specs| => Volume(specs[i].0, specs[i].1))
  }

  function MountsOf(specs: seq<(string, string, string)>): seq<Mount> {
    seq(|specs|, i requires 0 <= i < |specs| => Mount(specs[i].0, specs[i].2))
  }

  method PaperlessVolumes(id: Id) returns (volumes: seq<Volume>)
    ensures volumes == VolumesOf(VolumeSpecs(id))
  {
    var specs := VolumeSpecs(id);
    volumes := [];
    for i := 0 to |specs|
      invariant volumes == VolumesOf(specs[..i])
    {
      volumes := volumes + [Volume(specs[i].0, specs[i].1)];
    }
    assert specs[..|specs|] == specs;
  }

  method PaperlessVolumeMounts(id: Id) returns (mounts: seq<Mount>)
    ensures mounts == MountsOf(VolumeSpecs(id))
  {
    var specs := VolumeSpecs(id);
    mounts := [];
    for i := 0 to |specs|
      invariant mounts == MountsOf(specs[..i])
    {
      mounts := mounts + [Mount(specs[i].0, specs[i].2)];
    }
    assert specs[..|specs|] == specs;
  }

  /**
   * The container finds each of its four directories on the claim of that name: one volume and one
   * mount for each, and nothing else.
   */
  lemma MountsBindClaims(id: Id)
    ensures MountsOf(VolumeSpecs(id)) ==
            [Mount("data", "/usr/src/paperless/data"), Mount("media", "/usr/src/paperless/media"),
             Mount("consume", "/usr/src/paperless/consume"), Mount("export", "/usr/src/paperless/export")]
    ensures VolumesOf(VolumeSpecs(id)) ==
            [Volume("data", id.name + "-data"), Volume("media", id.name + "-media"),
             Volume("consume", id.name + "-consume"), Volume("export", id.name + "-export")]
  {
    var specs := VolumeSpecs(id);
    assert |specs| == 4;
    NamesSpelled(id.name);
  }

  function DeploymentOf(id: Id, spec: Spec): Content {
    DeploymentContent(Labels(id.name, "server"), WorkloadEnv(id, spec), VolumesOf(VolumeSpecs(id)),
                      MountsOf(VolumeSpecs(id)))
  }

  method BuildDeployment(id: Id, spec: Spec) returns (c: Content)
    ensures c == DeploymentOf(id, spec)
  {
    var env := BuildWorkloadEnv(id, spec);
    var volumes := PaperlessVolumes(id);
    var mounts := PaperlessVolumeMounts(id);
    c := DeploymentContent(Labels(id.name, "server"), env, volumes, mounts);
  }

  // ----- The cache -----

  function ValkeyDeploymentOf(id: Id): Content {
    DeploymentContent(Labels(id.name, "cache"), [], [Volume("data", DerivedName(id.name, ValkeyPart))],
                      [Mount("data", "/data")])
  }

  // ----- Routing -----

  /** A Service reaches the pods in its namespace whose labels its selector names. */
  predicate Routes(ns: string, service: Content, ns': string, deployment: Content)
    requires service.ServiceContent? && deployment.DeploymentContent?
  {
    ns == ns' && service.selector == deployment.podLabels
  }
}
