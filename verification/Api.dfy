// The PaperlessInstance resource: api/v1alpha1/paperlessinstance_types.go.
module Api {
  import opened Base

  datatype SecretKeySelector = SecretKeySelector(name: string, key: string)

  datatype EnvSource =
    | Literal(value: string)
    | FromSecret(secret: SecretKeySelector)
    | FromElsewhere(what: string)  // config maps, fields: only a user's own entries use these

  datatype EnvVar = EnvVar(name: string, source: EnvSource)

  /** size 0 is the zero quantity, which stands for "not given". */
  datatype VolumeSpec = VolumeSpec(size: nat, storageClassName: Option<string>, accessModes: seq<string>) {
    function SizeOrDefault(fallback: nat): nat {
      if size == 0 then fallback else size
    }
  }

  const GI := 1024 * 1024 * 1024
  const DEFAULT_DATA_SIZE := 5 * GI
  const DEFAULT_MEDIA_SIZE := 20 * GI
  const DEFAULT_CONSUME_SIZE := 5 * GI
  const DEFAULT_EXPORT_SIZE := 10 * GI
  const DEFAULT_DATABASE_SIZE := 10 * GI

  datatype StorageSpec = StorageSpec(data: VolumeSpec, media: VolumeSpec, consume: VolumeSpec, exported: VolumeSpec)

  datatype ExternalDatabase = ExternalDatabase(host: string, port: nat, name: string, credentials: string)

  datatype ManagedDatabase = ManagedDatabase(instances: int, storage: VolumeSpec)

  datatype DatabaseSpec = DatabaseSpec(cnpg: Option<ManagedDatabase>, external: Option<ExternalDatabase>) {
    predicate IsExternal() {
      external.Some?
    }

    /** Admission: never both. */
    predicate Admitted() {
      !(cnpg.Some? && external.Some?)
    }
  }

  datatype CacheSpec = CacheSpec(managed: Option<bool>, url: Option<string>, urlSecretRef: Option<SecretKeySelector>) {
    predicate IsManaged() {
      managed != Some(false)
    }

    /** Admission: an external cache is named, and a managed one is not overridden. */
    predicate Admitted() {
      if IsManaged() then url.None? && urlSecretRef.None? else url.GetOr("") != "" || urlSecretRef.Some?
    }
  }

  datatype AdminSpec = AdminSpec(
    enabled: Option<bool>, username: string, email: string, passwordSecretRef: Option<SecretKeySelector>)
  {
    predicate IsEnabled() {
      enabled != Some(false)
    }
  }

  datatype DeletionPolicy = Unset | Retain | Delete

  /** urlHost is the host name of url, or empty when url has none or does not parse. */
  datatype Spec = Spec(
    deletionPolicy: DeletionPolicy,
    url: string, urlHost: string, timezone: string, languages: seq<string>,
    admin: AdminSpec, secretKeySecretRef: Option<SecretKeySelector>,
    database: DatabaseSpec, cache: CacheSpec, storage: StorageSpec,
    env: seq<EnvVar>)
  {
    function DeletionPolicyOrDefault(): DeletionPolicy {
      if deletionPolicy == Unset then Retain else deletionPolicy
    }

    predicate Deletes() {
      DeletionPolicyOrDefault() == Delete
    }
  }

  datatype ConditionType = Ready | DatabaseReady

  datatype Reason =
    | Reconciling
    | SecretsNotReady | StorageNotReady | DatabaseNotReady | CacheNotReady | WorkloadApplyFailed
    | WorkloadNotReady | WorkloadReady
    | ExternalDatabaseSecretMissing | ExternalDatabaseSecretInvalid | ExternalDatabaseConfigured
    | CloudNativePGMissing | CloudNativePGClusterApplied

  /** The texts that go with the reasons; an error's text is whatever the failing request said. */
  datatype Message =
    | TheOperatorIsReconciling
    | RequestFailed(text: string) | InvalidName | NoRandomBytes
    | SeeDatabaseReady
    | SecretDoesNotExist(secret: string) | SecretMissesKey(secret: string, key: string) | InstallCloudNativePG
    | UsingExternalDatabase | ClusterHasBeenApplied
    | HasReadyReplica | WaitingForReadyReplica

  datatype Condition = Condition(
    kind: ConditionType, status: bool, generation: int, reason: Reason, message: Message, transition: int)

  datatype Status = Status(conditions: seq<Condition>, observedGeneration: int)

  const EMPTY_STATUS := Status([], 0)

  /** Namespace and name, which never change. */
  datatype Id = Id(ns: string, name: string)

  datatype Instance = Instance(uid: Uid, generation: int, spec: Spec, status: Status)
}
