// The Paperless container's environment: dedupeEnv, workloadEnv and the builders they use, in
// internal/resources/workload.go and internal/resources/database.go.
module Environment {
  import opened Base
  import opened Api
  import opened Names

  // ----- Last value wins -----

  /** The names, each at its first appearance. */
  function FirstNames(env: seq<EnvVar>): seq<string> {
    if env == [] then []
    else
      var names := FirstNames(env[..|env| - 1]);
      var name := env[|env| - 1].name;
      if name in names then names else names + [name]
  }

  /** The last entry of this name. */
  function LastEntry(env: seq<EnvVar>, name: string): Option<EnvVar> {
    if env == [] then None
    else if env[|env| - 1].name == name then Some(env[|env| - 1])
    else LastEntry(env[..|env| - 1], name)
  }

  lemma {:induction false} NamesExact(env: seq<EnvVar>, name: string)
    ensures name in FirstNames(env) <==> LastEntry(env, name).Some?
    ensures LastEntry(env, name).Some? ==> LastEntry(env, name).value in env && LastEntry(env, name).value.name == name
    ensures (exists e :: e in env && e.name == name) ==> LastEntry(env, name).Some?
  {
    if env != [] {
      NamesExact(env[..|env| - 1], name);
      assert env == env[..|env| - 1] + [env[|env| - 1]];
    }
  }

  predicate Distinct<T(==)>(xs: seq<T>) {
    forall i, j :: 0 <= i < j < |xs| ==> xs[i] != xs[j]
  }

  lemma {:induction false} FirstNamesDistinct(env: seq<EnvVar>)
    ensures Distinct(FirstNames(env))
  {
    if env != [] {
      FirstNamesDistinct(env[..|env| - 1]);
    }
  }

  /** For every name its last entry, in order of first appearance. */
  function LastWins(env: seq<EnvVar>): (out: seq<EnvVar>)
    ensures |out| == |FirstNames(env)|
    ensures forall i :: 0 <= i < |out| ==>
              out[i].name == FirstNames(env)[i] && LastEntry(env, out[i].name) == Some(out[i])
  {
    var names := FirstNames(env);
    assert forall name :: name in names ==> LastEntry(env, name).Some? && LastEntry(env, name).value.name == name by {
      forall name | name in names ensures LastEntry(env, name).Some? && LastEntry(env, name).value.name == name {
        NamesExact(env, name);
      }
    }
    seq(|names|, i requires 0 <= i < |names| => LastEntry(env, names[i]).value)
  }

  /** One pass with an index from names to slots, overwriting a slot when its name comes again. */
  method DedupeEnv(env: seq<EnvVar>) returns (out: seq<EnvVar>)
    ensures out == LastWins(env)
  {
    var index: map<string, nat> := map[];
    out := [];
    for n := 0 to |env|
      invariant out == LastWins(env[..n])
      invariant forall name :: name in index <==> name in FirstNames(env[..n])
      invariant forall name :: name in index ==> index[name] < |out| && FirstNames(env[..n])[index[name]] == name
    {
      var e := env[n];
      var before, now := env[..n], env[..n + 1];
      assert now[..|now| - 1] == before && now[|now| - 1] == e;
      FirstNamesDistinct(before);
      if e.name in index {
        out := out[index[e.name] := e];
      } else {
        index := index[e.name := |out|];
        out := out + [e];
      }
    }
    assert env[..|env|] == env;
  }

  // ----- Laws -----

  lemma {:induction false} LastEntryConcat(a: seq<EnvVar>, b: seq<EnvVar>, name: string)
    ensures LastEntry(a + b, name) == if LastEntry(b, name).Some? then LastEntry(b, name) else LastEntry(a, name)
    decreases |b|
  {
    if b == [] {
      assert a + b == a;
    } else {
      assert (a + b)[..|a + b| - 1] == a + b[..|b| - 1];
      LastEntryConcat(a, b[..|b| - 1], name);
    }
  }

  /** Adds names that are not there yet. */
  function Extend(names: seq<string>, more: seq<string>): seq<string> {
    if more == [] then names
    else
      var front := Extend(names, more[..|more| - 1]);
      var name := more[|more| - 1];
      if name in front then front else front + [name]
  }

  lemma {:induction false} ExtendMembers(names: seq<string>, more: seq<string>, name: string)
    ensures name in Extend(names, more) <==> name in names || name in more
    decreases |more|
  {
    if more != [] {
      ExtendMembers(names, more[..|more| - 1], name);
      assert more == more[..|more| - 1] + [more[|more| - 1]];
    }
  }

  lemma {:induction false} FirstNamesConcat(a: seq<EnvVar>, b: seq<EnvVar>)
    ensures FirstNames(a + b) == Extend(FirstNames(a), FirstNames(b))
    decreases |b|
  {
    if b == [] {
      assert a + b == a;
    } else {
      var front := b[..|b| - 1];
      var name := b[|b| - 1].name;
      assert (a + b)[..|a + b| - 1] == a + front;
      FirstNamesConcat(a, front);
      ExtendMembers(FirstNames(a), FirstNames(front), name);
      if name !in FirstNames(front) {
        assert (FirstNames(front) + [name])[..|FirstNames(front)|] == FirstNames(front);
      }
    }
  }

  lemma {:induction false} FirstNamesOfDistinct(d: seq<EnvVar>, names: seq<string>)
    requires |d| == |names| && Distinct(names)
    requires forall i :: 0 <= i < |d| ==> d[i].name == names[i]
    ensures FirstNames(d) == names
    ensures forall i :: 0 <= i < |d| ==> LastEntry(d, d[i].name) == Some(d[i])
    decreases |d|
  {
    if d != [] {
      var m := |d| - 1;
      FirstNamesOfDistinct(d[..m], names[..m]);
      assert names == names[..m] + [names[m]];
      forall i | 0 <= i < m ensures LastEntry(d, d[i].name) == Some(d[i]) {
        assert names[i] != names[m];
        assert d[..m][i] == d[i];
      }
    }
  }

  /** Deduplicating keeps the names, their order and every last entry. */
  lemma LastWinsKeeps(env: seq<EnvVar>, name: string)
    ensures FirstNames(LastWins(env)) == FirstNames(env)
    ensures LastEntry(LastWins(env), name) == LastEntry(env, name)
  {
    var out, names := LastWins(env), FirstNames(env);
    FirstNamesDistinct(env);
    FirstNamesOfDistinct(out, names);
    NamesExact(env, name);
    NamesExact(out, name);
  }

  lemma LastWinsMember(env: seq<EnvVar>, e: EnvVar)
    requires e in LastWins(env)
    ensures e in env && LastEntry(env, e.name) == Some(e)
  {
    NamesExact(env, e.name);
  }

  /** The list is determined by its names and last entries. */
  lemma LastWinsExtensional(x: seq<EnvVar>, y: seq<EnvVar>)
    requires FirstNames(x) == FirstNames(y)
    requires forall name :: LastEntry(x, name) == LastEntry(y, name)
    ensures LastWins(x) == LastWins(y)
  {
    var a, b := LastWins(x), LastWins(y);
    forall i | 0 <= i < |a| ensures a[i] == b[i] {
      assert LastEntry(x, a[i].name) == LastEntry(y, b[i].name);
    }
  }

  lemma LastWinsIdempotent(env: seq<EnvVar>)
    ensures LastWins(LastWins(env)) == LastWins(env)
  {
    forall name ensures LastEntry(LastWins(env), name) == LastEntry(env, name) {
      LastWinsKeeps(env, name);
    }
    LastWinsKeeps(env, "");
    LastWinsExtensional(LastWins(env), env);
  }

  /** Either half may be deduplicated first. */
  lemma LastWinsConcat(a: seq<EnvVar>, b: seq<EnvVar>)
    ensures LastWins(LastWins(a) + b) == LastWins(a + b) == LastWins(a + LastWins(b))
  {
    FirstNamesConcat(a, b);
    FirstNamesConcat(LastWins(a), b);
    FirstNamesConcat(a, LastWins(b));
    LastWinsKeeps(a, "");
    LastWinsKeeps(b, "");
    forall name
      ensures LastEntry(LastWins(a) + b, name) == LastEntry(a + b, name) == LastEntry(a + LastWins(b), name)
    {
      LastWinsKeeps(a, name);
      LastWinsKeeps(b, name);
      LastEntryConcat(a, b, name);
      LastEntryConcat(LastWins(a), b, name);
      LastEntryConcat(a, LastWins(b), name);
    }
    LastWinsExtensional(LastWins(a) + b, a + b);
    LastWinsExtensional(a + LastWins(b), a + b);
  }

  // ----- Assembling the container's environment -----

  const VALKEY_PORT := 6379
  const MANAGED_DATABASE_NAME := "paperless"

  function Plain(name: string, value: string): EnvVar {
    EnvVar(name, Literal(value))
  }

  function SecretEnvVar(name: string, secret: string, key: string): EnvVar {
    EnvVar(name, FromSecret(SecretKeySelector(secret, key)))
  }

  function Decimal(n: nat): string {
    if n < 10 then [('0' as int + n) as char] else Decimal(n / 10) + Decimal(n % 10)
  }

  function Join(xs: seq<string>, separator: string): string {
    if xs == [] then "" else if |xs| == 1 then xs[0] else xs[0] + separator + Join(xs[1..], separator)
  }

  function ServiceDnsNames(id: Id): seq<string> {
    [id.name, id.name + "." + id.ns + ".svc", id.name + "." + id.ns + ".svc.cluster.local"]
  }

  function AllowedHosts(id: Id, spec: Spec): string {
    Join(ServiceDnsNames(id) + ["localhost", "127.0.0.1"]
         + (if spec.url != "" && spec.urlHost != "" then [spec.urlHost] else []), ",")
  }

  function SecretKeyEnv(id: Id, spec: Spec): EnvVar {
    match spec.secretKeySecretRef
    case Some(ref) => SecretEnvVar("PAPERLESS_SECRET_KEY", ref.name, ref.key)
    case None => SecretEnvVar("PAPERLESS_SECRET_KEY", DerivedName(id.name, SecretKeyPart), "PAPERLESS_SECRET_KEY")
  }

  function ManagedCacheUrl(id: Id): string {
    "redis://" + DerivedName(id.name, ValkeyPart) + ":" + Decimal(VALKEY_PORT)
  }

  function CacheEnv(id: Id, spec: Spec): EnvVar {
    if spec.cache.IsManaged() then Plain("PAPERLESS_REDIS", ManagedCacheUrl(id))
    else match spec.cache.urlSecretRef
      case Some(ref) => SecretEnvVar("PAPERLESS_REDIS", ref.name, ref.key)
      case None => Plain("PAPERLESS_REDIS", spec.cache.url.GetOr(""))
  }

  function AdminUsername(spec: Spec): string {
    if spec.admin.username == "" then "admin" else spec.admin.username
  }

  function AdminPassword(id: Id, spec: Spec): EnvVar {
    match spec.admin.passwordSecretRef
    case Some(ref) => SecretEnvVar("PAPERLESS_ADMIN_PASSWORD", ref.name, ref.key)
    case None => SecretEnvVar("PAPERLESS_ADMIN_PASSWORD", DerivedName(id.name, AdminPart), "password")
  }

  function AdminEnv(id: Id, spec: Spec): seq<EnvVar> {
    if !spec.admin.IsEnabled() then []
    else
      [Plain("PAPERLESS_ADMIN_USER", AdminUsername(spec))]
      + (if spec.admin.email != "" then [Plain("PAPERLESS_ADMIN_MAIL", spec.admin.email)] else [])
      + [AdminPassword(id, spec)]
  }

  method BuildAdminEnv(id: Id, spec: Spec) returns (env: seq<EnvVar>)
    ensures env == AdminEnv(id, spec)
  {
    if !spec.admin.IsEnabled() {
      return [];
    }
    var username := spec.admin.username;
    if username == "" {
      username := "admin";
    }
    env := [Plain("PAPERLESS_ADMIN_USER", username)];
    if spec.admin.email != "" {
      env := env + [Plain("PAPERLESS_ADMIN_MAIL", spec.admin.email)];
    }
    env := env + [AdminPassword(id, spec)];
  }

  /** The credentials Secret CloudNativePG itself generates beside the Cluster. */
  function CnpgAppSecretName(id: Id): string {
    DerivedName(id.name, DbPart) + "-app"
  }

  function CnpgServiceName(id: Id): string {
    DerivedName(id.name, DbPart) + "-rw"
  }

  function DatabaseEnv(id: Id, spec: Spec): seq<EnvVar> {
    [Plain("PAPERLESS_DBENGINE", "postgresql")] +
    match spec.database.external
    case Some(ext) =>
      [Plain("PAPERLESS_DBHOST", ext.host), Plain("PAPERLESS_DBPORT", Decimal(ext.port)),
       Plain("PAPERLESS_DBNAME", ext.name),
       SecretEnvVar("PAPERLESS_DBUSER", ext.credentials, "username"),
       SecretEnvVar("PAPERLESS_DBPASS", ext.credentials, "password")]
    case None =>
      [Plain("PAPERLESS_DBHOST", CnpgServiceName(id)), Plain("PAPERLESS_DBPORT", "5432"),
       Plain("PAPERLESS_DBNAME", MANAGED_DATABASE_NAME),
       SecretEnvVar("PAPERLESS_DBUSER", CnpgAppSecretName(id), "username"),
       SecretEnvVar("PAPERLESS_DBPASS", CnpgAppSecretName(id), "password")]
  }

  function OcrLanguages(spec: Spec): string {
    var joined := Join(spec.languages, "+");
    if joined == "" then "eng" else joined
  }

  function BaseEnv(id: Id, spec: Spec): seq<EnvVar> {
    [Plain("PAPERLESS_ALLOWED_HOSTS", AllowedHosts(id, spec)),
     Plain("PAPERLESS_TIME_ZONE", if spec.timezone == "" then "UTC" else spec.timezone),
     Plain("PAPERLESS_OCR_LANGUAGE", OcrLanguages(spec))]
    + if spec.url == "" then []
      else [Plain("PAPERLESS_URL", spec.url), Plain("PAPERLESS_CSRF_TRUSTED_ORIGINS", spec.url)]
  }

  /** What the operator computes, before any of the user's entries. */
  function OperatorEnv(id: Id, spec: Spec): seq<EnvVar> {
    BaseEnv(id, spec) + [SecretKeyEnv(id, spec), CacheEnv(id, spec)] + AdminEnv(id, spec) + DatabaseEnv(id, spec)
  }

  function WorkloadEnv(id: Id, spec: Spec): seq<EnvVar> {
    LastWins(OperatorEnv(id, spec) + spec.env)
  }

  method BuildWorkloadEnv(id: Id, spec: Spec) returns (env: seq<EnvVar>)
    ensures env == WorkloadEnv(id, spec)
  {
    var tz := spec.timezone;
    if tz == "" {
      tz := "UTC";
    }
    var ocr := Join(spec.languages, "+");
    if ocr == "" {
      ocr := "eng";
    }
    env := [Plain("PAPERLESS_ALLOWED_HOSTS", AllowedHosts(id, spec)), Plain("PAPERLESS_TIME_ZONE", tz),
            Plain("PAPERLESS_OCR_LANGUAGE", ocr)];
    if spec.url != "" {
      env := env + [Plain("PAPERLESS_URL", spec.url), Plain("PAPERLESS_CSRF_TRUSTED_ORIGINS", spec.url)];
    }
    assert env == BaseEnv(id, spec);
    env := env + [SecretKeyEnv(id, spec), CacheEnv(id, spec)];
    var admin := BuildAdminEnv(id, spec);
    env := env + admin;
    env := env + DatabaseEnv(id, spec);
    env := env + spec.env;
    env := DedupeEnv(env);
  }

  // ----- What the assembled environment promises -----

  /** For every name the user's last entry wins; the operator's stands only where the user is silent. */
  lemma UserEntriesWin(id: Id, spec: Spec, name: string)
    ensures LastEntry(WorkloadEnv(id, spec), name) ==
            if LastEntry(spec.env, name).Some? then LastEntry(spec.env, name)
            else LastEntry(OperatorEnv(id, spec), name)
    ensures Distinct(FirstNames(WorkloadEnv(id, spec)))
  {
    LastWinsKeeps(OperatorEnv(id, spec) + spec.env, name);
    LastEntryConcat(OperatorEnv(id, spec), spec.env, name);
    FirstNamesDistinct(WorkloadEnv(id, spec));
  }

  /** An entry is the last of its name if none after it has the name. */
  lemma {:induction false} LastEntryAt(env: seq<EnvVar>, i: nat)
    requires i < |env| && forall j :: i < j < |env| ==> env[j].name != env[i].name
    ensures LastEntry(env, env[i].name) == Some(env[i])
    decreases |env|
  {
    if i + 1 < |env| {
      LastEntryAt(env[..|env| - 1], i);
    }
  }

  /** A reference the user wrote into a typed field of the spec. */
  predicate SuppliedReference(spec: Spec, ref: SecretKeySelector) {
    || spec.secretKeySecretRef == Some(ref)
    || spec.admin.passwordSecretRef == Some(ref)
    || spec.cache.urlSecretRef == Some(ref)
  }

  predicate GeneratesSecretKey(spec: Spec) {
    spec.secretKeySecretRef.None?
  }

  predicate GeneratesAdmin(spec: Spec) {
    spec.admin.IsEnabled() && spec.admin.passwordSecretRef.None?
  }

  /** The credentials the container logs in to its database with. */
  function CredentialsName(id: Id, spec: Spec): string {
    match spec.database.external
    case Some(ext) => ext.credentials
    case None => id.name + "-db-app"
  }

  /** An entry by which the operator takes a variable's value from a Secret: one for each such variable. */
  predicate KnownReference(id: Id, spec: Spec, e: EnvVar) {
    || e == EnvVar("PAPERLESS_SECRET_KEY",
                   FromSecret(if spec.secretKeySecretRef.Some? then spec.secretKeySecretRef.value
                              else SecretKeySelector(id.name + "-secret-key", "PAPERLESS_SECRET_KEY")))
    || (spec.admin.enabled != Some(false)
        && e == EnvVar("PAPERLESS_ADMIN_PASSWORD",
                       FromSecret(if spec.admin.passwordSecretRef.Some? then spec.admin.passwordSecretRef.value
                                  else SecretKeySelector(id.name + "-admin", "password"))))
    || (spec.cache.managed == Some(false) && spec.cache.urlSecretRef.Some?
        && e == EnvVar("PAPERLESS_REDIS", FromSecret(spec.cache.urlSecretRef.value)))
    || e == EnvVar("PAPERLESS_DBUSER", FromSecret(SecretKeySelector(CredentialsName(id, spec), "username")))
    || e == EnvVar("PAPERLESS_DBPASS", FromSecret(SecretKeySelector(CredentialsName(id, spec), "password")))
  }

  lemma DatabaseReferences(id: Id, spec: Spec, e: EnvVar)
    requires e in DatabaseEnv(id, spec) && e.source.FromSecret?
    ensures KnownReference(id, spec, e)
  {
    NamesSpelled(id.name);
    assert id.name + "-db" + "-app" == id.name + "-db-app";
  }

  lemma AdminReferences(id: Id, spec: Spec, e: EnvVar)
    requires e in AdminEnv(id, spec) && e.source.FromSecret?
    ensures KnownReference(id, spec, e)
  {
    NamesSpelled(id.name);
    assert e == AdminPassword(id, spec);
  }

  lemma SecretKeyReference(id: Id, spec: Spec)
    ensures KnownReference(id, spec, SecretKeyEnv(id, spec))
  {
    NamesSpelled(id.name);
  }

  lemma OperatorReferences(id: Id, spec: Spec, e: EnvVar)
    requires e in OperatorEnv(id, spec) && e.source.FromSecret?
    ensures KnownReference(id, spec, e)
  {
    if e in DatabaseEnv(id, spec) {
      DatabaseReferences(id, spec, e);
    } else if e in AdminEnv(id, spec) {
      AdminReferences(id, spec, e);
    } else {
      assert e !in BaseEnv(id, spec);
      assert e == SecretKeyEnv(id, spec) || e == CacheEnv(id, spec);
      SecretKeyReference(id, spec);
    }
  }

  /** Every variable the container takes from a Secret is the user's own entry, or one of the five known ones. */
  lemma ReferencesAccounted(id: Id, spec: Spec, e: EnvVar)
    requires e in WorkloadEnv(id, spec) && e.source.FromSecret?
    ensures e in spec.env || KnownReference(id, spec, e)
  {
    var all := OperatorEnv(id, spec) + spec.env;
    LastWinsMember(all, e);
    if e !in spec.env {
      OperatorReferences(id, spec, e);
    }
  }
}
