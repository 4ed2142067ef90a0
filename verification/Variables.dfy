// The variables the container is given, name by name, in the literals of internal/resources/workload.go
// and internal/resources/database.go. Nothing here is stated through the functions that assemble them.
module Variables {
  import opened Base
  import opened Api
  import opened Environment
  import opened Names

  /** The user has written no entry of this name. */
  predicate UserSilent(spec: Spec, name: string) {
    forall e :: e in spec.env ==> e.name != name
  }

  /** Where the user is silent, the container is given exactly this under the name. */
  predicate Given(id: Id, spec: Spec, name: string, source: EnvSource) {
    UserSilent(spec, name) ==> LastEntry(WorkloadEnv(id, spec), name) == Some(EnvVar(name, source))
  }

  /** Where the user is silent, the container is given nothing under the name. */
  predicate NotGiven(id: Id, spec: Spec, name: string) {
    UserSilent(spec, name) ==> LastEntry(WorkloadEnv(id, spec), name) == None
  }

  lemma OperatorStands(id: Id, spec: Spec, name: string)
    requires UserSilent(spec, name)
    ensures LastEntry(WorkloadEnv(id, spec), name) == LastEntry(OperatorEnv(id, spec), name)
  {
    UserEntriesWin(id, spec, name);
    NamesExact(spec.env, name);
  }

  // ----- The blocks of the environment, told apart by two characters of the names -----

  /** The two characters after the prefix that all names share. */
  function Tag(name: string): (char, char) {
    if |name| > 11 then (name[10], name[11]) else (' ', ' ')
  }

  lemma Absent(env: seq<EnvVar>, name: string)
    requires forall i :: 0 <= i < |env| ==> Tag(env[i].name) != Tag(name)
    ensures LastEntry(env, name) == None
  {
    NamesExact(env, name);
  }

  lemma BaseTag(id: Id, spec: Spec, i: nat)
    requires i < |BaseEnv(id, spec)|
    ensures i < 5 && Tag(BaseEnv(id, spec)[i].name) == ("ATOUC"[i], "LICRS"[i])
  {
  }

  lemma DatabaseTag(id: Id, spec: Spec, i: nat)
    requires i < |DatabaseEnv(id, spec)|
    ensures Tag(DatabaseEnv(id, spec)[i].name) == ('D', 'B')
  {
    assert |DatabaseEnv(id, spec)| == 6;
  }

  /** The middle block: the secret key and the cache. */
  function Middle(id: Id, spec: Spec): seq<EnvVar> {
    [SecretKeyEnv(id, spec), CacheEnv(id, spec)]
  }

  lemma NotInBase(id: Id, spec: Spec, name: string)
    requires Tag(name) !in [('A', 'L'), ('T', 'I'), ('O', 'C'), ('U', 'R'), ('C', 'S')]
    ensures LastEntry(BaseEnv(id, spec), name) == None
  {
    forall i | 0 <= i < |BaseEnv(id, spec)| ensures Tag(BaseEnv(id, spec)[i].name) != Tag(name) {
      BaseTag(id, spec, i);
    }
    Absent(BaseEnv(id, spec), name);
  }

  lemma NotInMiddle(id: Id, spec: Spec, name: string)
    requires Tag(name) !in [('S', 'E'), ('R', 'E')]
    ensures LastEntry(Middle(id, spec), name) == None
  {
    Absent(Middle(id, spec), name);
  }

  lemma NotInAdmin(id: Id, spec: Spec, name: string)
    requires Tag(name) != ('A', 'D')
    ensures LastEntry(AdminEnv(id, spec), name) == None
  {
    Absent(AdminEnv(id, spec), name);
  }

  lemma NotInDatabase(id: Id, spec: Spec, name: string)
    requires Tag(name) != ('D', 'B')
    ensures LastEntry(DatabaseEnv(id, spec), name) == None
  {
    forall i | 0 <= i < |DatabaseEnv(id, spec)| ensures Tag(DatabaseEnv(id, spec)[i].name) != Tag(name) {
      DatabaseTag(id, spec, i);
    }
    Absent(DatabaseEnv(id, spec), name);
  }

  /** Of four lists the last that has the name decides. */
  lemma Layers(a: seq<EnvVar>, b: seq<EnvVar>, c: seq<EnvVar>, d: seq<EnvVar>, name: string)
    ensures LastEntry(a + b + c + d, name) ==
            if LastEntry(d, name).Some? then LastEntry(d, name)
            else if LastEntry(c, name).Some? then LastEntry(c, name)
            else if LastEntry(b, name).Some? then LastEntry(b, name)
            else LastEntry(a, name)
  {
    LastEntryConcat(a + b + c, d, name);
    LastEntryConcat(a + b, c, name);
    LastEntryConcat(a, b, name);
  }

  lemma OperatorLayers(id: Id, spec: Spec, name: string)
    ensures LastEntry(OperatorEnv(id, spec), name) ==
            if LastEntry(DatabaseEnv(id, spec), name).Some? then LastEntry(DatabaseEnv(id, spec), name)
            else if LastEntry(AdminEnv(id, spec), name).Some? then LastEntry(AdminEnv(id, spec), name)
            else if LastEntry(Middle(id, spec), name).Some? then LastEntry(Middle(id, spec), name)
            else LastEntry(BaseEnv(id, spec), name)
  {
    Layers(BaseEnv(id, spec), Middle(id, spec), AdminEnv(id, spec), DatabaseEnv(id, spec), name);
  }

  lemma DatabaseDecides(id: Id, spec: Spec, name: string)
    requires Tag(name) == ('D', 'B')
    ensures LastEntry(OperatorEnv(id, spec), name) == LastEntry(DatabaseEnv(id, spec), name)
  {
    OperatorLayers(id, spec, name);
    NotInAdmin(id, spec, name);
    NotInMiddle(id, spec, name);
    NotInBase(id, spec, name);
  }

  lemma AdminDecides(id: Id, spec: Spec, name: string)
    requires Tag(name) == ('A', 'D')
    ensures LastEntry(OperatorEnv(id, spec), name) == LastEntry(AdminEnv(id, spec), name)
  {
    OperatorLayers(id, spec, name);
    NotInDatabase(id, spec, name);
    NotInMiddle(id, spec, name);
    NotInBase(id, spec, name);
  }

  lemma MiddleDecides(id: Id, spec: Spec, name: string)
    requires Tag(name) in [('S', 'E'), ('R', 'E')]
    ensures LastEntry(OperatorEnv(id, spec), name) == LastEntry(Middle(id, spec), name)
  {
    OperatorLayers(id, spec, name);
    NotInDatabase(id, spec, name);
    NotInAdmin(id, spec, name);
    NotInBase(id, spec, name);
  }

  lemma BaseDecides(id: Id, spec: Spec, name: string)
    requires Tag(name) in [('A', 'L'), ('T', 'I'), ('O', 'C'), ('U', 'R'), ('C', 'S')]
    ensures LastEntry(OperatorEnv(id, spec), name) == LastEntry(BaseEnv(id, spec), name)
  {
    OperatorLayers(id, spec, name);
    NotInDatabase(id, spec, name);
    NotInAdmin(id, spec, name);
    NotInMiddle(id, spec, name);
  }

  /** What the container is given under a name is what its block has. */
  lemma FromBlock(id: Id, spec: Spec, name: string, block: Option<EnvVar>)
    requires LastEntry(OperatorEnv(id, spec), name) == block
    ensures block.Some? && block.value.name == name ==> Given(id, spec, name, block.value.source)
    ensures block == None ==> NotGiven(id, spec, name)
  {
    if UserSilent(spec, name) {
      OperatorStands(id, spec, name);
    }
  }

  // ----- The database -----

  lemma DatabaseNamesDiffer(id: Id, spec: Spec, i: nat, j: nat)
    requires i < j < |DatabaseEnv(id, spec)|
    ensures DatabaseEnv(id, spec)[i].name != DatabaseEnv(id, spec)[j].name
  {
    var env := DatabaseEnv(id, spec);
    assert env[i].name[12] == "EHPNUP"[i] && env[j].name[12] == "EHPNUP"[j];
    assert env[2].name[13] == 'O' && env[5].name[13] == 'A';
  }

  lemma DatabaseEntry(id: Id, spec: Spec, i: nat)
    requires i < |DatabaseEnv(id, spec)|
    ensures var e := DatabaseEnv(id, spec)[i]; Given(id, spec, e.name, e.source)
  {
    var env := DatabaseEnv(id, spec);
    forall j | i < j < |env| ensures env[j].name != env[i].name {
      DatabaseNamesDiffer(id, spec, i, j);
    }
    LastEntryAt(env, i);
    DatabaseTag(id, spec, i);
    DatabaseDecides(id, spec, env[i].name);
    FromBlock(id, spec, env[i].name, Some(env[i]));
  }

  /**
   * The container finds its database: the external server the spec names, with the credentials of the
   * Secret it names, or the Cluster's own Service, database and Secret. The user name comes from the
   * key "username", the password from "password".
   */
  lemma DatabaseVariables(id: Id, spec: Spec)
    ensures var ext := spec.database.external;
            var secret := if ext.Some? then ext.value.credentials else id.name + "-db-app";
            && Given(id, spec, "PAPERLESS_DBENGINE", Literal("postgresql"))
            && Given(id, spec, "PAPERLESS_DBHOST", Literal(if ext.Some? then ext.value.host else id.name + "-db-rw"))
            && Given(id, spec, "PAPERLESS_DBNAME", Literal(if ext.Some? then ext.value.name else "paperless"))
            && Given(id, spec, "PAPERLESS_DBUSER", FromSecret(SecretKeySelector(secret, "username")))
            && Given(id, spec, "PAPERLESS_DBPASS", FromSecret(SecretKeySelector(secret, "password")))
            && exists port ::
                 && IsNumeral(port) && Reading(port) == (if ext.Some? then ext.value.port else 5432)
                 && Given(id, spec, "PAPERLESS_DBPORT", Literal(port))
  {
    DatabaseEntry(id, spec, 0);
    DatabaseEntry(id, spec, 1);
    DatabaseEntry(id, spec, 2);
    DatabaseEntry(id, spec, 3);
    DatabaseEntry(id, spec, 4);
    DatabaseEntry(id, spec, 5);
    DbNamesSpelled(id);
    var port := if spec.database.external.Some? then Decimal(spec.database.external.value.port) else "5432";
    PortReads(spec);
    assert Given(id, spec, "PAPERLESS_DBPORT", Literal(port));
  }

  lemma DbNamesSpelled(id: Id)
    ensures CnpgAppSecretName(id) == id.name + "-db-app" && CnpgServiceName(id) == id.name + "-db-rw"
  {
    NamesSpelled(id.name);
    assert id.name + "-db" + "-app" == id.name + "-db-app" && id.name + "-db" + "-rw" == id.name + "-db-rw";
  }

  // ----- Numerals -----

  predicate IsDigit(c: char) {
    '0' <= c <= '9'
  }

  function Digit(c: char): nat
    requires IsDigit(c)
  {
    c as int - '0' as int
  }

  /** Digits, and no zero in front of others. */
  predicate IsNumeral(t: string) {
    |t| > 0 && (forall i :: 0 <= i < |t| ==> IsDigit(t[i])) && (t[0] == '0' ==> |t| == 1)
  }

  /** The number the digits spell, most significant first. */
  function Reading(t: string): nat
    requires forall i :: 0 <= i < |t| ==> IsDigit(t[i])
  {
    if t == "" then 0 else 10 * Reading(t[..|t| - 1]) + Digit(t[|t| - 1])
  }

  lemma {:induction false} DecimalReads(n: nat)
    ensures IsNumeral(Decimal(n)) && Reading(Decimal(n)) == n
    ensures n > 0 ==> Decimal(n)[0] != '0'
  {
    if n >= 10 {
      DecimalReads(n / 10);
      var t := Decimal(n);
      assert Decimal(n % 10) == [('0' as int + n % 10) as char];
      assert t[..|t| - 1] == Decimal(n / 10) && t[|t| - 1] == Decimal(n % 10)[0];
    } else {
      assert Decimal(n)[..0] == "";
    }
  }

  lemma PortReads(spec: Spec)
    ensures var port := if spec.database.external.Some? then Decimal(spec.database.external.value.port) else "5432";
            && IsNumeral(port)
            && Reading(port) == if spec.database.external.Some? then spec.database.external.value.port else 5432
  {
    if spec.database.external.Some? {
      DecimalReads(spec.database.external.value.port);
    } else {
      var t := "5432";
      assert t[..3] == "543" && t[..3][..2] == "54" && "54"[..1] == "5" && "5"[..0] == "";
    }
  }

  // ----- The local account -----

  /** Without an account there is no variable of it; with one, its name, its mail if given, and its password. */
  lemma AccountVariables(id: Id, spec: Spec)
    ensures spec.admin.enabled == Some(false) ==>
              && NotGiven(id, spec, "PAPERLESS_ADMIN_USER") && NotGiven(id, spec, "PAPERLESS_ADMIN_MAIL")
              && NotGiven(id, spec, "PAPERLESS_ADMIN_PASSWORD")
    ensures spec.admin.enabled != Some(false) ==>
              && Given(id, spec, "PAPERLESS_ADMIN_USER",
                       Literal(if spec.admin.username != "" then spec.admin.username else "admin"))
              && (if spec.admin.email != ""
                  then Given(id, spec, "PAPERLESS_ADMIN_MAIL", Literal(spec.admin.email))
                  else NotGiven(id, spec, "PAPERLESS_ADMIN_MAIL"))
              && Given(id, spec, "PAPERLESS_ADMIN_PASSWORD",
                       FromSecret(if spec.admin.passwordSecretRef.Some? then spec.admin.passwordSecretRef.value
                                  else SecretKeySelector(id.name + "-admin", "password")))
  {
    AccountEntries(id, spec);
    AccountTags();
    AccountVariable(id, spec, "PAPERLESS_ADMIN_USER");
    AccountVariable(id, spec, "PAPERLESS_ADMIN_MAIL");
    AccountVariable(id, spec, "PAPERLESS_ADMIN_PASSWORD");
  }

  lemma AccountTags()
    ensures Tag("PAPERLESS_ADMIN_USER") == Tag("PAPERLESS_ADMIN_MAIL") == Tag("PAPERLESS_ADMIN_PASSWORD") == ('A', 'D')
  {
  }

  lemma AccountVariable(id: Id, spec: Spec, name: string)
    requires Tag(name) == ('A', 'D')
    ensures match LastEntry(AdminEnv(id, spec), name)
            case Some(e) => e.name == name ==> Given(id, spec, name, e.source)
            case None => NotGiven(id, spec, name)
  {
    AdminDecides(id, spec, name);
    FromBlock(id, spec, name, LastEntry(AdminEnv(id, spec), name));
  }

  lemma AccountEntries(id: Id, spec: Spec)
    ensures var env := AdminEnv(id, spec);
            if spec.admin.enabled == Some(false)
            then env == []
            else
              && LastEntry(env, "PAPERLESS_ADMIN_USER") ==
                 Some(Plain("PAPERLESS_ADMIN_USER", if spec.admin.username != "" then spec.admin.username else "admin"))
              && LastEntry(env, "PAPERLESS_ADMIN_MAIL") ==
                 (if spec.admin.email != "" then Some(Plain("PAPERLESS_ADMIN_MAIL", spec.admin.email)) else None)
              && LastEntry(env, "PAPERLESS_ADMIN_PASSWORD") ==
                 Some(EnvVar("PAPERLESS_ADMIN_PASSWORD",
                             FromSecret(if spec.admin.passwordSecretRef.Some? then spec.admin.passwordSecretRef.value
                                        else SecretKeySelector(id.name + "-admin", "password"))))
  {
    var env := AdminEnv(id, spec);
    if spec.admin.enabled != Some(false) {
      NamesSpelled(id.name);
      assert env[0].name[16] == 'U' && env[|env| - 1].name[16] == 'P';
      assert spec.admin.email != "" ==> env[1].name[16] == 'M';
      LastEntryAt(env, 0);
      LastEntryAt(env, |env| - 1);
      if spec.admin.email != "" {
        LastEntryAt(env, 1);
      } else {
        forall e | e in env ensures e.name != "PAPERLESS_ADMIN_MAIL" {
          assert "PAPERLESS_ADMIN_MAIL"[16] == 'M';
        }
        NamesExact(env, "PAPERLESS_ADMIN_MAIL");
      }
    }
  }

  // ----- The secret key and the cache -----

  lemma SecretKeyVariable(id: Id, spec: Spec)
    ensures Given(id, spec, "PAPERLESS_SECRET_KEY",
                  FromSecret(if spec.secretKeySecretRef.Some? then spec.secretKeySecretRef.value
                             else SecretKeySelector(id.name + "-secret-key", "PAPERLESS_SECRET_KEY")))
  {
    var env := Middle(id, spec);
    assert env[0].name[10] == 'S' && env[1].name[10] == 'R';
    NamesSpelled(id.name);
    LastEntryAt(env, 0);
    MiddleDecides(id, spec, "PAPERLESS_SECRET_KEY");
    FromBlock(id, spec, "PAPERLESS_SECRET_KEY", Some(env[0]));
  }

  /** The managed Valkey's address, or what the user says of an external cache. */
  lemma CacheVariable(id: Id, spec: Spec)
    ensures Given(id, spec, "PAPERLESS_REDIS",
                  if spec.cache.managed != Some(false) then Literal("redis://" + id.name + "-valkey" + ":6379")
                  else if spec.cache.urlSecretRef.Some? then FromSecret(spec.cache.urlSecretRef.value)
                  else Literal(spec.cache.url.GetOr("")))
  {
    var env := Middle(id, spec);
    assert env[1].name[10] == 'R';
    CacheUrlSpelled(id);
    LastEntryAt(env, 1);
    MiddleDecides(id, spec, "PAPERLESS_REDIS");
    FromBlock(id, spec, "PAPERLESS_REDIS", Some(env[1]));
  }

  lemma CacheUrlSpelled(id: Id)
    ensures ManagedCacheUrl(id) == "redis://" + id.name + "-valkey" + ":6379"
  {
    assert Decimal(63) == Decimal(6) + Decimal(3) == "63";
    assert Decimal(637) == Decimal(63) + Decimal(7) == "637";
    assert Decimal(6379) == Decimal(637) + Decimal(9) == "6379";
    NamesSpelled(id.name);
    assert "redis://" + (id.name + "-valkey") + ":" + "6379" == "redis://" + id.name + "-valkey" + ":6379";
  }

  // ----- Addresses, time zone and languages -----

  lemma BaseEntry(id: Id, spec: Spec, i: nat)
    requires i < |BaseEnv(id, spec)|
    ensures var e := BaseEnv(id, spec)[i]; Given(id, spec, e.name, e.source)
  {
    var env := BaseEnv(id, spec);
    BaseTag(id, spec, i);
    forall j | i < j < |env| ensures env[j].name != env[i].name {
      BaseTag(id, spec, j);
    }
    LastEntryAt(env, i);
    BaseDecides(id, spec, env[i].name);
    FromBlock(id, spec, env[i].name, Some(env[i]));
  }

  /** The instance's own address, where it has one. */
  lemma AddressVariables(id: Id, spec: Spec)
    ensures spec.url != "" ==>
              && Given(id, spec, "PAPERLESS_URL", Literal(spec.url))
              && Given(id, spec, "PAPERLESS_CSRF_TRUSTED_ORIGINS", Literal(spec.url))
    ensures spec.url == "" ==>
              NotGiven(id, spec, "PAPERLESS_URL") && NotGiven(id, spec, "PAPERLESS_CSRF_TRUSTED_ORIGINS")
  {
    var env := BaseEnv(id, spec);
    if spec.url != "" {
      BaseEntry(id, spec, 3);
      BaseEntry(id, spec, 4);
    } else {
      NoAddress(id, spec, "PAPERLESS_URL");
      NoAddress(id, spec, "PAPERLESS_CSRF_TRUSTED_ORIGINS");
    }
  }

  lemma NoAddress(id: Id, spec: Spec, name: string)
    requires spec.url == "" && Tag(name) in [('U', 'R'), ('C', 'S')]
    ensures NotGiven(id, spec, name)
  {
    Absent(BaseEnv(id, spec), name);
    BaseDecides(id, spec, name);
    FromBlock(id, spec, name, None);
  }

  /**
   * Whatever host name a request to the instance arrives with is allowed: the Service's three names, the
   * two of a forwarded port, and the host of the instance's own address.
   */
  lemma HostsVariable(id: Id, spec: Spec)
    ensures Given(id, spec, "PAPERLESS_ALLOWED_HOSTS",
                  Literal(id.name + "," + (id.name + "." + id.ns + ".svc")
                          + "," + (id.name + "." + id.ns + ".svc.cluster.local") + ",localhost,127.0.0.1"
                          + (if spec.url != "" && spec.urlHost != "" then "," + spec.urlHost else "")))
  {
    HostsSpelled(id, spec);
    BaseEntry(id, spec, 0);
  }

  lemma HostsSpelled(id: Id, spec: Spec)
    ensures AllowedHosts(id, spec) ==
            id.name + "," + (id.name + "." + id.ns + ".svc")
            + "," + (id.name + "." + id.ns + ".svc.cluster.local") + ",localhost,127.0.0.1"
            + (if spec.url != "" && spec.urlHost != "" then "," + spec.urlHost else "")
  {
    var more := if spec.url != "" && spec.urlHost != "" then [spec.urlHost] else [];
    HostsJoined(ServiceDnsNames(id), more);
  }

  lemma HostsJoined(names: seq<string>, more: seq<string>)
    requires |names| == 3 && |more| <= 1
    ensures Join(names + ["localhost", "127.0.0.1"] + more, ",") ==
            names[0] + "," + names[1] + "," + names[2] + ",localhost,127.0.0.1"
            + (if more == [] then "" else "," + more[0])
  {
    var hosts := names + ["localhost", "127.0.0.1"];
    var a, b, c := names[0], names[1], names[2];
    JoinFive(a, b, c, "localhost", "127.0.0.1");
    assert hosts == [a, b, c, "localhost", "127.0.0.1"];
    LocalHosts(a + "," + b + "," + c);
    if more == [] {
      assert hosts + more == hosts;
    } else {
      JoinLast(hosts, more[0], ",");
      assert hosts + more == hosts + [more[0]];
      assert Join(hosts, ",") + "," + more[0] == Join(hosts, ",") + ("," + more[0]);
    }
  }

  lemma LocalHosts(t: string)
    ensures t + "," + "localhost" + "," + "127.0.0.1" == t + ",localhost,127.0.0.1"
  {
    assert ",localhost,127.0.0.1" == "," + "localhost" + "," + "127.0.0.1";
  }

  lemma JoinFive(a: string, b: string, c: string, d: string, e: string)
    ensures Join([a, b, c, d, e], ",") == a + "," + b + "," + c + "," + d + "," + e
  {
    JoinLast([a], b, ",");
    JoinLast([a, b], c, ",");
    JoinLast([a, b, c], d, ",");
    JoinLast([a, b, c, d], e, ",");
    assert [a] + [b] == [a, b] && [a, b] + [c] == [a, b, c] && [a, b, c] + [d] == [a, b, c, d]
        && [a, b, c, d] + [e] == [a, b, c, d, e];
  }

  /** Joining grows at the end: what is there, the separator, the new part. */
  lemma {:induction false} JoinLast(xs: seq<string>, x: string, separator: string)
    requires xs != []
    ensures Join(xs + [x], separator) == Join(xs, separator) + separator + x
  {
    assert (xs + [x])[0] == xs[0] && (xs + [x])[1..] == xs[1..] + [x];
    if |xs| > 1 {
      JoinLast(xs[1..], x, separator);
      assert xs[0] + separator + (Join(xs[1..], separator) + separator + x)
          == xs[0] + separator + Join(xs[1..], separator) + separator + x;
    } else {
      assert xs[1..] + [x] == [x];
    }
  }

  /** English where no language is given; one language as it is; more of them with a plus between. */
  lemma LanguageVariable(id: Id, spec: Spec)
    ensures exists text ::
              && Given(id, spec, "PAPERLESS_OCR_LANGUAGE", Literal(if text == "" then "eng" else text))
              && WithPluses(spec.languages, text)
  {
    BaseEntry(id, spec, 2);
    JoinHasPluses(spec.languages);
    assert Given(id, spec, "PAPERLESS_OCR_LANGUAGE", Literal(OcrLanguages(spec)));
  }

  /** The text is the list's items in order, with a plus between any two. */
  predicate WithPluses(xs: seq<string>, text: string) {
    if xs == [] then text == ""
    else if |xs| == 1 then text == xs[0]
    else
      var last := xs[|xs| - 1];
      && |text| > |last| && text[|text| - |last|..] == last && text[|text| - |last| - 1] == '+'
      && WithPluses(xs[..|xs| - 1], text[..|text| - |last| - 1])
  }

  lemma {:induction false} JoinHasPluses(xs: seq<string>)
    ensures WithPluses(xs, Join(xs, "+"))
    decreases |xs|
  {
    if |xs| > 1 {
      var front, last := xs[..|xs| - 1], xs[|xs| - 1];
      JoinHasPluses(front);
      JoinLast(front, last, "+");
      assert front + [last] == xs;
      assert Join(xs, "+")[..|Join(xs, "+")| - |last| - 1] == Join(front, "+");
    }
  }

  /** UTC unless the user says otherwise. */
  lemma TimeZoneVariable(id: Id, spec: Spec)
    ensures Given(id, spec, "PAPERLESS_TIME_ZONE", Literal(if spec.timezone != "" then spec.timezone else "UTC"))
  {
    BaseEntry(id, spec, 1);
  }

  // ----- What the admission rules are for -----

  /**
   * An external cache is admitted exactly when the container is told where it is. A managed one is
   * admitted exactly when no setting of the user's would be ignored and no empty url is written out.
   */
  lemma CacheRuleExact(id: Id, spec: Spec)
    ensures spec.cache.managed == Some(false) ==> (spec.cache.Admitted() <==> ToldOfCache(id, spec) != Literal(""))
    ensures spec.cache.managed != Some(false) ==>
              (spec.cache.Admitted() <==>
                 && ToldOfCache(id, spec.(cache := spec.cache.(managed := Some(false)))) == Literal("")
                 && spec.cache.url != Some(""))
  {
    CacheTold(id, spec);
    CacheTold(id, spec.(cache := spec.cache.(managed := Some(false))));
  }

  /** Where the container is told its cache is, if the user has added no variables. */
  function ToldOfCache(id: Id, spec: Spec): EnvSource {
    var e := LastEntry(WorkloadEnv(id, spec.(env := [])), "PAPERLESS_REDIS");
    if e.Some? then e.value.source else Literal("")
  }

  lemma CacheTold(id: Id, spec: Spec)
    ensures spec.cache.managed == Some(false) ==>
              ToldOfCache(id, spec) == if spec.cache.urlSecretRef.Some? then FromSecret(spec.cache.urlSecretRef.value)
                                else Literal(spec.cache.url.GetOr(""))
  {
    CacheVariable(id, spec.(env := []));
  }
}
