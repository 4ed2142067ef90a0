// Every reference in the Deployment is ensured before it is used, in whole runs.
module References {
  import opened Base
  import opened Api
  import opened Names
  import opened Environment
  import opened Variables
  import opened Server
  import opened Protocol
  import opened Passes
  import opened World
  import Minting

  // ----- What a pass has ensured is there -----

  /** What the item is for is there. */
  predicate Present(id: Id, spec: Spec, item: Item, s: State) {
    var k := KeyOf(id, spec, item);
    match item
    case SecretItem(g) => Resources.Generates(g, spec) ==> k in s.objs
    case ExternalDbItem => k in s.objs && HasCredentials(s.objs[k])
    case _ => k in s.objs
  }

  predicate EnsuredBefore(id: Id, spec: Spec, n: nat, s: State)
    requires n <= Length(spec)
  {
    forall j :: 0 <= j < n ==> Present(id, spec, Plan(spec, j), s)
  }

  predicate EnsuredSoFar(p: Proc, s: State) {
    Current(p).Some? ==> EnsuredBefore(Current(p).value.id, Current(p).value.inst.spec, Position(p), s)
  }

  /** No request of any pass takes away what is there. */
  lemma StepKeepsPresent(p: Proc, s: State, o: Oracle, id: Id, spec: Spec, item: Item)
    requires Present(id, spec, item, s)
    ensures Present(id, spec, item, Step(p, s, o).1)
  {
    var k := KeyOf(id, spec, item);
    if k in s.objs {
      Steps.StepKeeps(p, s, o, k);
    }
  }

  lemma StepKeepsEnsured(p: Proc, s: State, o: Oracle, id: Id, spec: Spec, n: nat)
    requires n <= Length(spec) && EnsuredBefore(id, spec, n, s)
    ensures EnsuredBefore(id, spec, n, Step(p, s, o).1)
  {
    forall j | 0 <= j < n ensures Present(id, spec, Plan(spec, j), Step(p, s, o).1) {
      StepKeepsPresent(p, s, o, id, spec, Plan(spec, j));
    }
  }

  lemma ApplyLeavesPresent(p: Proc, s: State, o: Oracle)
    requires p.Working?
    requires !Plan(p.pass.inst.spec, p.pos).SecretItem? && !Plan(p.pass.inst.spec, p.pos).ExternalDbItem?
    requires Plan(p.pass.inst.spec, p.pos).ClusterItem? ==> !p.sub.First?
    requires Position(Step(p, s, o).0) > p.pos
    ensures Steps.Target(p) in Step(p, s, o).1.objs
  {
    var r := ApplyItem(p.pass, p.pos, s, o);
    assert Step(p, s, o) == (AfterApply(p.pass, p.pos, r.1, o), r.0);
    assert r.1.Got?;
  }

  /** A request that is acknowledged leaves what its item is for in place. */
  lemma AcknowledgedIsPresent(p: Proc, s: State, o: Oracle)
    requires p.Working? && !o.fault.StaleSecret? && Position(Step(p, s, o).0) > p.pos
    ensures Present(p.pass.id, p.pass.inst.spec, Plan(p.pass.inst.spec, p.pos), Step(p, s, o).1)
  {
    var item := Plan(p.pass.inst.spec, p.pos);
    if item.SecretItem? {
      SecretMovesOn(p, s, o);
    } else if item.ExternalDbItem? {
      CredentialsMoveOn(p, s, o);
    } else if item.ClusterItem? && p.sub.First? {
      CrdWaits(p, s, o);
    } else {
      ApplyLeavesPresent(p, s, o);
    }
  }

  /** How far a request takes a pass. */
  lemma StepAdvances(p: Proc, s: State, o: Oracle)
    ensures var p' := Step(p, s, o).0;
            && (Current(p).Some? ==>
                  && Current(p').Some? && SameRun(Current(p').value, Current(p).value)
                  && (Position(p') == Position(p) || (p.Working? && Position(p') == Position(p) + 1)))
            && (Current(p).None? && Current(p').Some? ==> Position(p') == 0)
  {
    if p.Working? {
      Steps.StepGoes(p, s, o);
    }
  }

  lemma StepEnsures(p: Proc, s: State, o: Oracle)
    requires EnsuredSoFar(p, s) && !o.fault.StaleSecret?
    ensures EnsuredSoFar(Step(p, s, o).0, Step(p, s, o).1)
  {
    StepAdvances(p, s, o);
    if Current(p).Some? {
      var (p', s') := Step(p, s, o);
      var pass := Current(p).value;
      StepKeepsEnsured(p, s, o, pass.id, pass.inst.spec, Position(p));
      if Position(p') > Position(p) {
        AcknowledgedIsPresent(p, s, o);
      }
      forall j | 0 <= j < Position(p') ensures Present(pass.id, pass.inst.spec, Plan(pass.inst.spec, j), s') {
        assert j < Position(p) ==> Present(pass.id, pass.inst.spec, Plan(pass.inst.spec, j), s');
      }
    }
  }

  // ----- In whole runs -----

  /** k is the object of an item the process has already been through. */
  predicate BehindIt(p: Proc, k: Key) {
    Current(p).Some? &&
    var pass := Current(p).value;
    exists j :: 0 <= j < Position(p) && j < Length(pass.inst.spec)
                && k == KeyOf(pass.id, pass.inst.spec, Plan(pass.inst.spec, j))
  }

  /** k holds the credentials the process has found complete. */
  predicate FoundCredentials(p: Proc, k: Key) {
    Current(p).Some? && Position(p) > DATABASE_POS &&
    var pass := Current(p).value;
    pass.inst.spec.database.IsExternal() && k == KeyOf(pass.id, pass.inst.spec, ExternalDbItem)
  }

  /**
   * Nobody takes away what process `pid` has already ensured in its pass, nor either key of the
   * credentials it has found, and it reads Secrets from the server itself. Anything else may happen,
   * edits and other passes' requests included.
   */
  predicate Spares(w: World, e: Event, pid: nat) {
    && ((e.Remove? || e.Collect?) && pid in w.procs ==> !BehindIt(w.procs[pid], e.k))
    && (e.Put? && pid in w.procs && FoundCredentials(w.procs[pid], e.k) ==> HasCredentials(e.obj))
    && (e.Request? && e.pid == pid ==> !e.o.fault.StaleSecret?)
  }

  predicate SparedThroughout(w: World, evs: seq<Event>, pid: nat)
    requires Legal(w, evs)
    decreases |evs|
  {
    evs == [] || (Spares(w, evs[0], pid) && SparedThroughout(Next(w, evs[0]), evs[1..], pid))
  }

  lemma NextEnsures(w: World, e: Event, pid: nat)
    requires Enabled(w, e) && Spares(w, e, pid)
    requires pid in w.procs ==> EnsuredSoFar(w.procs[pid], w.state)
    ensures pid in Next(w, e).procs ==> EnsuredSoFar(Next(w, e).procs[pid], Next(w, e).state)
  {
    if pid in w.procs && pid in Next(w, e).procs {
      var p := w.procs[pid];
      if e.Request? && e.pid == pid {
        StepEnsures(p, w.state, e.o);
      } else if Current(p).Some? {
        OthersEnsure(w, e, pid);
      }
    }
  }

  lemma OthersEnsure(w: World, e: Event, pid: nat)
    requires Enabled(w, e) && Spares(w, e, pid) && !(e.Request? && e.pid == pid)
    requires pid in w.procs && pid in Next(w, e).procs
    requires Current(w.procs[pid]).Some? && EnsuredSoFar(w.procs[pid], w.state)
    ensures EnsuredSoFar(Next(w, e).procs[pid], Next(w, e).state)
  {
    var p := w.procs[pid];
    var id, spec := Current(p).value.id, Current(p).value.inst.spec;
    if e.Request? {
      StepKeepsEnsured(w.procs[e.pid], w.state, e.o, id, spec, Position(p));
    } else {
      forall j | 0 <= j < Position(p) ensures Present(id, spec, Plan(spec, j), Next(w, e).state) {
        assert Present(id, spec, Plan(spec, j), w.state);
        assert Plan(spec, j).ExternalDbItem? ==> j == DATABASE_POS;
        assert BehindIt(p, KeyOf(id, spec, Plan(spec, j)));
      }
    }
  }

  lemma {:induction false} ExecEnsures(w: World, evs: seq<Event>, pid: nat)
    requires Legal(w, evs) && SparedThroughout(w, evs, pid)
    requires pid in w.procs ==> EnsuredSoFar(w.procs[pid], w.state)
    ensures pid in Exec(w, evs).procs ==> EnsuredSoFar(Exec(w, evs).procs[pid], Exec(w, evs).state)
    decreases |evs|
  {
    if evs != [] {
      NextEnsures(w, evs[0], pid);
      ExecEnsures(Next(w, evs[0]), evs[1..], pid);
    }
  }

  // ----- What the Deployment refers to -----

  /** Somebody else wrote a Secret at the derived name that lacks the key. */
  predicate WrittenWithoutKey(evs: seq<Event>, id: Id, g: Resources.Generated) {
    exists i :: 0 <= i < |evs| && PutsWithoutKey(evs[i], id, g)
  }

  predicate PutsWithoutKey(e: Event, id: Id, g: Resources.Generated) {
    e.Put? && e.k == Steps.GeneratedKey(id, g) && !Minting.Carries(e.obj, Resources.ValueKey(g))
  }

  predicate KeyedAt(id: Id, g: Resources.Generated, s: State) {
    var k := Steps.GeneratedKey(id, g);
    k in s.objs ==> Minting.Carries(s.objs[k], Resources.ValueKey(g))
  }

  lemma StepKeepsKey(p: Proc, s: State, o: Oracle, id: Id, g: Resources.Generated)
    requires KeyedAt(id, g, s)
    ensures KeyedAt(id, g, Step(p, s, o).1)
  {
    var k := Steps.GeneratedKey(id, g);
    Steps.StepWritesAt(p, s, o, k);
    if Find(Step(p, s, o).1, k) != Find(s, k) {
      Steps.GeneratedKeyIs(id, g, p.pass.id, p.pass.inst.spec, p.pos);
    }
  }

  lemma {:induction false} ExecKeepsKey(w: World, evs: seq<Event>, id: Id, g: Resources.Generated)
    requires Legal(w, evs) && KeyedAt(id, g, w.state) && !WrittenWithoutKey(evs, id, g)
    ensures KeyedAt(id, g, Exec(w, evs).state)
    decreases |evs|
  {
    if evs != [] {
      assert !PutsWithoutKey(evs[0], id, g);
      assert forall i :: 0 <= i < |evs[1..]| ==> evs[1..][i] == evs[i + 1];
      if evs[0].Request? {
        StepKeepsKey(w.procs[evs[0].pid], w.state, evs[0].o, id, g);
      }
      ExecKeepsKey(Next(w, evs[0]), evs[1..], id, g);
    }
  }

  /** The Secrets of which others may have dropped the key. */
  function Unkeyed(evs: seq<Event>, id: Id): set<Resources.Generated> {
    set g | g in {Resources.SecretKey, Resources.Admin} && WrittenWithoutKey(evs, id, g)
  }

  /**
   * The Secret is there with its key, except where others have dropped it, or it is the one
   * CloudNativePG generates beside the Cluster, which is there.
   */
  predicate Resolves(id: Id, spec: Spec, ref: SecretKeySelector, s: State, unkeyed: set<Resources.Generated>) {
    var k := Key(SecretKind, id.ns, ref.name);
    var cluster := Key(ClusterKind, id.ns, id.name + "-db");
    || (k in s.objs && Minting.Carries(s.objs[k], ref.key))
    || (k in s.objs && exists g :: g in unkeyed && k == Steps.GeneratedKey(id, g))
    || (spec.database.external.None? && ref.name == cluster.name + "-app" && cluster in s.objs)
  }

  lemma SecretKeyResolves(id: Id, spec: Spec, s: State, unkeyed: set<Resources.Generated>)
    requires EnsuredBefore(id, spec, DATABASE_POS + 1, s) && (forall g :: g !in unkeyed ==> KeyedAt(id, g, s))
    requires spec.secretKeySecretRef.None?
    ensures Resolves(id, spec, SecretKeySelector(id.name + "-secret-key", "PAPERLESS_SECRET_KEY"), s, unkeyed)
  {
    assert Present(id, spec, Plan(spec, 0), s);
    NamesSpelled(id.name);
    assert Steps.GeneratedKey(id, Resources.SecretKey) in s.objs;
  }

  lemma PasswordResolves(id: Id, spec: Spec, s: State, unkeyed: set<Resources.Generated>)
    requires EnsuredBefore(id, spec, DATABASE_POS + 1, s) && (forall g :: g !in unkeyed ==> KeyedAt(id, g, s))
    requires spec.admin.enabled != Some(false) && spec.admin.passwordSecretRef.None?
    ensures Resolves(id, spec, SecretKeySelector(id.name + "-admin", "password"), s, unkeyed)
  {
    assert Present(id, spec, Plan(spec, 1), s);
    NamesSpelled(id.name);
    assert Steps.GeneratedKey(id, Resources.Admin) in s.objs;
  }

  lemma CredentialsResolve(id: Id, spec: Spec, key: string, s: State, unkeyed: set<Resources.Generated>)
    requires EnsuredBefore(id, spec, DATABASE_POS + 1, s) && key in ["username", "password"]
    ensures Resolves(id, spec, SecretKeySelector(CredentialsName(id, spec), key), s, unkeyed)
  {
    assert Present(id, spec, Plan(spec, DATABASE_POS), s);
    if spec.database.external.None? {
      NamesSpelled(id.name);
      assert id.name + "-db" + "-app" == id.name + "-db-app";
    }
  }

  lemma KnownReferenceResolves(id: Id, spec: Spec, e: EnvVar, s: State, unkeyed: set<Resources.Generated>)
    requires EnsuredBefore(id, spec, DATABASE_POS + 1, s) && (forall g :: g !in unkeyed ==> KeyedAt(id, g, s))
    requires KnownReference(id, spec, e)
    ensures SuppliedReference(spec, e.source.secret) || Resolves(id, spec, e.source.secret, s, unkeyed)
  {
    if spec.secretKeySecretRef.None? {
      SecretKeyResolves(id, spec, s, unkeyed);
    }
    if spec.admin.enabled != Some(false) && spec.admin.passwordSecretRef.None? {
      PasswordResolves(id, spec, s, unkeyed);
    }
    CredentialsResolve(id, spec, "username", s, unkeyed);
    CredentialsResolve(id, spec, "password", s, unkeyed);
  }

  /** The managed cache's Service. */
  function CacheServiceKey(id: Id): Key {
    Key(ServiceKind, id.ns, id.name + "-valkey")
  }

  /** The pass applies the managed cache's Service. */
  ghost predicate AppliesCacheService(id: Id, spec: Spec) {
    exists j :: 0 <= j < Length(spec) && !Plan(spec, j).ExternalDbItem?
                && KeyOf(id, spec, Plan(spec, j)) == CacheServiceKey(id)
  }

  /** The address of the Valkey behind that Service. */
  function CacheAddress(id: Id): string {
    "redis://" + CacheServiceKey(id).name + ":6379"
  }

  /**
   * Everything the Deployment refers to is in place, except where the user wrote the reference: each
   * Secret with its key unless others have dropped that, each claim, and the Service the cache's address
   * names. The container is given that address exactly when the pass applies the Service, unless the
   * user wrote one.
   */
  ghost predicate Closed(id: Id, spec: Spec, s: State, unkeyed: set<Resources.Generated>) {
    var deployment := Resources.DeploymentOf(id, spec);
    && (forall e :: e in deployment.env && e.source.FromSecret? ==>
          || e in spec.env
          || SuppliedReference(spec, e.source.secret)
          || Resolves(id, spec, e.source.secret, s, unkeyed))
    && (forall i :: 0 <= i < |deployment.volumes| ==> Key(PvcKind, id.ns, deployment.volumes[i].claim) in s.objs)
    && (AppliesCacheService(id, spec) ==> CacheServiceKey(id) in s.objs)
    && (UserSilent(spec, "PAPERLESS_REDIS") && SuppliesNoCacheUrl(id, spec) ==>
          (LastEntry(deployment.env, "PAPERLESS_REDIS") == Some(Plain("PAPERLESS_REDIS", CacheAddress(id)))
           <==> AppliesCacheService(id, spec)))
  }

  /** The url of an external cache is not by chance the managed one's. */
  predicate SuppliesNoCacheUrl(id: Id, spec: Spec) {
    spec.cache.url.GetOr("") != CacheAddress(id)
  }

  lemma CacheServiceIff(id: Id, spec: Spec)
    ensures AppliesCacheService(id, spec) <==> spec.cache.managed != Some(false)
  {
    NamesSpelled(id.name);
    if spec.cache.managed != Some(false) {
      assert Plan(spec, 8) == ValkeyServiceItem;
    } else {
      assert |id.name + "-valkey"| > |id.name|;
    }
  }

  lemma ClaimsPresent(id: Id, spec: Spec, s: State)
    requires EnsuredBefore(id, spec, DATABASE_POS + 1, s)
    ensures var volumes := Resources.VolumesOf(Resources.VolumeSpecs(id));
            forall i :: 0 <= i < |volumes| ==> Key(PvcKind, id.ns, volumes[i].claim) in s.objs
  {
    assert Present(id, spec, Plan(spec, 2), s) && Present(id, spec, Plan(spec, 3), s);
    assert Present(id, spec, Plan(spec, 4), s) && Present(id, spec, Plan(spec, 5), s);
  }

  lemma ClosedWhenEnsured(id: Id, spec: Spec, s: State, unkeyed: set<Resources.Generated>)
    requires EnsuredBefore(id, spec, Length(spec) - 1, s) && (forall g :: g !in unkeyed ==> KeyedAt(id, g, s))
    ensures Closed(id, spec, s, unkeyed)
  {
    assert EnsuredBefore(id, spec, DATABASE_POS + 1, s);
    forall e | e in WorkloadEnv(id, spec) && e.source.FromSecret? && e !in spec.env
      ensures SuppliedReference(spec, e.source.secret) || Resolves(id, spec, e.source.secret, s, unkeyed)
    {
      ReferencesAccounted(id, spec, e);
      KnownReferenceResolves(id, spec, e, s, unkeyed);
    }
    ClaimsPresent(id, spec, s);
    CacheIsServed(id, spec, s);
  }

  lemma CacheIsServed(id: Id, spec: Spec, s: State)
    requires EnsuredBefore(id, spec, Length(spec) - 1, s)
    ensures AppliesCacheService(id, spec) ==> CacheServiceKey(id) in s.objs
    ensures UserSilent(spec, "PAPERLESS_REDIS") && SuppliesNoCacheUrl(id, spec) ==>
              (LastEntry(WorkloadEnv(id, spec), "PAPERLESS_REDIS") == Some(Plain("PAPERLESS_REDIS", CacheAddress(id)))
               <==> AppliesCacheService(id, spec))
  {
    CacheServiceIff(id, spec);
    CacheVariable(id, spec);
    assert "redis://" + id.name + "-valkey" == "redis://" + (id.name + "-valkey");
    if spec.cache.managed != Some(false) {
      NamesSpelled(id.name);
      assert Present(id, spec, Plan(spec, 8), s) && Plan(spec, 8) == ValkeyServiceItem;
    }
  }

  /**
   * In every run, with any number of passes at once, crashes, edits, deletions and garbage collection:
   * when a process comes to apply the Deployment, everything the Deployment refers to is in place.
   * Nobody must have taken away what that very pass had ensured before.
   */
  lemma ReferencesEnsuredFirst(evs: seq<Event>, pid: nat)
    requires Legal(EMPTY, evs) && SparedThroughout(EMPTY, evs, pid)
    requires var w := Exec(EMPTY, evs);
             && pid in w.procs && w.procs[pid].Working?
             && Plan(w.procs[pid].pass.inst.spec, w.procs[pid].pos).DeploymentItem?
    ensures var w := Exec(EMPTY, evs);
            var id := w.procs[pid].pass.id;
            Closed(id, w.procs[pid].pass.inst.spec, w.state, Unkeyed(evs, id))
  {
    var w := Exec(EMPTY, evs);
    var p := w.procs[pid];
    ExecEnsures(EMPTY, evs, pid);
    forall g | g !in Unkeyed(evs, p.pass.id) ensures KeyedAt(p.pass.id, g, w.state) {
      ExecKeepsKey(EMPTY, evs, p.pass.id, g);
    }
    assert p.pos + 1 == Length(p.pass.inst.spec);
    ClosedWhenEnsured(p.pass.id, p.pass.inst.spec, w.state, Unkeyed(evs, p.pass.id));
  }
}
