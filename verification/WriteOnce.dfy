// Generated Secrets in whole runs: one Create sets the data, and nothing the operator does changes it.
module WriteOnce {
  import opened Base
  import opened Api
  import opened Resources
  import opened Server
  import opened Protocol
  import opened Steps
  import opened Passes
  import opened Promises
  import opened Convergence
  import opened World

  /** Nobody but the operator writes to k. */
  predicate LeftAlone(evs: seq<Event>, k: Key) {
    forall i :: 0 <= i < |evs| ==> !(evs[i].Put? && evs[i].k == k)
  }

  /** If k still is the object u, its data is c; and u is never given out again. */
  predicate Holds(w: World, k: Key, u: Uid, c: Content) {
    u in w.used && (k in w.state.objs && w.state.objs[k].uid == u ==> w.state.objs[k].content == c)
  }

  lemma NextHolds(w: World, e: Event, k: Key, u: Uid, c: Content)
    requires k.kind.SecretKind? && Enabled(w, e) && Holds(w, k, u, c) && !(e.Put? && e.k == k)
    ensures Holds(Next(w, e), k, u, c)
  {
    if e.Request? {
      var p := w.procs[e.pid];
      var s' := Step(p, w.state, e.o).1;
      if k in s'.objs {
        if k in w.state.objs {
          StepKeeps(p, w.state, e.o, k);
        } else {
          StepWrites(p, w.state, e.o);
          assert s'.objs[k].uid == e.o.uid;
        }
      }
    }
  }

  lemma {:induction false} ExecHolds(w: World, evs: seq<Event>, k: Key, u: Uid, c: Content)
    requires k.kind.SecretKind? && Legal(w, evs) && Holds(w, k, u, c) && LeftAlone(evs, k)
    ensures Holds(Exec(w, evs), k, u, c)
    decreases |evs|
  {
    if evs != [] {
      NextHolds(w, evs[0], k, u, c);
      ExecHolds(Next(w, evs[0]), evs[1..], k, u, c);
    }
  }

  /**
   * In every run, with any number of reconcilers interleaved at single requests, with stale reads,
   * faults, crashes and policy edits: as long as a Secret is the same object its data is the same.
   */
  lemma SecretDataNeverChanges(w: World, evs: seq<Event>, k: Key, i: nat, j: nat)
    requires Booked(w) && Legal(w, evs) && i <= j <= |evs|
    requires k.kind.SecretKind? && LeftAlone(evs, k)
    requires Legal(w, evs[..i]) && Legal(w, evs[..j])
    requires var a, b := Exec(w, evs[..i]).state, Exec(w, evs[..j]).state;
             k in a.objs && k in b.objs && a.objs[k].uid == b.objs[k].uid
    ensures Exec(w, evs[..i]).state.objs[k].content == Exec(w, evs[..j]).state.objs[k].content
  {
    LegalPrefix(w, evs[..j], i);
    assert evs[..j][..i] == evs[..i];
    var a := Exec(w, evs[..i]);
    ExecBooked(w, evs[..i]);
    ExecHolds(a, evs[..j][i..], k, a.state.objs[k].uid, a.state.objs[k].content);
  }

  // ----- What the operator only reads -----

  /** k is the name of a generated Secret of some instance. */
  ghost predicate Derived(k: Key) {
    exists id, g :: k == GeneratedKey(id, g)
  }

  lemma NextLeavesSecret(w: World, e: Event, k: Key)
    requires Enabled(w, e) && k.kind.SecretKind? && !Derived(k)
    ensures e in [Collect(k), Remove(k)] || ((e.Put? || e.SetReplicas?) && e.k == k)
            || Find(Next(w, e).state, k) == Find(w.state, k)
  {
    if e.Request? {
      StepWritesAt(w.procs[e.pid], w.state, e.o, k);
      TargetIsDerived(w.procs[e.pid], k);
    }
  }

  lemma TargetIsDerived(p: Proc, k: Key)
    requires k.kind.SecretKind?
    ensures p.Working? && Target(p) == k && !Plan(p.pass.inst.spec, p.pos).ExternalDbItem? ==> Derived(k)
  {
    if p.Working? && Target(p) == k && Plan(p.pass.inst.spec, p.pos).SecretItem? {
      assert k == GeneratedKey(p.pass.id, Plan(p.pass.inst.spec, p.pos).g);
    }
  }

  /**
   * In every run a Secret that bears no derived name, such as the ones the user supplies for the
   * secret key, the admin password, the cache or the database, is left as it is by the operator.
   */
  lemma {:induction false} SuppliedSecretsUntouched(w: World, evs: seq<Event>, k: Key)
    requires Legal(w, evs) && k.kind.SecretKind? && !Derived(k)
    requires Collect(k) !in evs && Remove(k) !in evs
    requires forall e :: e in evs && (e.Put? || e.SetReplicas?) ==> e.k != k
    ensures Find(Exec(w, evs).state, k) == Find(w.state, k)
    decreases |evs|
  {
    if evs != [] {
      assert evs[0] in evs;
      NextLeavesSecret(w, evs[0], k);
      assert forall e :: e in evs[1..] ==> e in evs;
      SuppliedSecretsUntouched(Next(w, evs[0]), evs[1..], k);
    }
  }

  /** The reference the user supplies instead of a generated Secret. */
  function SuppliedRef(g: Generated, spec: Spec): Option<SecretKeySelector> {
    if g == SecretKey then spec.secretKeySecretRef else spec.admin.passwordSecretRef
  }

  /** k is one of the two derived Secrets of the instance. */
  predicate OwnDerived(id: Id, k: Key) {
    k == GeneratedKey(id, SecretKey) || k == GeneratedKey(id, Admin)
  }

  /** A pass writes to its own derived Secrets and to no other. */
  lemma SecretsWrittenIff(pass: Pass, k: Key)
    requires k.kind.SecretKind?
    ensures WritesTo(pass, k) <==> OwnDerived(pass.id, k)
  {
    assert Plan(pass.inst.spec, 0) == SecretItem(SecretKey) && Plan(pass.inst.spec, 1) == SecretItem(Admin);
  }

  /**
   * The edge: a supplied reference may name a Secret that bears one of the instance's own derived
   * names. Exactly then it is not only read: the operator aligns its ownership with the policy.
   */
  lemma SuppliedSecretOwnedIff(id: Id, s: State, script: Script, at: nat, n: nat, g: Generated)
    requires Honest(script) && Fresh(script) && id in s.insts && SuppliedRef(g, s.insts[id].spec).Some?
    requires Key(SecretKind, id.ns, SuppliedRef(g, s.insts[id].spec).value.name) in s.objs
    requires var p := Run(id, s, script, at, n).proc; Current(p).Some? && Position(p) >= AFTER_SECRETS
    ensures var k := Key(SecretKind, id.ns, SuppliedRef(g, s.insts[id].spec).value.name);
            var t := Run(id, s, script, at, n).state;
            && k in t.objs
            && (if OwnDerived(id, k) then ControlledBy(t.objs[k], s.insts[id].uid)
                <==> s.insts[id].spec.deletionPolicy == Delete
                else t.objs[k] == s.objs[k])
  {
    var k := Key(SecretKind, id.ns, SuppliedRef(g, s.insts[id].spec).value.name);
    var c := Run(id, s, script, at, n);
    CutAllKept(Starting(id), s, script, at, n);
    if OwnDerived(id, k) {
      RunSubject(id, s, script, at, n);
      var j := if k == GeneratedKey(id, SecretKey) then 0 else 1;
      assert Plan(s.insts[id].spec, j) == SecretItem(if j == 0 then SecretKey else Admin);
      PolicyTakesEffect(id, s, script, at, n, j);
    } else {
      AllBetweenSelf(Subject(id, s), s);
      TryBetween(id, s, s, script, at, n);
      SecretsWrittenIff(Subject(id, s), k);
      assert Find(c.state, k) == Find(s, k);
    }
  }

  // ----- How many Creates succeed -----

  /** How often k came into being, and how often it went. */
  function Arrivals(w: World, evs: seq<Event>, k: Key): nat
    requires Legal(w, evs)
    decreases |evs|
  {
    if evs == [] then 0
    else
      var w' := Next(w, evs[0]);
      (if k !in w.state.objs && k in w'.state.objs then 1 else 0) + Arrivals(w', evs[1..], k)
  }

  function Departures(w: World, evs: seq<Event>, k: Key): nat
    requires Legal(w, evs)
    decreases |evs|
  {
    if evs == [] then 0
    else (if evs[0] in [Collect(k), Remove(k)] then 1 else 0) + Departures(Next(w, evs[0]), evs[1..], k)
  }

  lemma NextPresence(w: World, e: Event, k: Key)
    requires Enabled(w, e)
    ensures k in w.state.objs && k !in Next(w, e).state.objs <==> e in [Collect(k), Remove(k)]
  {
    if e.Request? && k in w.state.objs {
      StepKeeps(w.procs[e.pid], w.state, e.o, k);
    }
  }

  /** Conservation: a Secret is created once for every time it has gone, and once more while it is there. */
  lemma {:induction false} CreatesBalanceDeletions(w: World, evs: seq<Event>, k: Key)
    requires Legal(w, evs)
    ensures Arrivals(w, evs, k) + (if k in w.state.objs then 1 else 0)
         == Departures(w, evs, k) + (if k in Exec(w, evs).state.objs then 1 else 0)
    decreases |evs|
  {
    if evs != [] {
      NextPresence(w, evs[0], k);
      CreatesBalanceDeletions(Next(w, evs[0]), evs[1..], k);
    }
  }

  /** So in a run that never deletes the Secret at most one Create succeeds, whatever races happen. */
  lemma AtMostOneCreate(w: World, evs: seq<Event>, k: Key)
    requires Legal(w, evs)
    requires forall i :: 0 <= i < |evs| ==> evs[i] != Collect(k) && evs[i] != Remove(k)
    ensures Arrivals(w, evs, k) <= 1
    ensures k in w.state.objs ==> Arrivals(w, evs, k) == 0
  {
    NoDepartures(w, evs, k);
    CreatesBalanceDeletions(w, evs, k);
  }

  lemma {:induction false} NoDepartures(w: World, evs: seq<Event>, k: Key)
    requires Legal(w, evs)
    requires forall i :: 0 <= i < |evs| ==> evs[i] != Collect(k) && evs[i] != Remove(k)
    ensures Departures(w, evs, k) == 0
    decreases |evs|
  {
    if evs != [] {
      NoDepartures(Next(w, evs[0]), evs[1..], k);
    }
  }
}
