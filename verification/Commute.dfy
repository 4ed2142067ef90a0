// Two instances: when their passes touch the same objects, and that they do not interfere otherwise.
module Commute {
  import opened Base
  import opened Api
  import opened Names
  import opened Server
  import opened Protocol
  import opened Steps
  import opened Passes
  import opened Promises
  import opened Convergence

  // ----- Footprints -----

  ghost predicate ReadsOrWrites(pass: Pass, k: Key) {
    k == CRD_KEY
    || exists j :: 0 <= j < Length(pass.inst.spec) && k == KeyOf(pass.id, pass.inst.spec, Plan(pass.inst.spec, j))
  }

  /** The Valkey objects of `a` bear the name of instance `b`. */
  predicate CacheTakesName(a: Pass, b: Pass) {
    a.inst.spec.cache.IsManaged() && a.id.ns == b.id.ns && DerivedName(a.id.name, ValkeyPart) == b.id.name
  }

  lemma PlanHasValkey(spec: Spec)
    requires spec.cache.IsManaged()
    ensures Plan(spec, 7) == ValkeyDeploymentItem
  {
  }

  lemma SharedKeyIsCache(a: Pass, i: nat, b: Pass, j: nat)
    requires a.id != b.id
    requires i < Length(a.inst.spec) && !Plan(a.inst.spec, i).ExternalDbItem?
    requires j < Length(b.inst.spec) && !Plan(b.inst.spec, j).ExternalDbItem?
    requires KeyOf(a.id, a.inst.spec, Plan(a.inst.spec, i)) == KeyOf(b.id, b.inst.spec, Plan(b.inst.spec, j))
    ensures CacheTakesName(a, b) || CacheTakesName(b, a)
  {
    var x, y := Plan(a.inst.spec, i), Plan(b.inst.spec, j);
    if DerivedPart(x).Some? && DerivedPart(y).Some? {
      DerivedNameInjective(a.id.name, DerivedPart(x).value, b.id.name, DerivedPart(y).value);
    }
  }

  /** The part an item's name is derived with, unless it bears the instance's own name. */
  function DerivedPart(item: Item): Option<Part> {
    match item
    case SecretItem(g) => Some(Resources.PartOf(g))
    case PvcItem(part) => Some(part)
    case ClusterItem => Some(DbPart)
    case ValkeyDeploymentItem => Some(ValkeyPart)
    case ValkeyServiceItem => Some(ValkeyPart)
    case ValkeyPvcItem => Some(ValkeyPart)
    case _ => None
  }

  /** Two instances write to a common object exactly when one is named after the other's managed cache. */
  lemma FootprintsCollideIff(a: Pass, b: Pass)
    requires a.id != b.id
    ensures (exists k :: WritesTo(a, k) && WritesTo(b, k)) <==> CacheTakesName(a, b) || CacheTakesName(b, a)
  {
    if CacheTakesName(a, b) {
      SharedCacheKey(a, b);
    }
    if CacheTakesName(b, a) {
      SharedCacheKey(b, a);
    }
    forall k | WritesTo(a, k) && WritesTo(b, k) ensures CacheTakesName(a, b) || CacheTakesName(b, a) {
      var i :| 0 <= i < Length(a.inst.spec) && !Plan(a.inst.spec, i).ExternalDbItem?
               && k == KeyOf(a.id, a.inst.spec, Plan(a.inst.spec, i));
      var j :| 0 <= j < Length(b.inst.spec) && !Plan(b.inst.spec, j).ExternalDbItem?
               && k == KeyOf(b.id, b.inst.spec, Plan(b.inst.spec, j));
      SharedKeyIsCache(a, i, b, j);
    }
  }

  lemma SharedCacheKey(a: Pass, b: Pass)
    requires CacheTakesName(a, b)
    ensures var k := Key(DeploymentKind, b.id.ns, b.id.name); WritesTo(a, k) && WritesTo(b, k)
  {
    PlanHasValkey(a.inst.spec);
    var last := Length(b.inst.spec) - 1;
    assert Plan(b.inst.spec, last) == DeploymentItem;
  }

  /** Claims, Secrets and Clusters are never shared, whatever the names. */
  lemma StatefulObjectsDisjoint(a: Pass, b: Pass, k: Key)
    requires a.id != b.id && (k.kind.PvcKind? || k.kind.SecretKind? || k.kind.ClusterKind?)
    ensures !(WritesTo(a, k) && WritesTo(b, k))
  {
    if WritesTo(a, k) && WritesTo(b, k) {
      var p := StatefulName(a, k);
      var q := StatefulName(b, k);
      DerivedNameInjective(a.id.name, p, b.id.name, q);
    }
  }

  /** Such an object bears a derived name of its instance. */
  lemma StatefulName(pass: Pass, k: Key) returns (part: Part)
    requires (k.kind.PvcKind? || k.kind.SecretKind? || k.kind.ClusterKind?) && WritesTo(pass, k)
    ensures k.ns == pass.id.ns && k.name == DerivedName(pass.id.name, part)
  {
    var j :| 0 <= j < Length(pass.inst.spec) && !Plan(pass.inst.spec, j).ExternalDbItem?
             && k == KeyOf(pass.id, pass.inst.spec, Plan(pass.inst.spec, j));
    part := DerivedPart(Plan(pass.inst.spec, j)).value;
  }

  // ----- A pass depends on its footprint only -----

  /** The two states look the same to this pass. */
  ghost predicate Agree(pass: Pass, s: State, t: State) {
    && (pass.id in s.insts <==> pass.id in t.insts)
    && (pass.id in s.insts ==> s.insts[pass.id] == t.insts[pass.id])
    && forall k :: ReadsOrWrites(pass, k) ==> Find(s, k) == Find(t, k)
  }

  /** Same next step, same object at the target, and no instance touched. */
  ghost predicate Alongside(p: Proc, s: State, t: State, o: Oracle)
    requires p.Working?
  {
    var (p1, s1) := Step(p, s, o);
    var (p2, t1) := Step(p, t, o);
    p1 == p2 && Find(s1, Target(p)) == Find(t1, Target(p)) && s1.insts == s.insts && t1.insts == t.insts
  }

  lemma SecretAlongside(p: Proc, s: State, t: State, o: Oracle)
    requires p.Working? && Plan(p.pass.inst.spec, p.pos).SecretItem? && Find(s, Target(p)) == Find(t, Target(p))
    ensures Alongside(p, s, t, o)
  {
    assert Step(p, s, o) == StepSecret(p.pass, p.pos, p.sub, s, o);
    assert Step(p, t, o) == StepSecret(p.pass, p.pos, p.sub, t, o);
    StepSecretAlongside(p, s, t, o);
  }

  lemma StepSecretAlongside(p: Proc, s: State, t: State, o: Oracle)
    requires p.Working? && Plan(p.pass.inst.spec, p.pos).SecretItem? && Find(s, Target(p)) == Find(t, Target(p))
    ensures var r, q := StepSecret(p.pass, p.pos, p.sub, s, o), StepSecret(p.pass, p.pos, p.sub, t, o);
            && r.0 == q.0 && Find(r.1, Target(p)) == Find(q.1, Target(p))
            && r.1.insts == s.insts && q.1.insts == t.insts
  {
    if p.sub.ToCreate? {
      CreateAlongside(p, s, t, o);
    } else if p.sub.ToPatch? {
      PatchAlongside(p, s, t, o);
    } else {
      assert GetObject(s, Target(p), o) == GetObject(t, Target(p), o);
    }
  }

  lemma CreateAlongside(p: Proc, s: State, t: State, o: Oracle)
    requires p.Working? && Plan(p.pass.inst.spec, p.pos).SecretItem? && Find(s, Target(p)) == Find(t, Target(p))
    requires p.sub.ToCreate?
    ensures var r, q := StepSecret(p.pass, p.pos, p.sub, s, o), StepSecret(p.pass, p.pos, p.sub, t, o);
            && r.0 == q.0 && Find(r.1, Target(p)) == Find(q.1, Target(p))
            && r.1.insts == s.insts && q.1.insts == t.insts
  {
  }

  lemma PatchAlongside(p: Proc, s: State, t: State, o: Oracle)
    requires p.Working? && Plan(p.pass.inst.spec, p.pos).SecretItem? && Find(s, Target(p)) == Find(t, Target(p))
    requires p.sub.ToPatch?
    ensures var r, q := StepSecret(p.pass, p.pos, p.sub, s, o), StepSecret(p.pass, p.pos, p.sub, t, o);
            && r.0 == q.0 && Find(r.1, Target(p)) == Find(q.1, Target(p))
            && r.1.insts == s.insts && q.1.insts == t.insts
  {
  }

  lemma DatabaseAlongside(p: Proc, s: State, t: State, o: Oracle)
    requires p.Working? && p.pos == DATABASE_POS && p.sub.First?
    requires Find(s, Target(p)) == Find(t, Target(p)) && Find(s, CRD_KEY) == Find(t, CRD_KEY)
    ensures Alongside(p, s, t, o)
  {
    if Plan(p.pass.inst.spec, p.pos).ExternalDbItem? {
      assert Step(p, s, o) == StepExternalDatabase(p.pass, p.pos, s, o);
      assert Step(p, t, o) == StepExternalDatabase(p.pass, p.pos, t, o);
    } else {
      assert Step(p, s, o) == StepFindCrd(p.pass, p.pos, s, o);
      assert Step(p, t, o) == StepFindCrd(p.pass, p.pos, t, o);
    }
  }

  lemma ApplyAlongside(p: Proc, s: State, t: State, o: Oracle)
    requires p.Working? && !Plan(p.pass.inst.spec, p.pos).SecretItem? && !Plan(p.pass.inst.spec, p.pos).ExternalDbItem?
    requires p.pos == DATABASE_POS ==> !p.sub.First?
    requires Find(s, Target(p)) == Find(t, Target(p))
    ensures Alongside(p, s, t, o)
  {
    ApplyIsStep(p, s, o);
    ApplyIsStep(p, t, o);
    ApplyItemAlongside(p, s, t, o);
  }

  lemma ApplyItemAlongside(p: Proc, s: State, t: State, o: Oracle)
    requires p.Working? && !Plan(p.pass.inst.spec, p.pos).SecretItem? && !Plan(p.pass.inst.spec, p.pos).ExternalDbItem?
    requires Find(s, Target(p)) == Find(t, Target(p))
    ensures var r, q := ApplyItem(p.pass, p.pos, s, o), ApplyItem(p.pass, p.pos, t, o);
            && r.1 == q.1 && Find(r.0, Target(p)) == Find(q.0, Target(p))
            && r.0.insts == s.insts && q.0.insts == t.insts
  {
  }

  lemma WorkingAlongside(p: Proc, s: State, t: State, o: Oracle)
    requires p.Working? && Agree(p.pass, s, t)
    ensures Alongside(p, s, t, o)
  {
    assert ReadsOrWrites(p.pass, Target(p)) && ReadsOrWrites(p.pass, CRD_KEY);
    if Plan(p.pass.inst.spec, p.pos).SecretItem? {
      SecretAlongside(p, s, t, o);
    } else if p.pos == DATABASE_POS && (p.sub.First? || Plan(p.pass.inst.spec, p.pos).ExternalDbItem?) {
      DatabaseAlongside(p, s, t, o);
    } else {
      ApplyAlongside(p, s, t, o);
    }
  }

  lemma WorkingAgrees(p: Proc, s: State, t: State, o: Oracle)
    requires p.Working? && Agree(p.pass, s, t)
    ensures Step(p, s, o).0 == Step(p, t, o).0
    ensures Agree(p.pass, Step(p, s, o).1, Step(p, t, o).1)
  {
    WorkingAlongside(p, s, t, o);
    StepWrites(p, s, o);
    StepWrites(p, t, o);
    var s', t' := Step(p, s, o).1, Step(p, t, o).1;
    forall k | ReadsOrWrites(p.pass, k) ensures Find(s', k) == Find(t', k) {
      if k != Target(p) {
        assert Find(s', k) == Find(s, k) && Find(t', k) == Find(t, k);
      }
    }
  }

  lemma FinishingAgrees(p: Proc, s: State, t: State, o: Oracle)
    requires p.Finishing? && Agree(p.pass, s, t)
    ensures Step(p, s, o).0 == Step(p, t, o).0
    ensures Agree(p.pass, Step(p, s, o).1, Step(p, t, o).1)
  {
    var s', t' := Step(p, s, o).1, Step(p, t, o).1;
    forall k ensures Find(s', k) == Find(s, k) && Find(t', k) == Find(t, k) {}
  }

  lemma AgreeFor(a: Pass, b: Pass, s: State, t: State)
    requires Agree(a, s, t) && a.id == b.id && a.inst.spec == b.inst.spec
    ensures Agree(b, s, t)
  {
    forall k | ReadsOrWrites(b, k) ensures Find(s, k) == Find(t, k) {
      assert ReadsOrWrites(a, k);
    }
  }

  /** From states that look the same to it a pass goes the same way, to states that look the same to it. */
  lemma {:induction false} RestAgrees(p: Proc, s: State, t: State, script: Script, at: nat)
    requires (p.Working? || p.Finishing?) && Agree(p.pass, s, t)
    ensures Rest(p, s, script, at).proc == Rest(p, t, script, at).proc
    ensures Agree(p.pass, Rest(p, s, script, at).state, Rest(p, t, script, at).state)
    decreases Remaining(p)
  {
    var o := script(at);
    var (p', s') := Step(p, s, o);
    var (q', t') := Step(p, t, o);
    if p.Working? {
      WorkingAgrees(p, s, t, o);
      StepGoes(p, s, o);
      AgreeFor(p.pass, p'.pass, s', t');
      RestAgrees(p', s', t', script, at + 1);
      AgreeFor(p'.pass, p.pass, Rest(p', s', script, at + 1).state, Rest(p', t', script, at + 1).state);
    } else {
      FinishingAgrees(p, s, t, o);
      assert Rest(p', s', script, at + 1) == Outcome(p', s', at + 1);
      assert Rest(q', t', script, at + 1) == Outcome(q', t', at + 1);
    }
  }

  /** A pass leaves everything else as it is. */
  ghost predicate Outside(pass: Pass, s: State, s': State) {
    && (forall k :: WritesTo(pass, k) || Find(s', k) == Find(s, k))
    && s'.insts.Keys == s.insts.Keys
    && (forall id :: id in s.insts && id != pass.id ==> s'.insts[id] == s.insts[id])
    && s'.live == s.live
  }

  lemma StepOutside(p: Proc, s: State, o: Oracle)
    requires p.Working? || p.Finishing?
    ensures Outside(p.pass, s, Step(p, s, o).1)
  {
    StepWrites(p, s, o);
    var s' := Step(p, s, o).1;
    forall id | id in s.insts && id != p.pass.id ensures s'.insts[id] == s.insts[id] {
      StepInstances(p, s, o, id);
    }
    StepInstances(p, s, o, p.pass.id);
    forall k ensures WritesTo(p.pass, k) || Find(s', k) == Find(s, k) {
      if s'.objs != s.objs && k == Target(p) {
        assert !Plan(p.pass.inst.spec, p.pos).ExternalDbItem?;
      }
    }
  }

  lemma OutsideTrans(a: Pass, b: Pass, s: State, t: State, u: State)
    requires Outside(a, s, t) && Outside(b, t, u) && a.id == b.id && a.inst.spec == b.inst.spec
    ensures Outside(a, s, u)
  {
    forall k | !WritesTo(a, k) ensures Find(u, k) == Find(s, k) {
      assert Find(t, k) == Find(s, k);
      assert !WritesTo(b, k);
    }
  }

  lemma {:induction false} RestOutside(p: Proc, s: State, script: Script, at: nat)
    requires p.Working? || p.Finishing?
    ensures Outside(p.pass, s, Rest(p, s, script, at).state)
    decreases Remaining(p)
  {
    var (p', s') := Step(p, s, script(at));
    StepOutside(p, s, script(at));
    if p.Working? {
      StepGoes(p, s, script(at));
      RestOutside(p', s', script, at + 1);
      OutsideTrans(p.pass, p'.pass, s, s', Rest(p', s', script, at + 1).state);
    } else {
      assert Rest(p', s', script, at + 1) == Outcome(p', s', at + 1);
    }
  }

  // ----- Whole passes -----

  /** A fresh pass either reads nothing and does nothing, or begins from the stored instance. */
  lemma ReconciledFresh(id: Id, s: State, script: Script, at: nat)
    requires Fresh(script)
    ensures var r := Reconciled(id, s, script, at);
            if GetInstance(s, id, script(at)).Got?
            then id in s.insts && r == Rest(Begin(id, s.insts[id], script(at).now), s, script, at + 1)
            else r == Outcome(Step(Starting(id), s, script(at)).0, s, at + 1) && r.proc.last.None?
  {
    var (p', s') := Step(Starting(id), s, script(at));
    if p'.Finished? {
      assert Rest(p', s', script, at + 1) == Outcome(p', s', at + 1);
    }
  }

  /** What b's pass looks at and a's writes are apart, both ways round. */
  ghost predicate Independent(a: Pass, b: Pass) {
    && a.id != b.id
    && (forall k :: !(WritesTo(a, k) && ReadsOrWrites(b, k)))
    && (forall k :: !(WritesTo(b, k) && ReadsOrWrites(a, k)))
  }

  /** b's database credentials are a Secret that a's pass generates or would adopt. */
  predicate CredentialsFrom(a: Pass, b: Pass) {
    && b.inst.spec.database.IsExternal()
    && a.id.ns == b.id.ns
    && (b.inst.spec.database.external.value.credentials == DerivedName(a.id.name, SecretKeyPart)
        || b.inst.spec.database.external.value.credentials == DerivedName(a.id.name, AdminPart))
  }

  lemma WriteMeetsRead(a: Pass, b: Pass, k: Key)
    requires a.id != b.id && WritesTo(a, k) && ReadsOrWrites(b, k)
    ensures WritesTo(b, k) || CredentialsFrom(a, b)
  {
    var i :| 0 <= i < Length(a.inst.spec) && !Plan(a.inst.spec, i).ExternalDbItem?
             && k == KeyOf(a.id, a.inst.spec, Plan(a.inst.spec, i));
    var j :| 0 <= j < Length(b.inst.spec) && k == KeyOf(b.id, b.inst.spec, Plan(b.inst.spec, j));
    if Plan(b.inst.spec, j).ExternalDbItem? {
      assert Plan(a.inst.spec, i).SecretItem?;
    }
  }

  lemma CredentialsMeet(a: Pass, b: Pass)
    requires CredentialsFrom(a, b)
    ensures var k := KeyOf(b.id, b.inst.spec, ExternalDbItem); WritesTo(a, k) && ReadsOrWrites(b, k)
  {
    assert Plan(a.inst.spec, 0) == SecretItem(Resources.SecretKey)
           && Plan(a.inst.spec, 1) == SecretItem(Resources.Admin);
    assert Plan(b.inst.spec, DATABASE_POS) == ExternalDbItem;
  }

  /** What two users must avoid for their instances not to interfere, exactly. */
  lemma IndependentIff(a: Pass, b: Pass)
    requires a.id != b.id
    ensures Independent(a, b) <==>
            !CacheTakesName(a, b) && !CacheTakesName(b, a) && !CredentialsFrom(a, b) && !CredentialsFrom(b, a)
  {
    if CredentialsFrom(a, b) {
      CredentialsMeet(a, b);
    }
    if CredentialsFrom(b, a) {
      CredentialsMeet(b, a);
    }
    if CacheTakesName(a, b) {
      SharedCacheKey(a, b);
      WritesAreRead(b, Key(DeploymentKind, b.id.ns, b.id.name));
    }
    if CacheTakesName(b, a) {
      SharedCacheKey(b, a);
      WritesAreRead(a, Key(DeploymentKind, a.id.ns, a.id.name));
    }
    if !CacheTakesName(a, b) && !CacheTakesName(b, a) && !CredentialsFrom(a, b) && !CredentialsFrom(b, a) {
      FootprintsCollideIff(a, b);
      forall k ensures !(WritesTo(a, k) && ReadsOrWrites(b, k)) && !(WritesTo(b, k) && ReadsOrWrites(a, k)) {
        if WritesTo(a, k) && ReadsOrWrites(b, k) {
          WriteMeetsRead(a, b, k);
        }
        if WritesTo(b, k) && ReadsOrWrites(a, k) {
          WriteMeetsRead(b, a, k);
        }
      }
    }
  }

  lemma ReconciledOutside(id: Id, s: State, script: Script, at: nat)
    requires Fresh(script) && id in s.insts
    ensures Outside(Subject(id, s), s, Reconciled(id, s, script, at).state)
  {
    ReconciledFresh(id, s, script, at);
    if GetInstance(s, id, script(at)).Got? {
      var b := Begin(id, s.insts[id], script(at).now);
      RestOutside(b, s, script, at + 1);
      OutsideTrans(Subject(id, s), b.pass, s, s, Rest(b, s, script, at + 1).state);
    }
  }

  lemma RestAgreesFor(subject: Pass, p: Proc, s: State, t: State, script: Script, at: nat)
    requires p.Working? && Agree(subject, s, t) && subject.id == p.pass.id && subject.inst.spec == p.pass.inst.spec
    ensures Rest(p, s, script, at).proc == Rest(p, t, script, at).proc
    ensures Agree(subject, Rest(p, s, script, at).state, Rest(p, t, script, at).state)
  {
    AgreeFor(subject, p.pass, s, t);
    RestAgrees(p, s, t, script, at);
    AgreeFor(p.pass, subject, Rest(p, s, script, at).state, Rest(p, t, script, at).state);
  }

  lemma StartingAgrees(id: Id, s: State, t: State, o: Oracle)
    requires (id in s.insts <==> id in t.insts) && (id in s.insts ==> s.insts[id] == t.insts[id])
    ensures GetInstance(s, id, o) == GetInstance(t, id, o)
    ensures Step(Starting(id), s, o).0 == Step(Starting(id), t, o).0
  {
  }

  lemma ReconciledAgrees(id: Id, s: State, t: State, script: Script, at: nat)
    requires Fresh(script) && id in s.insts && Agree(Subject(id, s), s, t)
    ensures Reconciled(id, s, script, at).proc == Reconciled(id, t, script, at).proc
    ensures Agree(Subject(id, s), Reconciled(id, s, script, at).state, Reconciled(id, t, script, at).state)
  {
    StartingAgrees(id, s, t, script(at));
    if GetInstance(s, id, script(at)).Got? {
      ReconciledFresh(id, s, script, at);
      ReconciledFresh(id, t, script, at);
      RestAgreesFor(Subject(id, s), Begin(id, s.insts[id], script(at).now), s, t, script, at + 1);
    } else {
      ReconciledFresh(id, s, script, at);
      ReconciledFresh(id, t, script, at);
    }
  }

  lemma AgreeAfterOther(a: Pass, b: Pass, s: State, s': State)
    requires Outside(a, s, s') && a.id != b.id
    requires forall k :: !(WritesTo(a, k) && ReadsOrWrites(b, k))
    ensures Agree(b, s, s')
  {
  }

  lemma WritesAreRead(pass: Pass, k: Key)
    requires WritesTo(pass, k)
    ensures ReadsOrWrites(pass, k)
  {
  }

  /** The passes of two independent instances commute: same final state, and each ends the same way in either order. */
  lemma PassesCommute(a: Id, b: Id, s: State, script: Script, at: nat, script': Script, at': nat)
    requires Fresh(script) && Fresh(script') && a in s.insts && b in s.insts
    requires Independent(Subject(a, s), Subject(b, s))
    ensures var first, second := Reconciled(a, s, script, at), Reconciled(b, s, script', at');
            var after, other := Reconciled(b, first.state, script', at'), Reconciled(a, second.state, script, at);
            && after.state == other.state
            && after.proc == second.proc
            && other.proc == first.proc
  {
    var pa, pb := Subject(a, s), Subject(b, s);
    var sa, sb := Reconciled(a, s, script, at).state, Reconciled(b, s, script', at').state;
    ReconciledOutside(a, s, script, at);
    ReconciledOutside(b, s, script', at');
    AgreeAfterOther(pa, pb, s, sa);
    AgreeAfterOther(pb, pa, s, sb);
    ReconciledAgrees(b, s, sa, script', at');
    ReconciledAgrees(a, s, sb, script, at);
    var sab, sba := Reconciled(b, sa, script', at').state, Reconciled(a, sb, script, at).state;
    ReconciledOutside(b, sa, script', at');
    ReconciledOutside(a, sb, script, at);
    OutsideFor(Subject(b, sa), pb, sa, sab);
    OutsideFor(Subject(a, sb), pa, sb, sba);
    Merge(pa, pb, s, sa, sb, sab, sba);
  }

  lemma OutsideFor(a: Pass, b: Pass, s: State, t: State)
    requires Outside(a, s, t) && a.id == b.id && a.inst.spec == b.inst.spec
    ensures Outside(b, s, t)
  {
    forall k | !WritesTo(b, k) ensures Find(t, k) == Find(s, k) {
      assert !WritesTo(a, k);
    }
  }

  lemma Merge(pa: Pass, pb: Pass, s: State, sa: State, sb: State, sab: State, sba: State)
    requires Independent(pa, pb)
    requires Outside(pa, s, sa) && Outside(pb, s, sb) && Outside(pb, sa, sab) && Outside(pa, sb, sba)
    requires Agree(pb, sb, sab) && Agree(pa, sa, sba)
    requires pa.id in s.insts && pb.id in s.insts
    ensures sab == sba
  {
    forall k ensures Find(sab, k) == Find(sba, k) {
      if WritesTo(pa, k) {
        WritesAreRead(pa, k);
        assert Find(sba, k) == Find(sa, k);
        assert !WritesTo(pb, k);
      } else if WritesTo(pb, k) {
        WritesAreRead(pb, k);
        assert Find(sab, k) == Find(sb, k);
      }
    }
    forall k ensures k in sab.objs <==> k in sba.objs {
      assert Find(sab, k) == Find(sba, k);
    }
    forall k | k in sab.objs ensures sab.objs[k] == sba.objs[k] {
      assert Find(sab, k) == Find(sba, k);
    }
    assert sab.objs == sba.objs;
    assert sab.insts.Keys == sba.insts.Keys;
    forall id | id in sab.insts ensures sab.insts[id] == sba.insts[id] {}
    assert sab.insts == sba.insts;
  }

  // ----- Routing -----

  /** An instance's Service reaches the pods of its own Deployment, and neither any other instance's nor a cache's. */
  lemma ServiceRoutesToOwnPods(a: Id, spec: Spec, b: Id, spec': Spec)
    ensures Resources.Routes(a.ns, ContentOf(a, spec, ServiceItem), b.ns, ContentOf(b, spec', DeploymentItem))
            <==> a == b
    ensures Resources.Routes(a.ns, ContentOf(a, spec, ValkeyServiceItem),
                             b.ns, ContentOf(b, spec', ValkeyDeploymentItem))
            <==> a == b
    ensures !Resources.Routes(a.ns, ContentOf(a, spec, ServiceItem), b.ns, ContentOf(b, spec', ValkeyDeploymentItem))
    ensures !Resources.Routes(a.ns, ContentOf(a, spec, ValkeyServiceItem), b.ns, ContentOf(b, spec', DeploymentItem))
  {
    assert |"server"| != |"cache"|;
  }
}
