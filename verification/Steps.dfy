// What a single request of a pass can do to the server's objects, whatever its outcome.
module Steps {
  import opened Base
  import opened Api
  import opened Names
  import opened Resources
  import opened Server
  import opened Protocol

  /** The item has what this instance's spec asks for. */
  predicate AtGoal(id: Id, uid: Uid, spec: Spec, item: Item, x: Option<Object>) {
    match item
    case SecretItem(g) => if x.None? then !Generates(g, spec) else ControlledBy(x.value, uid) == spec.Deletes()
    case ExternalDbItem => x.Some? && HasCredentials(x.value)
    case _ =>
      && x.Some?
      && x.value.applied == OwnersFor(id, uid, spec, item)
      && x.value.content == ContentOf(id, spec, item)
      && OneController(x.value.Owners())
  }

  /** What survives every request: identity, status, a Secret's data, and what others wrote on applied objects. */
  predicate Kept(k: Key, before: Object, after: Object) {
    && after.uid == before.uid
    && after.readyReplicas == before.readyReplicas
    && (k.kind.SecretKind? ==> after.content == before.content)
    && (!k.kind.SecretKind? ==> after.others == before.others)
  }

  /** What this request may write to, if it writes at all. */
  function Target(p: Proc): Key
    requires p.Working?
  {
    KeyOf(p.pass.id, p.pass.inst.spec, Plan(p.pass.inst.spec, p.pos))
  }

  /** The object a request leaves at its target when it writes. */
  ghost predicate Written(p: Proc, before: Option<Object>, after: Object, o: Oracle)
    requires p.Working?
  {
    var id, uid, spec := p.pass.id, p.pass.inst.uid, p.pass.inst.spec;
    var item := Plan(spec, p.pos);
    var refs := OwnersFor(id, uid, spec, item);
    match item
    case SecretItem(g) =>
      || (p.sub.ToCreate? && before.None? && after == Object(o.uid, refs, [], SecretWith(g, id, spec, p.sub.value), 0))
      || (p.sub.ToPatch? && before.Some? && after == before.value.(applied := refs, others := []))
    case ExternalDbItem => false
    case _ => after == Applied(before, ContentOf(id, spec, item), refs, o.uid) && OneController(refs + Others(before))
  }

  /** A request changes at most the object of its own item, and only in the ways above. */
  ghost predicate WritesOnly(p: Proc, s: State, s': State, o: Oracle) {
    && s'.live == s.live
    && (|| s'.objs == s.objs
        || (p.Working? && Target(p) in s'.objs
            && s'.objs == s.objs[Target(p) := s'.objs[Target(p)]]
            && Written(p, Find(s, Target(p)), s'.objs[Target(p)], o)))
  }

  lemma SecretWrites(p: Proc, s: State, o: Oracle)
    requires p.Working? && Plan(p.pass.inst.spec, p.pos).SecretItem?
    ensures WritesOnly(p, s, StepSecret(p.pass, p.pos, p.sub, s, o).1, o)
  {
  }

  lemma ApplyWrites(p: Proc, s: State, o: Oracle)
    requires p.Working? && !Plan(p.pass.inst.spec, p.pos).SecretItem? && !Plan(p.pass.inst.spec, p.pos).ExternalDbItem?
    ensures WritesOnly(p, s, ApplyItem(p.pass, p.pos, s, o).0, o)
  {
  }

  lemma DatabaseReadWritesNothing(p: Proc, s: State, o: Oracle)
    requires p.Working? && p.pos == DATABASE_POS && p.sub.First?
    ensures Step(p, s, o).1 == s
  {
  }

  lemma StepWrites(p: Proc, s: State, o: Oracle)
    ensures WritesOnly(p, s, Step(p, s, o).1, o)
  {
    if p.Working? {
      if Plan(p.pass.inst.spec, p.pos).SecretItem? {
        SecretWrites(p, s, o);
      } else if p.pos == DATABASE_POS && p.sub.First? {
        DatabaseReadWritesNothing(p, s, o);
      } else {
        ApplyWrites(p, s, o);
      }
    }
  }

  /** The same, seen from one object. */
  lemma StepWritesAt(p: Proc, s: State, o: Oracle, k: Key)
    ensures var before, after := Find(s, k), Find(Step(p, s, o).1, k);
            after == before || (p.Working? && k == Target(p) && after.Some? && Written(p, before, after.value, o))
  {
    StepWrites(p, s, o);
  }

  lemma ControlledByOperator(obj: Object, id: Id, uid: Uid, u: Uid)
    requires obj.applied == [ControllerRef(id, uid)]
    ensures ControlledBy(obj, u) <==> u == uid
  {
    assert obj.Owners()[0] == ControllerRef(id, uid);
  }

  lemma WrittenAtGoal(p: Proc, before: Option<Object>, after: Object, o: Oracle)
    requires p.Working? && Written(p, before, after, o)
    ensures AtGoal(p.pass.id, p.pass.inst.uid, p.pass.inst.spec, Plan(p.pass.inst.spec, p.pos), Some(after))
    ensures before.Some? ==> Kept(Target(p), before.value, after)
  {
    if Plan(p.pass.inst.spec, p.pos).SecretItem? && p.pass.inst.spec.Deletes() {
      ControlledByOperator(after, p.pass.id, p.pass.inst.uid, p.pass.inst.uid);
    }
  }

  /** No request removes an object, replaces it by another, or touches what is not the operator's. */
  lemma StepKeeps(p: Proc, s: State, o: Oracle, k: Key)
    requires k in s.objs
    ensures k in Step(p, s, o).1.objs && Kept(k, s.objs[k], Step(p, s, o).1.objs[k])
  {
    StepWrites(p, s, o);
    var s' := Step(p, s, o).1;
    if s'.objs != s.objs && k == Target(p) {
      WrittenAtGoal(p, Find(s, k), s'.objs[k], o);
    }
  }

  /** A pass touches no instance but its own, and of that only the status. */
  lemma StepInstances(p: Proc, s: State, o: Oracle, id: Id)
    ensures var s' := Step(p, s, o).1;
            && s'.insts.Keys == s.insts.Keys
            && (id in s.insts ==> s'.insts[id] == s.insts[id].(status := s'.insts[id].status))
            && (id in s.insts && s'.insts[id] != s.insts[id] ==> p.Finishing? && p.pass.id == id)
  {
  }

  /** Two items never write to the same object, and none writes to the credentials an earlier one read. */
  lemma PlanKeysDistinct(id: Id, spec: Spec, i: nat, j: nat)
    requires i < j < Length(spec) && !Plan(spec, j).ExternalDbItem?
    ensures KeyOf(id, spec, Plan(spec, i)) != KeyOf(id, spec, Plan(spec, j))
  {
    var a, b := Plan(spec, i), Plan(spec, j);
    if a.PvcItem? && b.PvcItem? && DerivedName(id.name, a.part) == DerivedName(id.name, b.part) {
      DerivedNameInjective(id.name, a.part, id.name, b.part);
    }
    if a.PvcItem? && b.ValkeyPvcItem? && DerivedName(id.name, a.part) == DerivedName(id.name, ValkeyPart) {
      DerivedNameInjective(id.name, a.part, id.name, ValkeyPart);
    }
    if a.SecretItem? && b.SecretItem? && DerivedName(id.name, PartOf(a.g)) == DerivedName(id.name, PartOf(b.g)) {
      DerivedNameInjective(id.name, PartOf(a.g), id.name, PartOf(b.g));
    }
    assert |DerivedName(id.name, ValkeyPart)| > |id.name|;
  }

  function GeneratedKey(id: Id, g: Generated): Key {
    Key(SecretKind, id.ns, DerivedName(id.name, PartOf(g)))
  }

  lemma GeneratedKeyIs(a: Id, g: Generated, b: Id, spec: Spec, i: nat)
    requires i < Length(spec) && !Plan(spec, i).ExternalDbItem? && GeneratedKey(a, g) == KeyOf(b, spec, Plan(spec, i))
    ensures a == b && Plan(spec, i) == SecretItem(g)
  {
    var item := Plan(spec, i);
    DerivedNameInjective(a.name, PartOf(g), b.name, PartOf(item.g));
  }

  // ----- Where a request can take a pass -----

  ghost predicate Stays(pass: Pass, pos: nat, p': Proc) {
    && p'.Working?
    && p'.pass == pass
    && (p'.pos == pos || (p'.pos == pos + 1 && pos != DATABASE_POS))
  }

  ghost predicate Fails(pass: Pass, pos: nat, p': Proc, now: int)
    requires pos < Length(pass.inst.spec)
  {
    exists message :: p' == Fail(pass, pos, message, now)
  }

  ghost predicate Stops(pass: Pass, pos: nat, p': Proc, now: int) {
    && pos == DATABASE_POS
    && exists reason, message :: p' == NotUsable(pass, pos, reason, message, now)
  }

  ghost predicate Concludes(pass: Pass, pos: nat, p': Proc, now: int) {
    && pos + 1 == Length(pass.inst.spec)
    && exists n :: p' == Report(pass, pos, n, now)
  }

  ghost predicate Goes(pass: Pass, pos: nat, p': Proc, now: int)
    requires pos < Length(pass.inst.spec)
  {
    || Stays(pass, pos, p')
    || Fails(pass, pos, p', now)
    || Stops(pass, pos, p', now)
    || (pos == DATABASE_POS && p' == Usable(pass, pos, now))
    || Concludes(pass, pos, p', now)
  }

  lemma SecretGoes(pass: Pass, pos: nat, sub: Sub, s: State, o: Oracle)
    requires Fits(Working(pass, pos, sub)) && Plan(pass.inst.spec, pos).SecretItem?
    ensures Goes(pass, pos, StepSecret(pass, pos, sub, s, o).0, o.now)
  {
    var p' := StepSecret(pass, pos, sub, s, o).0;
    if p'.Finishing? {
      assert p' == Fail(pass, pos, p'.result.error.value, o.now);
    }
  }

  lemma CredentialsGo(pass: Pass, pos: nat, reply: Reply<Object>, o: Oracle)
    requires pos == DATABASE_POS
    ensures Goes(pass, pos, AfterCredentials(pass, pos, reply, o), o.now)
  {
    var p' := AfterCredentials(pass, pos, reply, o);
    match reply
    case Failed(_) => assert Fails(pass, pos, p', o.now);
    case Absent => assert Stops(pass, pos, p', o.now);
    case Got(obj) => assert HasCredentials(obj) || Stops(pass, pos, p', o.now);
  }

  lemma CrdGoes(pass: Pass, pos: nat, s: State, o: Oracle)
    requires Fits(Working(pass, pos, First)) && Plan(pass.inst.spec, pos).ClusterItem?
    ensures Goes(pass, pos, StepFindCrd(pass, pos, s, o).0, o.now)
  {
    var p' := StepFindCrd(pass, pos, s, o).0;
    match GetObject(s, CRD_KEY, o)
    case Failed(_) => assert Fails(pass, pos, p', o.now);
    case Absent => assert Stops(pass, pos, p', o.now);
    case Got(_) =>
      if ValidName(DerivedName(pass.id.name, DbPart)) {
        assert Stays(pass, pos, p');
      } else {
        assert Fails(pass, pos, p', o.now);
      }
  }

  lemma ApplyIsStep(p: Proc, s: State, o: Oracle)
    requires p.Working? && !Plan(p.pass.inst.spec, p.pos).SecretItem? && !Plan(p.pass.inst.spec, p.pos).ExternalDbItem?
    requires p.pos == DATABASE_POS ==> !p.sub.First?
    ensures var r := ApplyItem(p.pass, p.pos, s, o); Step(p, s, o) == (AfterApply(p.pass, p.pos, r.1, o), r.0)
  {
  }

  lemma ApplyGoes(pass: Pass, pos: nat, reply: Reply<Object>, o: Oracle)
    requires pos < Length(pass.inst.spec)
    requires !Plan(pass.inst.spec, pos).SecretItem? && !Plan(pass.inst.spec, pos).ExternalDbItem?
    ensures Goes(pass, pos, AfterApply(pass, pos, reply, o), o.now)
  {
  }

  lemma StepGoes(p: Proc, s: State, o: Oracle)
    requires p.Working?
    ensures Goes(p.pass, p.pos, Step(p, s, o).0, o.now)
  {
    var item := Plan(p.pass.inst.spec, p.pos);
    if item.SecretItem? {
      SecretGoes(p.pass, p.pos, p.sub, s, o);
    } else if item.ExternalDbItem? {
      CredentialsGo(p.pass, p.pos, GetObject(s, Target(p), o), o);
    } else if item.ClusterItem? && p.sub.First? {
      CrdGoes(p.pass, p.pos, s, o);
    } else {
      ApplyGoes(p.pass, p.pos, ApplyItem(p.pass, p.pos, s, o).1, o);
      assert Step(p, s, o).0 == AfterApply(p.pass, p.pos, ApplyItem(p.pass, p.pos, s, o).1, o);
    }
  }
}
