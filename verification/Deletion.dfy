// What becomes of the objects when an instance is deleted: the promise of spec.deletionPolicy over whole runs.
module Deletion {
  import opened Base
  import opened Api
  import opened Names
  import opened OwnerReferences
  import opened Server
  import opened Protocol
  import opened Steps
  import opened Passes
  import Promises
  import opened World

  // ----- The seven objects the policy governs -----

  predicate Stateful(id: Id, k: Key) {
    || k == GeneratedKey(id, Resources.SecretKey)
    || k == GeneratedKey(id, Resources.Admin)
    || k == Key(PvcKind, id.ns, DerivedName(id.name, DataPart))
    || k == Key(PvcKind, id.ns, DerivedName(id.name, MediaPart))
    || k == Key(PvcKind, id.ns, DerivedName(id.name, ConsumePart))
    || k == Key(PvcKind, id.ns, DerivedName(id.name, ExportPart))
    || k == Key(ClusterKind, id.ns, DerivedName(id.name, DbPart))
  }

  /** Only a pass for this instance writes to them, and only as governed items. */
  lemma StatefulTarget(id: Id, p: Proc)
    requires p.Working? && !Plan(p.pass.inst.spec, p.pos).ExternalDbItem? && Stateful(id, Target(p))
    ensures p.pass.id == id && Promises.Governed(Plan(p.pass.inst.spec, p.pos))
  {
    var item := Plan(p.pass.inst.spec, p.pos);
    var name := p.pass.id.name;
    match item
    case SecretItem(g) =>
      var h := if Target(p) == GeneratedKey(id, Resources.SecretKey) then Resources.SecretKey else Resources.Admin;
      GeneratedKeyIs(id, h, p.pass.id, p.pass.inst.spec, p.pos);
    case PvcItem(part) =>
      var q :| Target(p).name == DerivedName(id.name, q);
      DerivedNameInjective(name, part, id.name, q);
    case ClusterItem =>
      DerivedNameInjective(name, DbPart, id.name, DbPart);
    case ValkeyPvcItem =>
      var q :| Target(p).name == DerivedName(id.name, q) && q != ValkeyPart;
      DerivedNameInjective(name, ValkeyPart, id.name, q);
    case _ =>
  }

  /** The owner references name some incarnation of the instance as the controller, and nothing else. */
  ghost predicate IncarnationRef(w: World, id: Id, refs: seq<OwnerReference>) {
    exists u :: u in w.born && w.born[u] == id && refs == [ControllerRef(id, u)]
  }

  ghost predicate OwnershipKnown(w: World, id: Id, obj: Object) {
    obj.others == [] && (obj.applied == [] || IncarnationRef(w, id, obj.applied))
  }

  ghost predicate StatefulInv(w: World, id: Id, k: Key) {
    k in w.state.objs ==> OwnershipKnown(w, id, w.state.objs[k])
  }

  /** The write leaves the object's owner references as they are. */
  predicate KeepsOwners(w: World, k: Key, obj: Object) {
    k in w.state.objs && obj.applied == w.state.objs[k].applied && obj.others == w.state.objs[k].others
  }

  /**
   * Whoever else writes to the object leaves its owner references alone, as an edit does, or brings
   * in one without any, as a restore does. Where the object is to be `owned`, a restore does not count.
   */
  predicate Harmless(w: World, e: Event, k: Key, owned: bool) {
    e.Put? && e.k == k ==> KeepsOwners(w, k, e.obj) || (!owned && e.obj.Owners() == [])
  }

  predicate Undisturbed(w: World, evs: seq<Event>, k: Key, owned: bool)
    requires Legal(w, evs)
    decreases |evs|
  {
    evs == [] || (Harmless(w, evs[0], k, owned) && Undisturbed(Next(w, evs[0]), evs[1..], k, owned))
  }

  lemma UnownedIsNothing(obj: Object)
    requires obj.Owners() == []
    ensures obj.applied == [] && obj.others == []
  {
    assert |obj.applied + obj.others| == 0;
  }

  lemma NextStateful(w: World, e: Event, id: Id, k: Key)
    requires Booked(w) && Enabled(w, e) && Stateful(id, k) && StatefulInv(w, id, k) && Harmless(w, e, k, false)
    ensures StatefulInv(Next(w, e), id, k)
  {
    var w' := Next(w, e);
    if k in w'.state.objs {
      if e.Request? {
        RequestStateful(w, e.pid, e.o, id, k);
      } else if e.Put? && e.k == k && e.obj.Owners() == [] {
        UnownedIsNothing(e.obj);
      } else {
        assert k in w.state.objs && OwnershipKnown(w, id, w.state.objs[k]);
        assert w'.state.objs[k].applied == w.state.objs[k].applied && w'.state.objs[k].others == w.state.objs[k].others;
        if w.state.objs[k].applied != [] {
          var u :| u in w.born && w.born[u] == id && w.state.objs[k].applied == [ControllerRef(id, u)];
          assert u in w'.born && w'.born[u] == id;
        }
      }
    }
  }

  lemma RequestStateful(w: World, pid: nat, o: Oracle, id: Id, k: Key)
    requires Booked(w) && Enabled(w, Request(pid, o)) && Stateful(id, k) && StatefulInv(w, id, k)
    requires k in Next(w, Request(pid, o)).state.objs
    ensures OwnershipKnown(Next(w, Request(pid, o)), id, Next(w, Request(pid, o)).state.objs[k])
  {
    StepWritesAt(w.procs[pid], w.state, o, k);
    if Find(Next(w, Request(pid, o)).state, k) != Find(w.state, k) {
      WrittenKnown(w, pid, o, id, k, Next(w, Request(pid, o)).state.objs[k]);
    } else {
      assert OwnershipKnown(w, id, w.state.objs[k]);
    }
  }

  lemma WrittenKnown(w: World, pid: nat, o: Oracle, id: Id, k: Key, after: Object)
    requires Booked(w) && pid in w.procs && Stateful(id, k) && StatefulInv(w, id, k)
    requires w.procs[pid].Working? && k == Target(w.procs[pid]) && Written(w.procs[pid], Find(w.state, k), after, o)
    ensures OwnershipKnown(w, id, after)
  {
    var p := w.procs[pid];
    StatefulTarget(id, p);
    assert ProcBooked(w, p);
    assert k in w.state.objs ==> OwnershipKnown(w, id, w.state.objs[k]);
    assert after.applied == [] || after.applied == [ControllerRef(id, p.pass.inst.uid)];
  }

  /** In every run the operator's own references are all there is on a governed object. */
  lemma {:induction false} ExecStateful(w: World, evs: seq<Event>, id: Id, k: Key, owned: bool)
    requires Booked(w) && Legal(w, evs) && Stateful(id, k) && StatefulInv(w, id, k) && Undisturbed(w, evs, k, owned)
    ensures StatefulInv(Exec(w, evs), id, k)
    decreases |evs|
  {
    if evs != [] {
      NextBooked(w, evs[0]);
      NextStateful(w, evs[0], id, k);
      ExecStateful(Next(w, evs[0]), evs[1..], id, k, owned);
    }
  }

  // ----- Passes under one policy settle what they acknowledge -----

  /** If the object is there, the operator owns it exactly when d says so. */
  predicate Settled(w: World, k: Key, d: bool) {
    k in w.state.objs ==> (w.state.objs[k].applied != []) == d
  }

  /** Every pass in flight for the instance has read incarnation u and the policy d. */
  ghost predicate UnderNow(w: World, id: Id, u: Uid, d: bool) {
    forall pid :: pid in w.procs && InFlight(w.procs[pid], id) ==>
      w.procs[pid].pass.inst.uid == u && (w.procs[pid].pass.inst.spec.deletionPolicy == Delete) == d
  }

  ghost predicate Under(w: World, evs: seq<Event>, id: Id, u: Uid, d: bool)
    requires Legal(w, evs)
    decreases |evs|
  {
    UnderNow(w, id, u, d) && (evs == [] || Under(Next(w, evs[0]), evs[1..], id, u, d))
  }

  /** Unowned, or owned by incarnation u. */
  predicate OwnedByAtMost(x: Object, id: Id, u: Uid) {
    x.applied == [] || x.applied == [ControllerRef(id, u)]
  }

  /** No incarnation but u owns the object. */
  predicate NoOtherIncarnation(w: World, id: Id, u: Uid, k: Key) {
    k in w.state.objs ==> OwnedByAtMost(w.state.objs[k], id, u)
  }

  /** The one case in which a pass looks at the reference before it decides: a Secret under Retain. */
  predicate Compared(k: Key, d: bool) {
    k.kind.SecretKind? && !d
  }

  /** Where the object is a Secret, it is read uncached. */
  predicate ReadLive(e: Event, k: Key) {
    k.kind.SecretKind? && e.Request? ==> !e.o.fault.StaleSecret?
  }

  predicate ReadsLive(evs: seq<Event>, k: Key) {
    forall i :: 0 <= i < |evs| ==> ReadLive(evs[i], k)
  }

  /** The process is past the governed item whose object this is. */
  ghost predicate Acknowledged(p: Proc, id: Id, k: Key) {
    && Current(p).Some? && Current(p).value.id == id
    && var spec := Current(p).value.inst.spec;
       exists j :: 0 <= j < Position(p) && j < Length(spec) && IsItem(id, spec, j, k)
  }

  predicate IsItem(id: Id, spec: Spec, j: nat, k: Key)
    requires j < Length(spec)
  {
    Promises.Governed(Plan(spec, j)) && KeyOf(id, spec, Plan(spec, j)) == k
  }

  /** `past` are processes that had finished before the policy was d. */
  ghost predicate AllSettled(w: World, id: Id, u: Uid, d: bool, past: set<nat>, k: Key) {
    && (forall pid :: pid in w.procs && pid !in past && Acknowledged(w.procs[pid], id, k) ==> Settled(w, k, d))
    && (Compared(k, d) ==> NoOtherIncarnation(w, id, u, k))
  }

  lemma NextSettled(w: World, e: Event, id: Id, u: Uid, d: bool, k: Key)
    requires Enabled(w, e) && Harmless(w, e, k, d) && UnderNow(w, id, u, d)
    requires Stateful(id, k) && Settled(w, k, d)
    ensures Settled(Next(w, e), k, d)
  {
    if e.Put? && e.k == k && e.obj.Owners() == [] {
      UnownedIsNothing(e.obj);
    }
    if e.Request? {
      var p := w.procs[e.pid];
      StepWritesAt(p, w.state, e.o, k);
      if k in Next(w, e).state.objs && Find(Next(w, e).state, k) != Find(w.state, k) {
        WrittenSettled(w, e.pid, e.o, id, u, d, Next(w, e).state.objs[k]);
      }
    }
  }

  /** A write to a governed object leaves exactly the reference the policy asks for. */
  lemma WrittenSettled(w: World, pid: nat, o: Oracle, id: Id, u: Uid, d: bool, after: Object)
    requires UnderNow(w, id, u, d) && pid in w.procs
    requires var p := w.procs[pid];
             p.Working? && Stateful(id, Target(p)) && Written(p, Find(w.state, Target(p)), after, o)
    ensures after.applied == if d then [ControllerRef(id, u)] else []
  {
    var p := w.procs[pid];
    StatefulTarget(id, p);
    assert InFlight(p, id);
  }

  /** A write to a governed object settles it. */
  lemma WriteSettles(w: World, pid: nat, o: Oracle, id: Id, u: Uid, d: bool, k: Key)
    requires Enabled(w, Request(pid, o)) && UnderNow(w, id, u, d) && Stateful(id, k)
    requires Find(Next(w, Request(pid, o)).state, k) != Find(w.state, k)
    ensures var w' := Next(w, Request(pid, o));
            && k in w'.state.objs
            && Settled(w', k, d)
            && OwnedByAtMost(w'.state.objs[k], id, u)
  {
    var p := w.procs[pid];
    StepWritesAt(p, w.state, o, k);
    WrittenSettled(w, pid, o, id, u, d, Next(w, Request(pid, o)).state.objs[k]);
  }

  /** An acknowledged governed item is settled. */
  lemma AcknowledgedSettles(w: World, pid: nat, o: Oracle, id: Id, u: Uid, d: bool, k: Key)
    requires Booked(w) && Enabled(w, Request(pid, o)) && UnderNow(w, id, u, d)
    requires Stateful(id, k) && StatefulInv(w, id, k)
    requires Compared(k, d) ==> NoOtherIncarnation(w, id, u, k)
    requires ReadLive(Request(pid, o), k)
    requires var p := w.procs[pid];
             && p.Working? && p.pass.id == id && IsItem(id, p.pass.inst.spec, p.pos, k)
             && Position(Step(p, w.state, o).0) > p.pos
    ensures Settled(Next(w, Request(pid, o)), k, d)
  {
    var p := w.procs[pid];
    assert InFlight(p, id);
    if Find(Next(w, Request(pid, o)).state, k) != Find(w.state, k) {
      WriteSettles(w, pid, o, id, u, d, k);
    } else if Plan(p.pass.inst.spec, p.pos).SecretItem? {
      SecretMovesOn(p, w.state, o);
      if k in w.state.objs {
        assert OwnershipKnown(w, id, w.state.objs[k]);
        UnwrittenSecretSettled(w.state.objs[k], w, id, u, d);
      }
    } else {
      AppliedSettled(p, w.state, o);
    }
  }

  lemma UnwrittenSecretSettled(x: Object, w: World, id: Id, u: Uid, d: bool)
    requires OwnershipKnown(w, id, x) && ControlledBy(x, u) == d
    requires !d ==> OwnedByAtMost(x, id, u)
    ensures (x.applied != []) == d
  {
    if x.applied == [ControllerRef(id, u)] {
      ControlledByOperator(x, id, u, u);
    }
    if x.applied == [] {
      assert x.Owners() == [];
    }
  }

  lemma AppliedSettled(p: Proc, s: State, o: Oracle)
    requires p.Working? && !Plan(p.pass.inst.spec, p.pos).SecretItem?
             && Promises.Governed(Plan(p.pass.inst.spec, p.pos))
    requires Position(Step(p, s, o).0) > p.pos
    ensures Target(p) in Step(p, s, o).1.objs
    ensures (Step(p, s, o).1.objs[Target(p)].applied != []) == (p.pass.inst.spec.deletionPolicy == Delete)
  {
    if p.pos == DATABASE_POS && p.sub.First? {
      CrdWaits(p, s, o);
    } else {
      ApplyIsStep(p, s, o);
      AppliedOwners(p, s, o);
    }
  }

  /** An apply that is acknowledged leaves exactly the references it stated. */
  lemma AppliedOwners(p: Proc, s: State, o: Oracle)
    requires p.Working? && !Plan(p.pass.inst.spec, p.pos).SecretItem?
             && Promises.Governed(Plan(p.pass.inst.spec, p.pos))
    ensures var r := ApplyItem(p.pass, p.pos, s, o);
            r.1.Got? ==>
              && Target(p) in r.0.objs
              && (r.0.objs[Target(p)].applied != []) == (p.pass.inst.spec.deletionPolicy == Delete)
    ensures ApplyItem(p.pass, p.pos, s, o).1.Got? <==>
            Position(AfterApply(p.pass, p.pos, ApplyItem(p.pass, p.pos, s, o).1, o)) > p.pos
  {
  }

  lemma NextAllSettled(w: World, e: Event, id: Id, u: Uid, d: bool, past: set<nat>, k: Key)
    requires Booked(w) && Enabled(w, e) && Stateful(id, k) && StatefulInv(w, id, k) && UnderNow(w, id, u, d)
    requires Harmless(w, e, k, d) && ReadLive(e, k)
    requires AllSettled(w, id, u, d, past, k)
    ensures AllSettled(Next(w, e), id, u, d, past, k)
  {
    var w' := Next(w, e);
    forall pid | pid in w'.procs && pid !in past && Acknowledged(w'.procs[pid], id, k) ensures Settled(w', k, d) {
      ItemSettled(w, e, id, u, d, past, pid, k);
    }
    if Compared(k, d) {
      NextOwner(w, e, id, u, d, k);
    }
  }

  lemma NextOwner(w: World, e: Event, id: Id, u: Uid, d: bool, k: Key)
    requires Enabled(w, e) && UnderNow(w, id, u, d) && Stateful(id, k)
    requires Harmless(w, e, k, false) && NoOtherIncarnation(w, id, u, k)
    ensures NoOtherIncarnation(Next(w, e), id, u, k)
  {
    var w' := Next(w, e);
    if e.Request? {
      if Find(w'.state, k) != Find(w.state, k) {
        WriteSettles(w, e.pid, e.o, id, u, d, k);
      }
    } else if e.Put? && e.k == k && e.obj.Owners() == [] {
      UnownedIsNothing(e.obj);
    } else {
      assert k in w'.state.objs ==> k in w.state.objs && w'.state.objs[k].applied == w.state.objs[k].applied;
    }
  }

  lemma ItemSettled(w: World, e: Event, id: Id, u: Uid, d: bool, past: set<nat>, pid: nat, k: Key)
    requires Booked(w) && Enabled(w, e) && Stateful(id, k) && StatefulInv(w, id, k) && UnderNow(w, id, u, d)
    requires Harmless(w, e, k, d) && ReadLive(e, k)
    requires AllSettled(w, id, u, d, past, k) && pid in Next(w, e).procs && pid !in past
    requires Acknowledged(Next(w, e).procs[pid], id, k)
    ensures Settled(Next(w, e), k, d)
  {
    if e.Request? && e.pid == pid {
      OwnItemSettled(w, pid, e.o, id, u, d, past, k);
    } else {
      NextSettled(w, e, id, u, d, k);
    }
  }

  lemma OwnItemSettled(w: World, pid: nat, o: Oracle, id: Id, u: Uid, d: bool, past: set<nat>, k: Key)
    requires Booked(w) && Enabled(w, Request(pid, o)) && UnderNow(w, id, u, d)
    requires Stateful(id, k) && StatefulInv(w, id, k) && Harmless(w, Request(pid, o), k, d)
    requires ReadLive(Request(pid, o), k) && AllSettled(w, id, u, d, past, k) && pid !in past
    requires Acknowledged(Step(w.procs[pid], w.state, o).0, id, k)
    ensures Settled(Next(w, Request(pid, o)), k, d)
  {
    AcknowledgedBefore(w.procs[pid], w.state, o, id, k);
    if Acknowledged(w.procs[pid], id, k) {
      NextSettled(w, Request(pid, o), id, u, d, k);
    } else {
      AcknowledgedSettles(w, pid, o, id, u, d, k);
    }
  }

  /** What a process has acknowledged after a request it had before, or it is the item it was at. */
  lemma AcknowledgedBefore(p: Proc, s: State, o: Oracle, id: Id, k: Key)
    requires Acknowledged(Step(p, s, o).0, id, k)
    ensures || Acknowledged(p, id, k)
            || (p.Working? && p.pass.id == id && IsItem(id, p.pass.inst.spec, p.pos, k)
                && Position(Step(p, s, o).0) > p.pos)
  {
    var p' := Step(p, s, o).0;
    ProcKeepsSubject(p, s, o);
    var spec := Current(p').value.inst.spec;
    var j :| 0 <= j < Position(p') && j < Length(spec) && IsItem(id, spec, j, k);
    if j < Position(p) {
      assert Acknowledged(p, id, k);
    }
  }

  /** A request moves a pass on by at most one item, and only a working pass moves. */
  lemma ProcKeepsSubject(p: Proc, s: State, o: Oracle)
    ensures var p' := Step(p, s, o).0;
            && (Current(p').Some? ==> Position(p') <= Position(p) + 1)
            && (Current(p').Some? && Position(p') > Position(p) ==> p.Working?)
            && (Current(p).Some? ==> Current(p').Some? && SameRun(Current(p').value, Current(p).value))
            && (Current(p').Some? && Current(p).None? ==> Position(p') == 0)
  {
    if p.Working? {
      StepGoes(p, s, o);
    }
  }

  lemma {:induction false} ExecSettled(w: World, evs: seq<Event>, id: Id, u: Uid, d: bool, past: set<nat>, k: Key)
    requires Booked(w) && Legal(w, evs) && Stateful(id, k) && StatefulInv(w, id, k)
    requires AllSettled(w, id, u, d, past, k)
    requires Undisturbed(w, evs, k, d) && ReadsLive(evs, k) && Under(w, evs, id, u, d)
    ensures AllSettled(Exec(w, evs), id, u, d, past, k)
    decreases |evs|
  {
    if evs != [] {
      NextBooked(w, evs[0]);
      NextStateful(w, evs[0], id, k);
      NextAllSettled(w, evs[0], id, u, d, past, k);
      assert ReadLive(evs[0], k) && ReadsLive(evs[1..], k);
      ExecSettled(Next(w, evs[0]), evs[1..], id, u, d, past, k);
    }
  }
}
