// Deleting an instance and collecting garbage: what survives, what goes, and what a new instance of
// the same name finds.
module Survival {
  import opened Base
  import opened Api
  import opened Names
  import opened Server
  import opened Protocol
  import opened Steps
  import opened Passes
  import opened Promises
  import opened Convergence
  import opened World
  import opened Deletion

  function Deleted(s: State, id: Id): State {
    s.(insts := s.insts - {id})
  }

  // ----- Garbage collection, one object at a time -----

  predicate SweepLegal(s: State, ks: seq<Key>)
    decreases |ks|
  {
    ks == [] || (Collectable(s, ks[0]) && SweepLegal(Server.Collect(s, ks[0]), ks[1..]))
  }

  function Sweep(s: State, ks: seq<Key>): State
    requires SweepLegal(s, ks)
    decreases |ks|
  {
    if ks == [] then s else Sweep(Server.Collect(s, ks[0]), ks[1..])
  }

  /** Nothing is left to collect. */
  ghost predicate Swept(s: State) {
    forall k :: !Collectable(s, k)
  }

  /** Only objects go, and no object without owners does. */
  lemma {:induction false} SweepKeeps(s: State, ks: seq<Key>)
    requires SweepLegal(s, ks)
    ensures var t := Sweep(s, ks);
            && t.insts == s.insts && t.live == s.live
            && (forall k :: k in t.objs ==> k in s.objs && t.objs[k] == s.objs[k])
            && (forall k :: k in s.objs && s.objs[k].Owners() == [] ==> k in t.objs)
    decreases |ks|
  {
    if ks != [] {
      SweepKeeps(Server.Collect(s, ks[0]), ks[1..]);
    }
  }

  // ----- The governed objects -----

  /** The owner is an incarnation of the deleted instance, so it is nowhere to be found. */
  lemma IncarnationIsDead(w: World, id: Id, u: Uid, ks: seq<Key>)
    requires Booked(w) && u in w.born && w.born[u] == id
    requires SweepLegal(Deleted(w.state, id), ks)
    ensures u !in LiveUids(Sweep(Deleted(w.state, id), ks))
  {
    SweepKeeps(Deleted(w.state, id), ks);
  }

  lemma OwnedGoes(w: World, id: Id, k: Key, ks: seq<Key>)
    requires Booked(w) && StatefulInv(w, id, k) && k in w.state.objs && w.state.objs[k].applied != []
    requires SweepLegal(Deleted(w.state, id), ks) && Swept(Sweep(Deleted(w.state, id), ks))
    ensures k !in Sweep(Deleted(w.state, id), ks).objs
  {
    var t := Sweep(Deleted(w.state, id), ks);
    SweepKeeps(Deleted(w.state, id), ks);
    assert OwnershipKnown(w, id, w.state.objs[k]);
    var u :| u in w.born && w.born[u] == id && w.state.objs[k].applied == [ControllerRef(id, u)];
    IncarnationIsDead(w, id, u, ks);
    if k in t.objs {
      assert t.objs[k].Owners() == [ControllerRef(id, u)];
      assert Collectable(t, k);
    }
  }

  /**
   * A stretch of a run in which the passes for the instance read incarnation u and the policy d,
   * interleaved with anything else, and pass `pid` of them gets past the managed database; the
   * object k is one it covers. None of the instance's passes is under way when it begins, but any
   * number of other instances' may be.
   */
  ghost predicate Stretch(w: World, evs: seq<Event>, id: Id, u: Uid, d: bool, pid: nat, k: Key) {
    && (forall q :: q in w.procs ==> !InFlight(w.procs[q], id))
    && Legal(w, evs) && Undisturbed(w, evs, k, d) && ReadsLive(evs, k) && Under(w, evs, id, u, d)
    && pid !in Past(w)
    && GetsPast(Exec(w, evs), id, pid)
    && Covered(id, k, ReadExternal(Exec(w, evs), pid))
  }

  /** The processes that have finished. */
  function Past(w: World): set<nat> {
    set q | q in w.procs && w.procs[q].Finished?
  }

  /** The process is past the database in its pass for the instance. */
  predicate GetsPast(w: World, id: Id, pid: nat) {
    && pid in w.procs && Current(w.procs[pid]).Some?
    && Current(w.procs[pid]).value.id == id
    && Position(w.procs[pid]) > DATABASE_POS
  }

  /** The governed objects of a pass with this database: with an external one the Cluster is not among them. */
  predicate Covered(id: Id, k: Key, external: bool) {
    Stateful(id, k) && (k.kind.ClusterKind? ==> !external)
  }

  /** The database the process has read for its instance is an external one. */
  predicate ReadExternal(w: World, pid: nat)
    requires pid in w.procs && Current(w.procs[pid]).Some?
  {
    Current(w.procs[pid]).value.inst.spec.database.IsExternal()
  }

  /**
   * Such a stretch after any history, at the end of which the object is there. A Secret under Retain
   * may carry no other incarnation's reference at the start of the stretch.
   */
  ghost predicate Governs(history: seq<Event>, evs: seq<Event>, id: Id, u: Uid, d: bool, pid: nat, k: Key) {
    && Legal(EMPTY, history) && Undisturbed(EMPTY, history, k, false)
    && (Compared(k, d) ==> NoOtherIncarnation(Exec(EMPTY, history), id, u, k))
    && Stretch(Exec(EMPTY, history), evs, id, u, d, pid, k)
    && k in Exec(Exec(EMPTY, history), evs).state.objs
  }

  lemma StretchSettles(w: World, evs: seq<Event>, id: Id, u: Uid, d: bool, pid: nat, k: Key)
    requires Booked(w) && StatefulInv(w, id, k) && (Compared(k, d) ==> NoOtherIncarnation(w, id, u, k))
    requires Stretch(w, evs, id, u, d, pid, k)
    ensures Booked(Exec(w, evs)) && StatefulInv(Exec(w, evs), id, k) && Settled(Exec(w, evs), k, d)
  {
    ExecBooked(w, evs);
    ExecStateful(w, evs, id, k, d);
    NothingAcknowledged(w, id, u, d, k);
    ExecSettled(w, evs, id, u, d, Past(w), k);
    StatefulIsAcknowledged(Exec(w, evs), id, pid, k);
  }

  lemma NothingAcknowledged(w: World, id: Id, u: Uid, d: bool, k: Key)
    requires forall q :: q in w.procs ==> !InFlight(w.procs[q], id)
    requires Compared(k, d) ==> NoOtherIncarnation(w, id, u, k)
    ensures AllSettled(w, id, u, d, Past(w), k)
  {
  }

  lemma GovernedSettles(history: seq<Event>, evs: seq<Event>, id: Id, u: Uid, d: bool, pid: nat, k: Key)
    requires Governs(history, evs, id, u, d, pid, k)
    ensures var w := Exec(Exec(EMPTY, history), evs); Booked(w) && StatefulInv(w, id, k) && Settled(w, k, d)
  {
    EmptyBooked();
    ExecBooked(EMPTY, history);
    ExecStateful(EMPTY, history, id, k, false);
    StretchSettles(Exec(EMPTY, history), evs, id, u, d, pid, k);
  }

  /**
   * The promise of spec.deletionPolicy. After any history and any stretch under one policy: when the
   * instance is deleted and garbage is collected, an object the stretch governs survives untouched
   * under Retain, and does not survive under Delete. With an external database these are the claims
   * and the Secrets; a Cluster left by an earlier managed one keeps the ownership it had (see
   * FrozenClusterIsCollected).
   */
  lemma PolicyDecidesSurvival(
    history: seq<Event>, evs: seq<Event>, id: Id, u: Uid, d: bool, pid: nat, ks: seq<Key>, k: Key)
    requires Governs(history, evs, id, u, d, pid, k)
    requires var w := Exec(Exec(EMPTY, history), evs);
             SweepLegal(Deleted(w.state, id), ks) && Swept(Sweep(Deleted(w.state, id), ks))
    ensures var w := Exec(Exec(EMPTY, history), evs);
            var t := Sweep(Deleted(w.state, id), ks);
            if d then k !in t.objs else k in t.objs && t.objs[k] == w.state.objs[k]
  {
    var w := Exec(Exec(EMPTY, history), evs);
    GovernedSettles(history, evs, id, u, d, pid, k);
    SweepKeeps(Deleted(w.state, id), ks);
    if d {
      OwnedGoes(w, id, k, ks);
    } else {
      SettledIsUnowned(w, id, k);
    }
  }

  lemma SettledIsUnowned(w: World, id: Id, k: Key)
    requires StatefulInv(w, id, k) && Settled(w, k, false)
    ensures Unowned(w, k)
  {
    assert k in w.state.objs ==> OwnershipKnown(w, id, w.state.objs[k]);
  }

  /** A pass past the database has acknowledged all it covers. */
  lemma StatefulIsAcknowledged(w: World, id: Id, pid: nat, k: Key)
    requires GetsPast(w, id, pid) && Covered(id, k, ReadExternal(w, pid))
    ensures Acknowledged(w.procs[pid], id, k)
  {
    assert IsItem(id, Current(w.procs[pid]).value.inst.spec, StatefulPosition(id, k), k);
  }

  /** Where in every plan with a managed database the object comes. */
  function StatefulPosition(id: Id, k: Key): nat
    requires Stateful(id, k)
  {
    if k == GeneratedKey(id, Resources.SecretKey) then 0
    else if k == GeneratedKey(id, Resources.Admin) then 1
    else if k.kind.ClusterKind? then DATABASE_POS
    else if k.name == DerivedName(id.name, DataPart) then 2
    else if k.name == DerivedName(id.name, MediaPart) then 3
    else if k.name == DerivedName(id.name, ConsumePart) then 4
    else 5
  }

  // ----- A Secret of a dead incarnation -----

  /**
   * Exactly when a pass under Retain frees a Secret it finds: when the Secret has no owners already,
   * or this very incarnation controls it. A reference left by an earlier incarnation stays, so such
   * a Secret is still collected with it.
   */
  lemma RetainFreesSecretIff(id: Id, s: State, script: Script, at: nat, n: nat, g: Resources.Generated)
    requires Honest(script) && Fresh(script) && id in s.insts && s.insts[id].spec.deletionPolicy != Delete
    requires GeneratedKey(id, g) in s.objs
    requires var p := Run(id, s, script, at, n).proc; Current(p).Some? && Position(p) > DATABASE_POS
    ensures var k := GeneratedKey(id, g);
            var t := Run(id, s, script, at, n).state;
            && k in t.objs
            && (t.objs[k].Owners() == [] <==> s.objs[k].Owners() == [] || ControlledBy(s.objs[k], s.insts[id].uid))
  {
    var k := GeneratedKey(id, g);
    var c := Run(id, s, script, at, n);
    var j := if g == Resources.SecretKey then 0 else 1;
    AllBetweenSelf(Subject(id, s), s);
    TryBetween(id, s, s, script, at, n);
    RunKnown(id, s, script, at, n, 0);
    RunSubject(id, s, script, at, n);
    assert Plan(s.insts[id].spec, j) == SecretItem(g);
    assert Between(Subject(id, s), j, s, c.state);
    assert Done(Current(c.proc).value, j, c.state);
  }

  /** Nothing bears the UID, except perhaps a spared instance. */
  predicate Unused(s: State, spared: set<Id>, u: Uid) {
    && u !in s.live
    && (forall id :: id in s.insts && id !in spared ==> s.insts[id].uid != u)
    && (forall k :: k in s.objs ==> s.objs[k].uid != u)
  }

  lemma UnusedIsDead(s: State, id: Id, u: Uid)
    ensures Unused(s, {}, u) <==> u !in LiveUids(s)
    ensures Unused(s, {id}, u) <==> u !in LiveUids(Deleted(s, id))
  {
    var t := Deleted(s, id);
    assert forall i :: i in t.insts ==> t.insts[i] == s.insts[i];
    assert t.objs == s.objs && t.live == s.live;
  }

  /** A UID that nothing bears comes back only if the server gives it out again. */
  lemma StepLeavesUnused(p: Proc, s: State, o: Oracle, spared: set<Id>, u: Uid)
    requires o.uid != u && Unused(s, spared, u)
    ensures Unused(Step(p, s, o).1, spared, u)
  {
    var s' := Step(p, s, o).1;
    StepWrites(p, s, o);
    forall k | k in s'.objs ensures s'.objs[k].uid != u {
      StepUids(p, s, o, k);
    }
    forall id | id in s'.insts && id !in spared ensures s'.insts[id].uid != u {
      StepInstances(p, s, o, id);
    }
  }

  lemma {:induction false} CutLeavesUnused(
    p: Proc, s: State, script: Script, at: nat, n: nat, spared: set<Id>, u: Uid)
    requires forall i: nat :: script(i).uid != u
    requires Unused(s, spared, u)
    ensures Unused(Cut(p, s, script, at, n).state, spared, u)
    decreases n
  {
    if n > 0 && !p.Finished? {
      var (p', s') := Step(p, s, script(at));
      StepLeavesUnused(p, s, script(at), spared, u);
      CutLeavesUnused(p', s', script, at + 1, n - 1, spared, u);
    }
  }

  /** What Retain does not prevent: however far a pass goes, the Secret of a dead incarnation is garbage still. */
  lemma DeadIncarnationsSecretIsCollected(id: Id, s: State, script: Script, at: nat, n: nat, g: Resources.Generated,
                                          dead: Uid)
    requires Fresh(script) && id in s.insts && s.insts[id].spec.deletionPolicy != Delete
    requires GeneratedKey(id, g) in s.objs && s.objs[GeneratedKey(id, g)].Owners() == [ControllerRef(id, dead)]
    requires dead !in LiveUids(s) && forall i: nat :: script(i).uid != dead
    ensures Collectable(Run(id, s, script, at, n).state, GeneratedKey(id, g))
  {
    var k := GeneratedKey(id, g);
    var c := Run(id, s, script, at, n);
    UnusedIsDead(s, id, dead);
    CutLeavesUnused(Starting(id), s, script, at, n, {}, dead);
    UnusedIsDead(c.state, id, dead);
    assert s.insts[id].uid in LiveUids(s);
    DeadReferenceStays(id, s, script, at, n, g, dead);
  }

  lemma DeadReferenceStays(id: Id, s: State, script: Script, at: nat, n: nat, g: Resources.Generated, dead: Uid)
    requires Fresh(script) && id in s.insts && s.insts[id].spec.deletionPolicy != Delete && s.insts[id].uid != dead
    requires GeneratedKey(id, g) in s.objs && s.objs[GeneratedKey(id, g)].Owners() == [ControllerRef(id, dead)]
    ensures Find(Run(id, s, script, at, n).state, GeneratedKey(id, g)) == Find(s, GeneratedKey(id, g))
  {
    var j := if g == Resources.SecretKey then 0 else 1;
    AllBetweenSelf(Subject(id, s), s);
    TryBetween(id, s, s, script, at, n);
    assert Plan(s.insts[id].spec, j) == SecretItem(g);
    assert Between(Subject(id, s), j, s, Run(id, s, script, at, n).state);
    assert !ControlledBy(s.objs[GeneratedKey(id, g)], s.insts[id].uid);
  }

  /**
   * What becomes of references that others have put on a Secret: a pass that finds it aligned leaves
   * them, and one that does not drops them all, because the patch replaces the list.
   */
  lemma PatchKeepsOthersIff(id: Id, s: State, script: Script, at: nat, n: nat, g: Resources.Generated)
    requires Honest(script) && Fresh(script) && id in s.insts && GeneratedKey(id, g) in s.objs
    requires var p := Run(id, s, script, at, n).proc; Current(p).Some? && Position(p) > DATABASE_POS
    ensures var k, uid := GeneratedKey(id, g), s.insts[id].uid;
            var t := Run(id, s, script, at, n).state;
            var aligned := ControlledBy(s.objs[k], uid) == (s.insts[id].spec.deletionPolicy == Delete);
            && k in t.objs
            && t.objs[k].Owners() ==
               (if aligned then s.objs[k].Owners()
                else if s.insts[id].spec.deletionPolicy == Delete then [ControllerRef(id, uid)] else [])
            && (t.objs[k].others == s.objs[k].others <==> s.objs[k].others == [] || aligned)
  {
    var k := GeneratedKey(id, g);
    var c := Run(id, s, script, at, n);
    var j := if g == Resources.SecretKey then 0 else 1;
    AllBetweenSelf(Subject(id, s), s);
    TryBetween(id, s, s, script, at, n);
    RunKnown(id, s, script, at, n, 0);
    RunSubject(id, s, script, at, n);
    assert Plan(s.insts[id].spec, j) == SecretItem(g);
    assert Between(Subject(id, s), j, s, c.state);
    assert Done(Current(c.proc).value, j, c.state);
  }

  // ----- A Cluster left behind by a managed database -----

  function ClusterKey(id: Id): Key {
    Key(ClusterKind, id.ns, DerivedName(id.name, DbPart))
  }

  lemma ExternalWritesNoCluster(pass: Pass, k: Key)
    requires pass.inst.spec.database.IsExternal() && k.kind.ClusterKind?
    ensures !WritesTo(pass, k)
  {
  }

  lemma ExternalLeavesCluster(id: Id, s: State, script: Script, at: nat, n: nat, k: Key)
    requires Fresh(script) && id in s.insts && s.insts[id].spec.database.IsExternal() && k.kind.ClusterKind?
    ensures Find(Run(id, s, script, at, n).state, k) == Find(s, k)
  {
    AllBetweenSelf(Subject(id, s), s);
    TryBetween(id, s, s, script, at, n);
    ExternalWritesNoCluster(Subject(id, s), k);
  }

  lemma ManagedOwnsCluster(id: Id, s: State, script: Script, at: nat, n: nat)
    requires Fresh(script) && id in s.insts && !s.insts[id].spec.database.IsExternal()
    requires var p := Run(id, s, script, at, n).proc; Current(p).Some? && Position(p) > DATABASE_POS
    ensures var t := Run(id, s, script, at, n).state;
            && ClusterKey(id) in t.objs
            && t.objs[ClusterKey(id)].applied == OwnersFor(id, s.insts[id].uid, s.insts[id].spec, ClusterItem)
  {
    RunKnown(id, s, script, at, n, AFTER_SECRETS);
    RunSubject(id, s, script, at, n);
    var c := Run(id, s, script, at, n);
    ClusterDone(Current(c.proc).value, c.state);
  }

  lemma ClusterDone(pass: Pass, s: State)
    requires Done(pass, DATABASE_POS, s) && !pass.inst.spec.database.IsExternal()
    ensures ClusterKey(pass.id) in s.objs
    ensures s.objs[ClusterKey(pass.id)].applied == OwnersFor(pass.id, pass.inst.uid, pass.inst.spec, ClusterItem)
  {
  }

  /**
   * Exactly when a pass past the database leaves a Cluster it finds owned as the policy says: when
   * the database is managed, or the Cluster was owned so already. A pass for an instance that has
   * changed to an external database does not touch it, so its ownership is frozen.
   */
  lemma ClusterFollowsPolicyIff(id: Id, s: State, script: Script, at: nat, n: nat)
    requires Fresh(script) && id in s.insts && ClusterKey(id) in s.objs
    requires var p := Run(id, s, script, at, n).proc; Current(p).Some? && Position(p) > DATABASE_POS
    ensures var k, spec := ClusterKey(id), s.insts[id].spec;
            var t := Run(id, s, script, at, n).state;
            var wanted := if spec.deletionPolicy == Delete then [ControllerRef(id, s.insts[id].uid)] else [];
            && k in t.objs
            && t.objs[k].others == s.objs[k].others
            && (t.objs[k].applied == wanted <==> !spec.database.IsExternal() || s.objs[k].applied == wanted)
  {
    var k := ClusterKey(id);
    CutAllKept(Starting(id), s, script, at, n);
    assert Kept(k, s.objs[k], Run(id, s, script, at, n).state.objs[k]);
    if s.insts[id].spec.database.IsExternal() {
      ExternalLeavesCluster(id, s, script, at, n, k);
    } else {
      ManagedOwnsCluster(id, s, script, at, n);
    }
  }

  /**
   * The failing family: the instance has changed from a managed to an external database after its
   * Cluster was owned. However far passes under Retain go, the Cluster is garbage once the instance
   * is deleted.
   */
  lemma FrozenClusterIsCollected(id: Id, s: State, script: Script, at: nat, n: nat)
    requires Fresh(script) && id in s.insts
    requires s.insts[id].spec.deletionPolicy != Delete && s.insts[id].spec.database.IsExternal()
    requires ClusterKey(id) in s.objs && s.objs[ClusterKey(id)].Owners() == [ControllerRef(id, s.insts[id].uid)]
    requires s.insts[id].uid !in LiveUids(Deleted(s, id)) && forall i: nat :: script(i).uid != s.insts[id].uid
    ensures Collectable(Deleted(Run(id, s, script, at, n).state, id), ClusterKey(id))
  {
    ExternalLeavesCluster(id, s, script, at, n, ClusterKey(id));
    UnusedIsDead(s, id, s.insts[id].uid);
    CutLeavesUnused(Starting(id), s, script, at, n, {id}, s.insts[id].uid);
    UnusedIsDead(Run(id, s, script, at, n).state, id, s.insts[id].uid);
    assert Run(id, s, script, at, n).state.objs[ClusterKey(id)] == s.objs[ClusterKey(id)];
  }

  // ----- Nothing retained is ever collected, and a new incarnation adopts it -----

  /** If the object is there, nobody owns it. */
  predicate Unowned(w: World, k: Key) {
    k in w.state.objs ==> w.state.objs[k].Owners() == []
  }

  /** Every pass under way for the instance, whichever incarnation it is for, has read Retain. */
  predicate RetainNow(w: World, id: Id) {
    forall pid :: pid in w.procs && InFlight(w.procs[pid], id) ==> w.procs[pid].pass.inst.spec.deletionPolicy != Delete
  }

  ghost predicate RetainThroughout(w: World, evs: seq<Event>, id: Id)
    requires Legal(w, evs)
    decreases |evs|
  {
    RetainNow(w, id) && (evs == [] || RetainThroughout(Next(w, evs[0]), evs[1..], id))
  }

  /** The same object, and as a Secret with the same data. */
  predicate SameObject(k: Key, before: State, after: State) {
    && k in before.objs && k in after.objs
    && after.objs[k].uid == before.objs[k].uid
    && (k.kind.SecretKind? ==> after.objs[k].content == before.objs[k].content)
  }

  lemma NextUnowned(w: World, e: Event, id: Id, k: Key)
    requires Enabled(w, e) && Stateful(id, k) && Unowned(w, k) && RetainNow(w, id) && Harmless(w, e, k, false)
    ensures Unowned(Next(w, e), k)
  {
    if e.Request? && k in Next(w, e).state.objs {
      StepWritesAt(w.procs[e.pid], w.state, e.o, k);
      if Find(Next(w, e).state, k) != Find(w.state, k) {
        WrittenUnowned(w, e.pid, e.o, id, k, Next(w, e).state.objs[k]);
      }
    }
  }

  lemma WrittenUnowned(w: World, pid: nat, o: Oracle, id: Id, k: Key, after: Object)
    requires pid in w.procs && w.procs[pid].Working? && k == Target(w.procs[pid]) && Stateful(id, k)
    requires RetainNow(w, id) && Written(w.procs[pid], Find(w.state, k), after, o)
    requires k in w.state.objs ==> w.state.objs[k].Owners() == []
    ensures after.Owners() == []
  {
    StatefulTarget(id, w.procs[pid]);
    assert InFlight(w.procs[pid], id);
  }

  /** Nobody else writes to the object. */
  predicate Unedited(evs: seq<Event>, k: Key) {
    forall i :: 0 <= i < |evs| ==> !(evs[i].Put? && evs[i].k == k)
  }

  lemma NextSameObject(w: World, e: Event, k: Key)
    requires Enabled(w, e) && k in w.state.objs && e != Remove(k) && e != Collect(k)
    ensures k in Next(w, e).state.objs
    ensures !(e.Put? && e.k == k) ==> SameObject(k, w.state, Next(w, e).state)
  {
    if e.Request? {
      StepKeeps(w.procs[e.pid], w.state, e.o, k);
    }
  }

  /** An unowned object is not garbage, so only somebody's hand removes it. */
  lemma {:induction false} ExecUnowned(w: World, evs: seq<Event>, id: Id, k: Key)
    requires Follows(w, evs, id, k) && Stateful(id, k) && Unowned(w, k) && k in w.state.objs
    ensures Unowned(Exec(w, evs), k) && k in Exec(w, evs).state.objs
    ensures Unedited(evs, k) ==> SameObject(k, w.state, Exec(w, evs).state)
    decreases |evs|
  {
    if evs != [] {
      NextUnowned(w, evs[0], id, k);
      assert evs[0] != Collect(k);
      NextSameObject(w, evs[0], k);
      assert Remove(k) !in evs[1..];
      ExecUnowned(Next(w, evs[0]), evs[1..], id, k);
      assert Unedited(evs, k) ==> Unedited(evs[1..], k) && !(evs[0].Put? && evs[0].k == k);
    }
  }

  /** What follows a stretch under Retain: whatever it is, nobody reads Delete and nobody removes k by hand. */
  ghost predicate Follows(w: World, later: seq<Event>, id: Id, k: Key) {
    Legal(w, later) && Undisturbed(w, later, k, false) && RetainThroughout(w, later, id) && Remove(k) !in later
  }

  /**
   * Once a stretch under Retain is over, nothing it governs ever goes: not while the instance is
   * deleted and garbage is collected, with passes still under way, nor while new incarnations come
   * and go, as long as none of them reads Delete. Only somebody's hand can remove or edit it.
   */
  lemma RetainedOutlives(
    history: seq<Event>, evs: seq<Event>, later: seq<Event>, id: Id, u: Uid, pid: nat, k: Key)
    requires Governs(history, evs, id, u, false, pid, k)
    requires Follows(Exec(Exec(EMPTY, history), evs), later, id, k)
    ensures var w := Exec(Exec(EMPTY, history), evs);
            && Unowned(Exec(w, later), k)
            && k in Exec(w, later).state.objs
            && (Unedited(later, k) ==> SameObject(k, w.state, Exec(w, later).state))
  {
    var w := Exec(Exec(EMPTY, history), evs);
    GovernedSettles(history, evs, id, u, false, pid, k);
    SettledIsUnowned(w, id, k);
    ExecUnowned(w, later, id, k);
  }

  /** Passes for one incarnation own a governed object in no other's name. */
  lemma {:induction false} ExecAdopts(w: World, evs: seq<Event>, id: Id, u: Uid, d: bool, k: Key)
    requires Legal(w, evs) && Undisturbed(w, evs, k, d) && Under(w, evs, id, u, d)
    requires Stateful(id, k) && k in w.state.objs && NoOtherIncarnation(w, id, u, k)
    requires Remove(k) !in evs && Collect(k) !in evs
    ensures k in Exec(w, evs).state.objs && NoOtherIncarnation(Exec(w, evs), id, u, k)
    ensures Unedited(evs, k) ==> SameObject(k, w.state, Exec(w, evs).state)
    decreases |evs|
  {
    if evs != [] {
      NextSameObject(w, evs[0], k);
      NextOwner(w, evs[0], id, u, d, k);
      assert Remove(k) !in evs[1..] && Collect(k) !in evs[1..];
      ExecAdopts(Next(w, evs[0]), evs[1..], id, u, d, k);
      assert Unedited(evs, k) ==> Unedited(evs[1..], k) && !(evs[0].Put? && evs[0].k == k);
    }
  }

  /**
   * Retain, delete, recreate: after any stretch under Retain and anything that may follow it, such
   * as deletion, garbage collection and recreation with a new UID, let the passes of an incarnation
   * v read one policy, whichever it is, until one of them is past the database. Whatever both
   * stretches govern is the original object, a Secret with its original data, and v controls it
   * exactly under Delete.
   */
  lemma RetainedIsAdopted(
    history: seq<Event>, evs: seq<Event>, later: seq<Event>, last: seq<Event>,
    id: Id, u: Uid, pid: nat, v: Uid, d: bool, qid: nat, k: Key)
    requires Governs(history, evs, id, u, false, pid, k)
    requires var w := Exec(Exec(EMPTY, history), evs);
             && Follows(w, later, id, k)
             && Stretch(Exec(w, later), last, id, v, d, qid, k) && Remove(k) !in last && Collect(k) !in last
    ensures var w := Exec(Exec(EMPTY, history), evs);
            var end := Exec(Exec(w, later), last).state;
            && k in end.objs
            && (forall x :: ControlledBy(end.objs[k], x) <==> d && x == v)
            && (Unedited(later, k) && Unedited(last, k) ==> SameObject(k, w.state, end))
  {
    var w := Exec(Exec(EMPTY, history), evs);
    var t := Exec(w, later);
    RetainedOutlives(history, evs, later, id, u, pid, k);
    GovernedSettles(history, evs, id, u, false, pid, k);
    ExecBooked(w, later);
    ExecStateful(w, later, id, k, false);
    assert NoOtherIncarnation(t, id, v, k) by {
      UnownedIsNothing(t.state.objs[k]);
    }
    StretchSettles(t, last, id, v, d, qid, k);
    ExecAdopts(t, last, id, v, d, k);
    AdoptedControl(Exec(t, last), id, v, d, k);
  }

  lemma AdoptedControl(w: World, id: Id, v: Uid, d: bool, k: Key)
    requires StatefulInv(w, id, k) && k in w.state.objs && Settled(w, k, d) && NoOtherIncarnation(w, id, v, k)
    ensures forall x :: ControlledBy(w.state.objs[k], x) <==> d && x == v
  {
    var obj := w.state.objs[k];
    assert OwnershipKnown(w, id, obj);
    if d {
      forall x {
        ControlledByOperator(obj, id, v, x);
      }
    } else {
      assert obj.Owners() == [];
    }
  }

  // ----- The reproducible objects -----

  /** The workload's and the cache's own objects. */
  predicate Reproducible(id: Id, k: Key) {
    && k.ns == id.ns
    && ((k.kind in [DeploymentKind, ServiceKind] && k.name in [id.name, DerivedName(id.name, ValkeyPart)])
        || (k.kind.PvcKind? && k.name == DerivedName(id.name, ValkeyPart)))
  }

  /** Some incarnation of an instance that k belongs to controls it, and nobody else is named. */
  ghost predicate ControlledByOwner(w: World, k: Key, obj: Object) {
    && obj.others == []
    && exists u :: u in w.born && Reproducible(w.born[u], k) && obj.applied == [ControllerRef(w.born[u], u)]
  }

  ghost predicate ReproducibleInv(w: World, k: Key) {
    k in w.state.objs ==> ControlledByOwner(w, k, w.state.objs[k])
  }

  lemma ReproducibleTarget(id: Id, p: Proc)
    requires p.Working? && !Plan(p.pass.inst.spec, p.pos).ExternalDbItem? && Reproducible(id, Target(p))
    ensures AlwaysOwned(Plan(p.pass.inst.spec, p.pos)) && Reproducible(p.pass.id, Target(p))
  {
    var item := Plan(p.pass.inst.spec, p.pos);
    if item.PvcItem? {
      DerivedNameInjective(p.pass.id.name, item.part, id.name, ValkeyPart);
    }
  }

  lemma WrittenControlled(w: World, pid: nat, o: Oracle, id: Id, after: Object)
    requires Booked(w) && pid in w.procs
    requires var p := w.procs[pid];
             p.Working? && Reproducible(id, Target(p)) && ReproducibleInv(w, Target(p))
                 && Written(p, Find(w.state, Target(p)), after, o)
    ensures ControlledByOwner(w, Target(w.procs[pid]), after)
  {
    var p := w.procs[pid];
    var k := Target(p);
    ReproducibleTarget(id, p);
    assert ProcBooked(w, p);
    assert k in w.state.objs ==> ControlledByOwner(w, k, w.state.objs[k]);
    var u := p.pass.inst.uid;
    assert u in w.born && w.born[u] == p.pass.id && after.applied == [ControllerRef(p.pass.id, u)];
  }

  lemma NextReproducible(w: World, e: Event, id: Id, k: Key)
    requires Booked(w) && Enabled(w, e) && Reproducible(id, k) && ReproducibleInv(w, k) && Harmless(w, e, k, true)
    ensures ReproducibleInv(Next(w, e), k)
  {
    var w' := Next(w, e);
    if k in w'.state.objs {
      if e.Request? && Find(w'.state, k) != Find(w.state, k) {
        StepWritesAt(w.procs[e.pid], w.state, e.o, k);
        WrittenControlled(w, e.pid, e.o, id, w'.state.objs[k]);
      } else {
        assert e.Request? ==> Find(w'.state, k) == Find(w.state, k);
        assert k in w.state.objs && ControlledByOwner(w, k, w.state.objs[k]);
        var u :| u in w.born && Reproducible(w.born[u], k) && w.state.objs[k].applied == [ControllerRef(w.born[u], u)];
        assert u in w'.born && w'.born[u] == w.born[u];
        assert w'.state.objs[k].applied == w.state.objs[k].applied && w'.state.objs[k].others == w.state.objs[k].others;
      }
    }
  }

  lemma {:induction false} ExecReproducible(w: World, evs: seq<Event>, id: Id, k: Key)
    requires Booked(w) && Legal(w, evs) && Reproducible(id, k) && ReproducibleInv(w, k) && Undisturbed(w, evs, k, true)
    ensures ReproducibleInv(Exec(w, evs), k)
    decreases |evs|
  {
    if evs != [] {
      NextBooked(w, evs[0]);
      NextReproducible(w, evs[0], id, k);
      ExecReproducible(Next(w, evs[0]), evs[1..], id, k);
    }
  }

  /**
   * Under either policy, after any run in which others leave the owner references of the object
   * alone: once the instance is deleted and garbage collected, none of its Deployments, Services and
   * cache claim is left, unless another living instance has an object of that very name.
   */
  lemma ReproducibleObjectsGo(evs: seq<Event>, id: Id, ks: seq<Key>, k: Key)
    requires Legal(EMPTY, evs) && Undisturbed(EMPTY, evs, k, true)
    requires var w := Exec(EMPTY, evs);
             SweepLegal(Deleted(w.state, id), ks) && Swept(Sweep(Deleted(w.state, id), ks))
    requires Reproducible(id, k) && k in Sweep(Deleted(Exec(EMPTY, evs).state, id), ks).objs
    ensures exists other :: other != id && other in Exec(EMPTY, evs).state.insts && Reproducible(other, k)
  {
    EmptyBooked();
    ExecBooked(EMPTY, evs);
    ExecReproducible(EMPTY, evs, id, k);
    var w := Exec(EMPTY, evs);
    var t := Sweep(Deleted(w.state, id), ks);
    SweepKeeps(Deleted(w.state, id), ks);
    assert ControlledByOwner(w, k, w.state.objs[k]);
    var u :| u in w.born && Reproducible(w.born[u], k) && w.state.objs[k].applied == [ControllerRef(w.born[u], u)];
    assert t.objs[k].Owners() == [ControllerRef(w.born[u], u)];
    assert !Collectable(t, k);
    assert u in LiveUids(t);
    assert forall x :: x in t.objs ==> t.objs[x].uid != u;
    var other :| other in t.insts && t.insts[other].uid == u;
    assert other in w.state.insts && other != id;
  }
}
