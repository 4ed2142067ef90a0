// The stored status in whole runs.
module Statuses {
  import opened Base
  import opened Api
  import opened Server
  import opened Protocol
  import opened Steps
  import opened Passes
  import opened Reports
  import opened World
  import Survival

  // ----- Ready is never claimed without the database -----

  ghost predicate CoherentInv(w: World) {
    && (forall id :: id in w.state.insts ==> Sound(w.state.insts[id].status.conditions))
    && (forall pid :: pid in w.procs ==> Reporting(w.procs[pid]) && KeyedProc(w.procs[pid]))
  }

  /** One condition per type, and no Ready without the database. */
  predicate Sound(cs: seq<Condition>) {
    C.Keyed(cs) && Coherent(cs)
  }

  predicate KeyedProc(p: Proc) {
    Current(p).Some? ==> C.Keyed(Current(p).value.status.conditions)
  }

  lemma GoesKeyed(pass: Pass, pos: nat, p': Proc, now: int)
    requires pos < Length(pass.inst.spec) && Goes(pass, pos, p', now) && C.Keyed(pass.status.conditions)
    ensures KeyedProc(p')
  {
    var g := pass.inst.generation;
    if Fails(pass, pos, p', now) {
      var message :| p' == Fail(pass, pos, message, now);
      var reason := FailureReason(StageOf(Plan(pass.inst.spec, pos)));
      C.UpsertKeyed(pass.status.conditions, Condition(Ready, false, g, reason, message, now));
    } else if Stops(pass, pos, p', now) {
      var reason, message :| p' == NotUsable(pass, pos, reason, message, now);
      var c := Condition(DatabaseReady, false, g, reason, message, now);
      C.UpsertKeyed(pass.status.conditions, c);
      C.UpsertKeyed(C.Upsert(pass.status.conditions, c),
                    Condition(Ready, false, g, FailureReason(Database), SeeDatabaseReady, now));
    } else if Concludes(pass, pos, p', now) {
      var n :| p' == Report(pass, pos, n, now);
      C.UpsertKeyed(pass.status.conditions, WorkloadCondition(n >= 1, g, now));
    } else if !Stays(pass, pos, p') {
      C.UpsertKeyed(pass.status.conditions, UsableDatabase(pass.inst.spec, g, now));
    }
  }

  lemma StepKeyed(p: Proc, s: State, o: Oracle)
    requires KeyedProc(p)
    requires p.Starting? && o.fault.StaleRead? ==> C.Keyed(o.fault.earlier.status.conditions)
    requires p.Starting? && p.id in s.insts ==> C.Keyed(s.insts[p.id].status.conditions)
    ensures KeyedProc(Step(p, s, o).0)
  {
    match p
    case Starting(id) =>
      var r := GetInstance(s, id, o);
      if r.Got? {
        C.UpsertKeyed(r.value.status.conditions, Seed(r.value.generation, o.now));
      }
    case Working(pass, pos, _) =>
      StepGoes(p, s, o);
      GoesKeyed(pass, pos, Step(p, s, o).0, o.now);
    case _ =>
  }

  lemma StepSound(p: Proc, s: State, o: Oracle, id: Id)
    requires Reporting(p) && KeyedProc(p) && id in s.insts && Sound(s.insts[id].status.conditions)
    ensures var s' := Step(p, s, o).1; id in s'.insts && Sound(s'.insts[id].status.conditions)
  {
    StepInstances(p, s, o, id);
    if p.Finishing? {
      VerdictCoherent(p.pass, p.pos, p.result);
    }
  }

  lemma NextCoherent(w: World, e: Event)
    requires Enabled(w, e) && CoherentInv(w)
    ensures CoherentInv(Next(w, e))
  {
    if e.Request? {
      var p := w.procs[e.pid];
      StepReports(p, w.state, e.o);
      StepKeyed(p, w.state, e.o);
      forall id | id in Next(w, e).state.insts ensures Sound(Next(w, e).state.insts[id].status.conditions) {
        StepInstances(p, w.state, e.o, id);
        StepSound(p, w.state, e.o, id);
      }
    }
  }

  lemma {:induction false} ExecCoherent(w: World, evs: seq<Event>)
    requires CoherentInv(w) && Legal(w, evs)
    ensures CoherentInv(Exec(w, evs))
    decreases |evs|
  {
    if evs != [] {
      NextCoherent(w, evs[0]);
      ExecCoherent(Next(w, evs[0]), evs[1..]);
    }
  }

  lemma EmptyCoherent()
    ensures CoherentInv(EMPTY)
  {
  }

  /**
   * In every run, with arbitrarily stale reads and any number of passes at once: a stored status has
   * one condition per type, and one that claims Ready also claims DatabaseReady, for the same generation.
   */
  lemma ReadyNeedsDatabase(evs: seq<Event>, id: Id)
    requires Legal(EMPTY, evs) && id in Exec(EMPTY, evs).state.insts
    ensures var cs := Exec(EMPTY, evs).state.insts[id].status.conditions;
            C.Keyed(cs) && Coherent(cs)
  {
    EmptyCoherent();
    ExecCoherent(EMPTY, evs);
  }

  // ----- Generations -----

  /** No condition is newer than g. */
  predicate Bounded(cs: seq<Condition>, g: int) {
    forall i :: 0 <= i < |cs| ==> cs[i].generation <= g
  }

  /**
   * The conditions are no newer than the status, the status no newer than the instance, and Ready is as
   * new as the status.
   */
  predicate Ordered(inst: Instance) {
    && Bounded(inst.status.conditions, inst.status.observedGeneration)
    && inst.status.observedGeneration <= inst.generation
    && (C.Get(inst.status.conditions, Ready).Some? ==>
          C.Get(inst.status.conditions, Ready).value.generation == inst.status.observedGeneration)
  }

  /** The process is in the middle of a pass for the instance, or about to start one. */
  predicate Active(p: Proc, id: Id) {
    InFlight(p, id) || (p.Starting? && p.id == id)
  }

  /** Everything a pass under way holds is at most the generation it has read. */
  predicate Within(p: Proc) {
    p.Working? || p.Finishing? ==> Bounded(p.pass.status.conditions, p.pass.inst.generation)
  }

  /** Besides, as long as the incarnation it read is there, its base is what is stored. */
  predicate Grounded(p: Proc, s: State) {
    p.Working? || p.Finishing? ==>
      && Within(p)
      && (ReadIncarnation(p, s) ==>
            && s.insts[p.pass.id].status == p.pass.inst.status
            && p.pass.inst.generation <= s.insts[p.pass.id].generation)
  }

  /** The incarnation that was read is the one that is stored. */
  predicate ReadIncarnation(p: Proc, s: State)
    requires p.Working? || p.Finishing?
  {
    p.pass.id in s.insts && s.insts[p.pass.id].uid == p.pass.inst.uid
  }

  ghost predicate OrderInv(w: World, id: Id) {
    && (id in w.state.insts ==> Ordered(w.state.insts[id]))
    && (forall pid :: pid in w.procs ==> Reporting(w.procs[pid]))
    && (forall pid :: pid in w.procs && Active(w.procs[pid], id) ==> Grounded(w.procs[pid], w.state))
    && (forall p, q :: p in w.procs && q in w.procs && Active(w.procs[p], id) && Active(w.procs[q], id) ==> p == q)
  }

  /**
   * Whether the status patch of a pass leaves the instance's status in order. The patch goes by
   * name, so the instance may be another incarnation than the one that was read; and a field of the
   * status is left out of the patch where the pass has not changed it.
   */
  predicate PatchFits(pass: Pass, stored: Instance) {
    var base, g := pass.inst.status, pass.inst.generation;
    if pass.status.conditions != base.conditions then
      (if base.observedGeneration == g then stored.status.observedGeneration == g else g <= stored.generation)
    else
      || base.observedGeneration == g
      || (if C.Get(stored.status.conditions, Ready).Some? then stored.status.observedGeneration == g
          else Bounded(stored.status.conditions, g) && g <= stored.generation)
  }

  /**
   * One pass for the instance at a time, reading what is stored. If the instance has been recreated
   * under the pass, its status patch must fit the new incarnation.
   */
  predicate Orderly(w: World, e: Event, id: Id) {
    && (e.Spawn? && e.id == id ==> forall pid :: pid in w.procs ==> !Active(w.procs[pid], id))
    && (e.Request? && e.pid in w.procs && Active(w.procs[e.pid], id) ==>
          var p := w.procs[e.pid];
          && !e.o.fault.StaleRead?
          && (p.Finishing? && !e.o.fault.Refused? && id in w.state.insts && !ReadIncarnation(p, w.state) ==>
                PatchFits(p.pass, w.state.insts[id])))
  }

  lemma UpsertBounded(cs: seq<Condition>, c: Condition, g: int)
    requires Bounded(cs, g) && c.generation <= g
    ensures Bounded(C.Upsert(cs, c), g)
  {
  }

  lemma GoesBounded(pass: Pass, pos: nat, p': Proc, now: int)
    requires pos < Length(pass.inst.spec) && Goes(pass, pos, p', now)
             && Bounded(pass.status.conditions, pass.inst.generation)
    ensures Current(p').Some? && SameRun(Current(p').value, pass)
    ensures Bounded(Current(p').value.status.conditions, pass.inst.generation)
  {
    var g := pass.inst.generation;
    if Fails(pass, pos, p', now) {
      var message :| p' == Fail(pass, pos, message, now);
      UpsertBounded(pass.status.conditions,
                    Condition(Ready, false, g, FailureReason(StageOf(Plan(pass.inst.spec, pos))), message, now), g);
    } else if Stops(pass, pos, p', now) {
      var reason, message :| p' == NotUsable(pass, pos, reason, message, now);
      var c := Condition(DatabaseReady, false, g, reason, message, now);
      UpsertBounded(pass.status.conditions, c, g);
      UpsertBounded(C.Upsert(pass.status.conditions, c),
                    Condition(Ready, false, g, FailureReason(Database), SeeDatabaseReady, now), g);
    } else if Concludes(pass, pos, p', now) {
      var n :| p' == Report(pass, pos, n, now);
      UpsertBounded(pass.status.conditions, WorkloadCondition(n >= 1, g, now), g);
    } else if !Stays(pass, pos, p') {
      UpsertBounded(pass.status.conditions, UsableDatabase(pass.inst.spec, g, now), g);
    }
  }

  lemma StepGrounded(p: Proc, s: State, o: Oracle, id: Id)
    requires Active(p, id) && Grounded(p, s) && !o.fault.StaleRead?
    requires id in s.insts ==> Ordered(s.insts[id])
    ensures Active(Step(p, s, o).0, id) ==> Grounded(Step(p, s, o).0, Step(p, s, o).1)
  {
    match p
    case Starting(_) =>
      if GetInstance(s, id, o).Got? {
        var inst := s.insts[id];
        UpsertBounded(inst.status.conditions, Seed(inst.generation, o.now), inst.generation);
      }
    case Working(pass, pos, _) =>
      StepGoes(p, s, o);
      GoesBounded(pass, pos, Step(p, s, o).0, o.now);
      StepInstances(p, s, o, id);
    case Finishing(_, _, _) =>
  }

  /**
   * The status patch keeps the stored status in order exactly when it fits. In particular it need
   * not when the instance was recreated under the pass.
   */
  lemma PatchKeepsOrderIff(p: Proc, s: State, o: Oracle)
    requires p.Finishing? && Reporting(p) && Bounded(p.pass.status.conditions, p.pass.inst.generation)
    requires !o.fault.Refused? && p.pass.id in s.insts && Ordered(s.insts[p.pass.id])
    ensures Ordered(Step(p, s, o).1.insts[p.pass.id]) <==> PatchFits(p.pass, s.insts[p.pass.id])
  {
    assert Verdict(p.pass, p.pos, p.result);
    var inst := s.insts[p.pass.id];
    assert Step(p, s, o).1.insts[p.pass.id] ==
           inst.(status := Merged(inst.status, p.pass.inst.status, Observed(p.pass)));
    MergedInOrderIff(p.pass, inst);
  }

  lemma MergedInOrderIff(pass: Pass, inst: Instance)
    requires Ordered(inst) && Bounded(pass.status.conditions, pass.inst.generation)
    requires ReadyOf(pass).Some? && ReadyOf(pass).value.generation == pass.inst.generation
    ensures Ordered(inst.(status := Merged(inst.status, pass.inst.status, Observed(pass)))) <==> PatchFits(pass, inst)
  {
  }

  /**
   * For a new incarnation, whose status is empty: nothing may be left out of the patch but an unchanged
   * status, and the generation must not be ahead.
   */
  lemma PatchOnNewIncarnationIff(p: Proc, s: State, o: Oracle)
    requires p.Finishing? && Reporting(p) && Bounded(p.pass.status.conditions, p.pass.inst.generation)
    requires !o.fault.Refused? && p.pass.id in s.insts && s.insts[p.pass.id].status == EMPTY_STATUS
    requires 0 < p.pass.inst.generation && 0 < s.insts[p.pass.id].generation
    ensures Ordered(Step(p, s, o).1.insts[p.pass.id]) <==>
            if p.pass.inst.status.observedGeneration == p.pass.inst.generation
            then p.pass.status.conditions == p.pass.inst.status.conditions
            else p.pass.inst.generation <= s.insts[p.pass.id].generation
  {
    PatchKeepsOrderIff(p, s, o);
  }

  /** The patch of a grounded pass stores its whole status, in order. */
  lemma StepOrdered(p: Proc, s: State, o: Oracle, id: Id)
    requires Reporting(p) && id in s.insts && Ordered(s.insts[id])
    requires Active(p, id) ==> Grounded(p, s)
    requires p.Finishing? && p.pass.id == id && !o.fault.Refused? && !ReadIncarnation(p, s) ==>
               PatchFits(p.pass, s.insts[id])
    ensures var s' := Step(p, s, o).1; id in s'.insts && Ordered(s'.insts[id])
  {
    StepInstances(p, s, o, id);
    if p.Finishing? && p.pass.id == id && !o.fault.Refused? {
      PatchKeepsOrderIff(p, s, o);
    }
  }

  lemma RequestOrdered(w: World, pid: nat, o: Oracle, id: Id)
    requires Enabled(w, Request(pid, o)) && OrderInv(w, id) && Orderly(w, Request(pid, o), id)
    ensures OrderInv(Next(w, Request(pid, o)), id)
  {
    var p := w.procs[pid];
    var w' := Next(w, Request(pid, o));
    StepReports(p, w.state, o);
    StepInstances(p, w.state, o, id);
    if id in w.state.insts {
      StepOrdered(p, w.state, o, id);
    }
    StepActive(p, w.state, o, id);
    forall q | q in w'.procs && Active(w'.procs[q], id) ensures Grounded(w'.procs[q], w'.state) {
      if q == pid {
        StepGrounded(p, w.state, o, id);
      } else {
        assert Grounded(w.procs[q], w.state);
        assert !Active(p, id);
      }
    }
  }

  /** What an event that is no request leaves of the instance that a pass has read. */
  predicate NotBehind(p: Proc, s: State, s': State) {
    p.Working? || p.Finishing? ==>
      ReadIncarnation(p, s') ==>
        && ReadIncarnation(p, s)
        && s'.insts[p.pass.id].status == s.insts[p.pass.id].status
        && s.insts[p.pass.id].generation <= s'.insts[p.pass.id].generation
  }

  lemma GroundedStays(p: Proc, s: State, s': State)
    requires Grounded(p, s) && NotBehind(p, s, s')
    ensures Grounded(p, s')
  {
  }

  lemma OthersNotBehind(w: World, e: Event, q: nat)
    requires Booked(w) && Enabled(w, e) && !e.Request? && q in w.procs
    ensures NotBehind(w.procs[q], w.state, Next(w, e).state)
  {
    assert ProcBooked(w, w.procs[q]);
  }

  lemma OthersOrdered(w: World, e: Event, id: Id)
    requires Booked(w) && Enabled(w, e) && OrderInv(w, id) && Orderly(w, e, id) && !e.Request?
    ensures OrderInv(Next(w, e), id)
  {
    forall q | q in w.procs && Active(w.procs[q], id) ensures Grounded(w.procs[q], Next(w, e).state) {
      OthersNotBehind(w, e, q);
      GroundedStays(w.procs[q], w.state, Next(w, e).state);
    }
  }

  lemma NextOrdered(w: World, e: Event, id: Id)
    requires Booked(w) && Enabled(w, e) && OrderInv(w, id) && Orderly(w, e, id)
    ensures OrderInv(Next(w, e), id)
  {
    if e.Request? {
      RequestOrdered(w, e.pid, e.o, id);
    } else {
      OthersOrdered(w, e, id);
    }
  }

  lemma StepActive(p: Proc, s: State, o: Oracle, id: Id)
    ensures Active(Step(p, s, o).0, id) ==> Active(p, id)
  {
    if p.Working? {
      StepGoes(p, s, o);
    }
  }

  predicate OrderlyRun(w: World, evs: seq<Event>, id: Id)
    requires Legal(w, evs)
    decreases |evs|
  {
    evs == [] || (Orderly(w, evs[0], id) && OrderlyRun(Next(w, evs[0]), evs[1..], id))
  }

  lemma {:induction false} ExecOrdered(w: World, evs: seq<Event>, id: Id)
    requires Booked(w) && OrderInv(w, id) && Legal(w, evs) && OrderlyRun(w, evs, id)
    ensures OrderInv(Exec(w, evs), id)
    decreases |evs|
  {
    if evs != [] {
      NextBooked(w, evs[0]);
      NextOrdered(w, evs[0], id);
      ExecOrdered(Next(w, evs[0]), evs[1..], id);
    }
  }

  lemma EmptyOrdered(id: Id)
    ensures OrderInv(EMPTY, id)
  {
  }

  /** In every orderly run the stored status is in order. */
  lemma StatusKeepsOrder(evs: seq<Event>, id: Id)
    requires Legal(EMPTY, evs) && OrderlyRun(EMPTY, evs, id) && id in Exec(EMPTY, evs).state.insts
    ensures Ordered(Exec(EMPTY, evs).state.insts[id])
  {
    EmptyBooked();
    EmptyOrdered(id);
    ExecOrdered(EMPTY, evs, id);
  }

  // ----- Exactly when the order is kept, whatever is read and however many passes there are -----

  predicate InOrder(w: World, id: Id) {
    id in w.state.insts ==> Ordered(w.state.insts[id])
  }

  ghost predicate AlwaysInOrder(w: World, evs: seq<Event>, id: Id)
    requires Legal(w, evs)
    decreases |evs|
  {
    InOrder(w, id) && (evs == [] || AlwaysInOrder(Next(w, evs[0]), evs[1..], id))
  }

  /** If the event stores a status of the instance, the patch fits. */
  predicate FitsNow(w: World, e: Event, id: Id) {
    e.Request? && e.pid in w.procs && w.procs[e.pid].Finishing? && w.procs[e.pid].pass.id == id
    && !e.o.fault.Refused? && id in w.state.insts ==>
      PatchFits(w.procs[e.pid].pass, w.state.insts[id])
  }

  ghost predicate EveryPatchFits(w: World, evs: seq<Event>, id: Id)
    requires Legal(w, evs)
    decreases |evs|
  {
    evs == [] || (FitsNow(w, evs[0], id) && EveryPatchFits(Next(w, evs[0]), evs[1..], id))
  }

  /** What a cache that is behind serves a pass for the instance has no condition newer than itself. */
  predicate ServesInOrder(w: World, e: Event, id: Id) {
    e.Request? && e.pid in w.procs && Active(w.procs[e.pid], id) && e.o.fault.StaleRead? ==>
      Bounded(e.o.fault.earlier.status.conditions, e.o.fault.earlier.generation)
  }

  ghost predicate ServedInOrder(w: World, evs: seq<Event>, id: Id)
    requires Legal(w, evs)
    decreases |evs|
  {
    evs == [] || (ServesInOrder(w, evs[0], id) && ServedInOrder(Next(w, evs[0]), evs[1..], id))
  }

  ghost predicate WithinInv(w: World, id: Id) {
    && (forall pid :: pid in w.procs ==> Reporting(w.procs[pid]))
    && (forall pid :: pid in w.procs && Active(w.procs[pid], id) ==> Within(w.procs[pid]))
  }

  lemma StepWithin(p: Proc, s: State, o: Oracle, id: Id)
    requires Active(p, id) && Within(p)
    requires o.fault.StaleRead? ==> Bounded(o.fault.earlier.status.conditions, o.fault.earlier.generation)
    requires id in s.insts ==> Ordered(s.insts[id])
    ensures Within(Step(p, s, o).0)
  {
    match p
    case Starting(_) =>
      var r := GetInstance(s, id, o);
      if r.Got? {
        UpsertBounded(r.value.status.conditions, Seed(r.value.generation, o.now), r.value.generation);
      }
    case Working(pass, pos, _) =>
      StepGoes(p, s, o);
      GoesBounded(pass, pos, Step(p, s, o).0, o.now);
    case _ =>
  }

  lemma NextWithin(w: World, e: Event, id: Id)
    requires Enabled(w, e) && WithinInv(w, id) && InOrder(w, id) && ServesInOrder(w, e, id)
    ensures WithinInv(Next(w, e), id)
  {
    if e.Request? {
      StepReports(w.procs[e.pid], w.state, e.o);
      StepActive(w.procs[e.pid], w.state, e.o, id);
      if Active(w.procs[e.pid], id) {
        StepWithin(w.procs[e.pid], w.state, e.o, id);
      }
    }
  }

  lemma NextInOrderIff(w: World, e: Event, id: Id)
    requires Enabled(w, e) && WithinInv(w, id) && InOrder(w, id)
    ensures InOrder(Next(w, e), id) <==> FitsNow(w, e, id)
  {
    if e.Request? {
      var p := w.procs[e.pid];
      StepInstances(p, w.state, e.o, id);
      if p.Finishing? && p.pass.id == id && !e.o.fault.Refused? && id in w.state.insts {
        PatchKeepsOrderIff(p, w.state, e.o);
      }
    }
  }

  lemma {:induction false} ExecInOrderIff(w: World, evs: seq<Event>, id: Id)
    requires Legal(w, evs) && WithinInv(w, id) && InOrder(w, id) && ServedInOrder(w, evs, id)
    ensures AlwaysInOrder(w, evs, id) <==> EveryPatchFits(w, evs, id)
    decreases |evs|
  {
    if evs != [] {
      NextInOrderIff(w, evs[0], id);
      NextWithin(w, evs[0], id);
      if InOrder(Next(w, evs[0]), id) {
        ExecInOrderIff(Next(w, evs[0]), evs[1..], id);
      }
    }
  }

  /**
   * Any number of passes at once, reads as stale as they may be, recreation in mid-pass: the stored
   * status is in order throughout a run if and only if each status patch of the run fits the
   * instance it lands on.
   */
  lemma OrderKeptIff(evs: seq<Event>, id: Id)
    requires Legal(EMPTY, evs) && ServedInOrder(EMPTY, evs, id)
    ensures AlwaysInOrder(EMPTY, evs, id) <==> EveryPatchFits(EMPTY, evs, id)
  {
    ExecInOrderIff(EMPTY, evs, id);
  }

  // ----- A Deployment needs a database -----

  /** The database the spec names is there: the credentials with both keys, or the Cluster as built. */
  predicate DatabaseThere(id: Id, spec: Spec, s: State) {
    if spec.database.IsExternal()
    then KeyOf(id, spec, ExternalDbItem) in s.objs && HasCredentials(s.objs[KeyOf(id, spec, ExternalDbItem)])
    else KeyOf(id, spec, ClusterItem) in s.objs
         && s.objs[KeyOf(id, spec, ClusterItem)].content == ContentOf(id, spec, ClusterItem)
  }

  lemma ClusterIsThere(p: Proc, s: State, o: Oracle)
    requires p.Working? && p.pos == DATABASE_POS && !p.pass.inst.spec.database.IsExternal() && p.sub.ToApply?
    requires Position(Step(p, s, o).0) > p.pos
    ensures DatabaseThere(p.pass.id, p.pass.inst.spec, Step(p, s, o).1)
  {
    ApplyIsStep(p, s, o);
    var r := ApplyItem(p.pass, p.pos, s, o);
    assert r.1.Got?;
  }

  /** A pass gets past the database step only by a request that finds the database there. */
  lemma FoundIsThere(p: Proc, s: State, o: Oracle)
    requires FindsDatabase(p, Step(p, s, o).0)
    ensures DatabaseThere(p.pass.id, p.pass.inst.spec, Step(p, s, o).1)
  {
    StepGoes(p, s, o);
    assert p.pos == DATABASE_POS;
    if p.pass.inst.spec.database.IsExternal() {
      CredentialsMoveOn(p, s, o);
    } else if p.sub.First? {
      CrdWaits(p, s, o);
    } else {
      ClusterIsThere(p, s, o);
    }
  }

  ghost predicate DeploymentInv(w: World, k: Key) {
    && (k in w.state.objs ==> Backed(w, k))
    && (forall pid :: pid in w.procs && Position(w.procs[pid]) > DATABASE_POS ==>
          Current(w.procs[pid]).Some? && Current(w.procs[pid]).value.id in w.usable)
  }

  lemma StepUsable(p: Proc, s: State, o: Oracle)
    ensures var p' := Step(p, s, o).0;
            Position(p') > DATABASE_POS ==>
              Current(p').Some? && Current(p).Some? && Current(p').value.id == Current(p).value.id
              && (Position(p) > DATABASE_POS || FindsDatabase(p, p'))
  {
    if p.Working? {
      StepGoes(p, s, o);
    }
  }

  ghost predicate Backed(w: World, k: Key) {
    exists id :: id in w.usable && Survival.Reproducible(id, k)
  }

  /** A Deployment comes into being only past the database step, under the instance's name or its cache's. */
  lemma DeploymentWritten(p: Proc, after: Object, o: Oracle)
    requires p.Working? && Written(p, None, after, o) && Target(p).kind.DeploymentKind?
    ensures p.pos > DATABASE_POS && Survival.Reproducible(p.pass.id, Target(p))
  {
  }

  lemma RequestDeployment(w: World, pid: nat, o: Oracle, k: Key)
    requires Enabled(w, Request(pid, o)) && DeploymentInv(w, k)
    requires k in Next(w, Request(pid, o)).state.objs && k.kind.DeploymentKind?
    ensures Backed(Next(w, Request(pid, o)), k)
  {
    var p := w.procs[pid];
    var w' := Next(w, Request(pid, o));
    if k in w.state.objs {
      BackedStays(w, w', k);
    } else {
      StepWritesAt(p, w.state, o, k);
      DeploymentWritten(p, w'.state.objs[k], o);
      assert Position(p) > DATABASE_POS;
    }
  }

  lemma BackedStays(w: World, w': World, k: Key)
    requires Backed(w, k) && w.usable <= w'.usable
    ensures Backed(w', k)
  {
    var id :| id in w.usable && Survival.Reproducible(id, k);
    assert id in w'.usable;
  }

  lemma RequestUsable(w: World, pid: nat, o: Oracle, q: nat, k: Key)
    requires Enabled(w, Request(pid, o)) && DeploymentInv(w, k)
    requires q in w.procs && Position(Next(w, Request(pid, o)).procs[q]) > DATABASE_POS
    ensures var w' := Next(w, Request(pid, o)); Current(w'.procs[q]).Some? && Current(w'.procs[q]).value.id in w'.usable
  {
    StepUsable(w.procs[pid], w.state, o);
    assert Position(w.procs[q]) > DATABASE_POS || q == pid;
  }

  /** Somebody else may edit the object where it is, but brings none in. */
  predicate OnlyEdited(w: World, evs: seq<Event>, k: Key)
    requires Legal(w, evs)
    decreases |evs|
  {
    || evs == []
    || ((evs[0].Put? && evs[0].k == k ==> k in w.state.objs) && OnlyEdited(Next(w, evs[0]), evs[1..], k))
  }

  lemma NextDeployment(w: World, e: Event, k: Key)
    requires Enabled(w, e) && DeploymentInv(w, k) && k.kind.DeploymentKind?
    requires e.Put? && e.k == k ==> k in w.state.objs
    ensures DeploymentInv(Next(w, e), k)
  {
    var w' := Next(w, e);
    if k in w'.state.objs {
      if e.Request? {
        RequestDeployment(w, e.pid, e.o, k);
      } else {
        BackedStays(w, w', k);
      }
    }
    forall q | q in w'.procs && Position(w'.procs[q]) > DATABASE_POS
      ensures Current(w'.procs[q]).Some? && Current(w'.procs[q]).value.id in w'.usable
    {
      if e.Request? {
        RequestUsable(w, e.pid, e.o, q, k);
      }
    }
  }

  lemma {:induction false} ExecDeployment(w: World, evs: seq<Event>, k: Key)
    requires DeploymentInv(w, k) && Legal(w, evs) && k.kind.DeploymentKind? && OnlyEdited(w, evs, k)
    ensures DeploymentInv(Exec(w, evs), k)
    decreases |evs|
  {
    if evs != [] {
      NextDeployment(w, evs[0], k);
      ExecDeployment(Next(w, evs[0]), evs[1..], k);
    }
  }

  /** With event i a pass for the instance got past its database step, and the database was there. */
  ghost predicate FoundAt(w: World, evs: seq<Event>, i: nat, id: Id) {
    && i < |evs| && Legal(w, evs[..i])
    && evs[i].Request?
    && var a := Exec(w, evs[..i]);
    && evs[i].pid in a.procs && FindsFor(a.procs[evs[i].pid], a.state, evs[i].o, id)
  }

  ghost predicate FindsFor(p: Proc, s: State, o: Oracle, id: Id) {
    && FindsDatabase(p, Step(p, s, o).0) && p.pass.id == id
    && DatabaseThere(id, p.pass.inst.spec, Step(p, s, o).1)
  }

  lemma NextUsable(w: World, e: Event, id: Id)
    requires Enabled(w, e) && id in Next(w, e).usable && id !in w.usable
    ensures e.Request? && e.pid in w.procs && FindsFor(w.procs[e.pid], w.state, e.o, id)
  {
    FoundIsThere(w.procs[e.pid], w.state, e.o);
  }

  lemma FoundLater(w: World, evs: seq<Event>, i: nat, id: Id)
    requires evs != [] && Enabled(w, evs[0]) && FoundAt(Next(w, evs[0]), evs[1..], i, id)
    ensures FoundAt(w, evs, i + 1, id)
  {
    assert evs[..i + 1] == [evs[0]] + evs[1..][..i];
    assert Exec(w, evs[..i + 1]) == Exec(Next(w, evs[0]), evs[1..][..i]);
  }

  lemma {:induction false} UsableWasFound(w: World, evs: seq<Event>, id: Id)
    requires Legal(w, evs) && id in Exec(w, evs).usable && id !in w.usable
    ensures exists i: nat :: FoundAt(w, evs, i, id)
    decreases |evs|
  {
    assert evs != [];
    if id in Next(w, evs[0]).usable {
      NextUsable(w, evs[0], id);
      assert evs[..0] == [];
      assert FoundAt(w, evs, 0, id);
    } else {
      UsableWasFound(Next(w, evs[0]), evs[1..], id);
      var i: nat :| FoundAt(Next(w, evs[0]), evs[1..], i, id);
      FoundLater(w, evs, i, id);
    }
  }

  /**
   * In every run each Deployment the operator has made bears the name of an instance, or of its
   * cache, for which a request of the run has found the database there.
   */
  lemma DeploymentsNeedDatabase(evs: seq<Event>, k: Key)
    requires Legal(EMPTY, evs) && k in Exec(EMPTY, evs).state.objs && k.kind.DeploymentKind?
    requires OnlyEdited(EMPTY, evs, k)
    ensures exists id, i: nat :: Survival.Reproducible(id, k) && FoundAt(EMPTY, evs, i, id)
  {
    ExecDeployment(EMPTY, evs, k);
    var id :| id in Exec(EMPTY, evs).usable && Survival.Reproducible(id, k);
    UsableWasFound(EMPTY, evs, id);
  }
}
