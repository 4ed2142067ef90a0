// Runs that reach the exact edges of the promises: a pass left to itself is such a run, and the
// failures that the exact conditions leave are built from it, request by request.
module Edges {
  import opened Base
  import opened Api
  import opened Names
  import opened Resources
  import opened Server
  import opened Protocol
  import opened Steps
  import opened Passes
  import opened Promises
  import opened Convergence
  import opened World
  import opened Deletion
  import Obstacles
  import Survival
  import Statuses

  // ----- Putting runs together -----

  /** The events lead from w to t. */
  ghost predicate Reaches(w: World, evs: seq<Event>, t: World) {
    Legal(w, evs) && Exec(w, evs) == t
  }

  lemma One(w: World, e: Event)
    requires Enabled(w, e)
    ensures Reaches(w, [e], Next(w, e))
  {
    assert [e][1..] == [];
  }

  lemma Then(w: World, a: seq<Event>, t: World, b: seq<Event>, u: World)
    requires Reaches(w, a, t) && Reaches(t, b, u)
    ensures Reaches(w, a + b, u)
  {
    LegalConcat(w, a, b);
  }

  lemma Spawned(w: World, pid: nat, id: Id) returns (t: World)
    requires pid !in w.procs
    ensures Reaches(w, [Spawn(pid, id)], t) && t == w.(procs := w.procs[pid := Starting(id)])
  {
    One(w, Spawn(pid, id));
    t := Next(w, Spawn(pid, id));
  }

  lemma Created(w: World, id: Id, uid: Uid, spec: Spec) returns (t: World)
    requires id !in w.state.insts && uid !in w.used
    ensures Reaches(w, [CreateInstance(id, uid, spec)], t)
    ensures t == w.(state := w.state.(insts := w.state.insts[id := Instance(uid, 1, spec, EMPTY_STATUS)]),
                    used := w.used + {uid}, born := w.born[uid := id])
  {
    One(w, CreateInstance(id, uid, spec));
    t := Next(w, CreateInstance(id, uid, spec));
  }

  /** The instance is deleted and created again. */
  lemma Replaced(w: World, id: Id, uid: Uid, spec: Spec) returns (t: World)
    requires id in w.state.insts && uid !in w.used
    ensures Reaches(w, [DeleteInstance(id)] + [CreateInstance(id, uid, spec)], t)
    ensures t == w.(state := w.state.(insts := w.state.insts[id := Instance(uid, 1, spec, EMPTY_STATUS)]),
                    used := w.used + {uid}, born := w.born[uid := id])
  {
    One(w, DeleteInstance(id));
    var gone := Next(w, DeleteInstance(id));
    t := Created(gone, id, uid, spec);
    Then(w, [DeleteInstance(id)], gone, [CreateInstance(id, uid, spec)], t);
    assert gone.state.insts[id := Instance(uid, 1, spec, EMPTY_STATUS)]
        == w.state.insts[id := Instance(uid, 1, spec, EMPTY_STATUS)];
  }

  // ----- A pass left to itself, as a run -----

  /** The script gives out no UID twice, and from here on none that is in use. */
  ghost predicate Supplies(script: Script, at: nat, used: set<Uid>) {
    && (forall i: nat, j: nat :: i != j ==> script(i).uid != script(j).uid)
    && (forall i: nat :: at <= i ==> script(i).uid !in used)
  }

  ghost predicate OnlyFrom(script: Script, before: set<Uid>, after: set<Uid>) {
    forall u :: u in after ==> u in before || exists i: nat :: script(i).uid == u
  }

  /** Nothing but the requests of the one pass. */
  predicate OnlyRequests(evs: seq<Event>) {
    forall i :: 0 <= i < |evs| ==> evs[i].Request?
  }

  /** The events are the requests of process `pid`, and lead to where the pass ends. */
  ghost predicate PassRuns(w: World, evs: seq<Event>, t: World, pid: nat, script: Script, r: Outcome) {
    && Reaches(w, evs, t) && OnlyRequests(evs)
    && t.state == r.state && t.procs == w.procs[pid := r.proc] && t.born == w.born
    && Supplies(script, r.at, t.used) && OnlyFrom(script, w.used, t.used)
  }

  lemma OneRequest(w: World, pid: nat, script: Script, at: nat) returns (t: World)
    requires pid in w.procs && Fresh(script) && Supplies(script, at, w.used)
    ensures Reaches(w, [Request(pid, script(at))], t)
    ensures t.state == Step(w.procs[pid], w.state, script(at)).1
    ensures t.procs == w.procs[pid := Step(w.procs[pid], w.state, script(at)).0]
    ensures t.born == w.born && t.used == w.used + {script(at).uid}
  {
    One(w, Request(pid, script(at)));
    t := Next(w, Request(pid, script(at)));
  }

  lemma RequestFirst(w: World, o: Oracle, t: World, evs: seq<Event>, u: World, pid: nat, script: Script, at: nat,
                     r: Outcome)
    requires Reaches(w, [Request(pid, o)], t) && PassRuns(t, evs, u, pid, script, r)
    requires pid in w.procs && pid in t.procs && t.procs == w.procs[pid := t.procs[pid]] && t.born == w.born
    requires o == script(at) && t.used == w.used + {o.uid}
    ensures PassRuns(w, [Request(pid, o)] + evs, u, pid, script, r)
  {
    Then(w, [Request(pid, o)], t, evs, u);
  }

  /**
   * What the theorems about one pass say of `Rest` is said of a run: its requests one after the other,
   * with nothing between them.
   */
  lemma {:induction false} PassIsRun(w: World, pid: nat, script: Script, at: nat) returns (evs: seq<Event>, u: World)
    requires pid in w.procs && Fresh(script) && Supplies(script, at, w.used)
    ensures PassRuns(w, evs, u, pid, script, Rest(w.procs[pid], w.state, script, at))
    decreases Remaining(w.procs[pid])
  {
    var p := w.procs[pid];
    if p.Finished? {
      evs, u := [], w;
      assert w.procs[pid := p] == w.procs;
    } else {
      var t := OneRequest(w, pid, script, at);
      RestStep(p, w.state, script, at);
      var rest;
      rest, u := PassIsRun(t, pid, script, at + 1);
      evs := [Request(pid, script(at))] + rest;
      RequestFirst(w, script(at), t, rest, u, pid, script, at, Rest(p, w.state, script, at));
    }
  }

  // ----- A full pass from a state with nothing in its way -----

  function Tag(n: nat): Uid {
    seq(n, i => 'u')
  }

  const SMOOTH: Script := (n: nat) => Oracle(NoFault, Tag(n), Some(seq(SECRET_KEY_LENGTH, i => 0 as bv8)), 0, "")

  /** The UIDs of what is not created by a pass. */
  const OWN_UIDS := {"a", "b", "c", "d", "e"}

  lemma SmoothIsSmooth()
    ensures Smooth(SMOOTH) && Honest(SMOOTH) && Fresh(SMOOTH)
    ensures forall i: nat, j: nat :: i != j ==> SMOOTH(i).uid != SMOOTH(j).uid
    ensures forall i: nat :: SMOOTH(i).uid !in OWN_UIDS
  {
    forall i: nat ensures SMOOTH(i).uid !in OWN_UIDS {
      assert |Tag(i)| == i;
      assert i == 1 ==> Tag(i)[0] == 'u';
    }
    forall i: nat, j: nat | i != j ensures SMOOTH(i).uid != SMOOTH(j).uid {
      assert |Tag(i)| == i && |Tag(j)| == j;
    }
  }

  /** Nobody else has put owner references on anything but a Secret. */
  predicate NoOthers(s: State) {
    forall k :: k in s.objs && !k.kind.SecretKind? ==> s.objs[k].others == []
  }

  lemma {:induction false} RestNoOthers(p: Proc, s: State, script: Script, at: nat)
    requires NoOthers(s)
    ensures NoOthers(Rest(p, s, script, at).state)
    decreases Remaining(p)
  {
    if !p.Finished? {
      var (p', s') := Step(p, s, script(at));
      StepWrites(p, s, script(at));
      RestNoOthers(p', s', script, at + 1);
    }
  }

  /** The name leaves room for every suffix. */
  predicate RoomForSuffixes(id: Id) {
    ValidName(id.name) && |id.name| + 1 + |Suffix(SecretKeyPart)| <= MAX_SUBDOMAIN_LENGTH
  }

  /** What the database step needs is there: CloudNativePG, or the credentials. */
  predicate DatabaseAtHand(id: Id, s: State)
    requires id in s.insts
  {
    var spec := s.insts[id].spec;
    var k := KeyOf(id, spec, ExternalDbItem);
    if spec.database.IsExternal() then k in s.objs && HasCredentials(s.objs[k]) else CRD_KEY in s.objs
  }

  lemma ReadyForPass(id: Id, s: State)
    requires RoomForSuffixes(id) && id in s.insts && DatabaseAtHand(id, s) && NoOthers(s)
    ensures Completable(Subject(id, s), s)
  {
    DerivedNameValidIffShort(id.name, SecretKeyPart);
    DerivedNameValidIffShort(id.name, AdminPart);
    DerivedNameValidIffShort(id.name, DbPart);
    var pass := Subject(id, s);
    forall j | 0 <= j < Length(pass.inst.spec) ensures Obstacles.Unopposed(pass, j, s) {
      var item := Plan(pass.inst.spec, j);
      assert item.SecretItem? || item.ExternalDbItem? || Others(Find(s, KeyOf(id, pass.inst.spec, item))) == [];
    }
  }

  /** A pass has gone all the way: everything is as asked, and nothing that was there has gone. */
  ghost predicate Completed(id: Id, s: State, t: State, r: Proc) {
    && id in s.insts && id in t.insts && SameSubject(Subject(id, s), Subject(id, t))
    && t.insts.Keys == s.insts.Keys && t.live == s.live && NoOthers(t) && AllKept(s, t)
    && DoneBefore(Subject(id, s), 0, Length(s.insts[id].spec), t)
    && r.Finished? && r.last.Some? && SameRun(r.last.value, Subject(id, s)) && r.pos == Length(s.insts[id].spec)
  }

  lemma PassCompletes(id: Id, s: State, at: nat)
    requires RoomForSuffixes(id) && id in s.insts && DatabaseAtHand(id, s) && NoOthers(s)
    ensures var r := Reconciled(id, s, SMOOTH, at); Completed(id, s, r.state, r.proc)
  {
    SmoothIsSmooth();
    ReadyForPass(id, s);
    AllBetweenSelf(Subject(id, s), s);
    SmoothPassReachesGoals(id, s, s, SMOOTH, at);
    SmoothPassCompletes(id, s, SMOOTH, at);
    RestNoOthers(Starting(id), s, SMOOTH, at);
    ReconciledIsRun(id, s, SMOOTH, at);
    CutInsts(Starting(id), s, SMOOTH, at, Remaining(Starting(id)));
    CutSubject(Starting(id), s, SMOOTH, at, Remaining(Starting(id)), id);
    CutAllKept(Starting(id), s, SMOOTH, at, Remaining(Starting(id)));
  }

  lemma {:induction false} CutInsts(p: Proc, s: State, script: Script, at: nat, n: nat)
    ensures Cut(p, s, script, at, n).state.insts.Keys == s.insts.Keys && Cut(p, s, script, at, n).state.live == s.live
    decreases n
  {
    if n > 0 && !p.Finished? {
      var (p', s') := Step(p, s, script(at));
      StepWrites(p, s, script(at));
      StepInstances(p, s, script(at), Id("", ""));
      CutInsts(p', s', script, at + 1, n - 1);
    }
  }

  /** The world after one more full pass of the instance, by process `pid`. */
  ghost predicate PassedThrough(w: World, t: World, id: Id, pid: nat, at: nat) {
    && id in w.state.insts && pid in t.procs
    && Completed(id, w.state, t.state, t.procs[pid])
    && t.state == Reconciled(id, w.state, SMOOTH, at).state
    && t.procs[pid] == Reconciled(id, w.state, SMOOTH, at).proc
    && t.procs == w.procs[pid := t.procs[pid]] && t.born == w.born
    && OnlyFrom(SMOOTH, w.used, t.used)
    && exists next :: Supplies(SMOOTH, next, t.used)
  }

  /** Nobody but the operator writes to any object. */
  predicate NoPuts(evs: seq<Event>) {
    forall i :: 0 <= i < |evs| ==> !evs[i].Put?
  }

  lemma FullPass(w: World, id: Id, pid: nat, at: nat) returns (evs: seq<Event>, t: World)
    requires pid !in w.procs && Supplies(SMOOTH, at, w.used)
    requires RoomForSuffixes(id) && id in w.state.insts && DatabaseAtHand(id, w.state) && NoOthers(w.state)
    ensures Reaches(w, evs, t) && NoPuts(evs) && PassedThrough(w, t, id, pid, at)
  {
    SmoothIsSmooth();
    var begun := Spawned(w, pid, id);
    var requests;
    requests, t := PassIsRun(begun, pid, SMOOTH, at);
    Then(w, [Spawn(pid, id)], begun, requests, t);
    evs := [Spawn(pid, id)] + requests;
    PassCompletes(id, w.state, at);
    PassedThroughFrom(w, begun, t, id, pid, at);
  }

  lemma PassedThroughFrom(w: World, begun: World, t: World, id: Id, pid: nat, at: nat)
    requires pid !in w.procs && id in w.state.insts && begun == w.(procs := w.procs[pid := Starting(id)])
    requires var r := Reconciled(id, w.state, SMOOTH, at);
             && t.state == r.state && t.procs == begun.procs[pid := r.proc] && t.born == begun.born
             && Supplies(SMOOTH, r.at, t.used) && OnlyFrom(SMOOTH, begun.used, t.used)
             && Completed(id, w.state, r.state, r.proc)
    ensures PassedThrough(w, t, id, pid, at)
  {
    assert t.procs == w.procs[pid := t.procs[pid]];
  }

  // ----- The worlds in which the runs begin -----

  /** Nothing but these owners. */
  function OwnersOnly(owners: set<Uid>): World {
    EMPTY.(state := EMPTY.state.(live := owners), used := owners)
  }

  /** CloudNativePG is installed, one more object is there, and the instance is created. */
  ghost predicate Opened(w: World, owners: set<Uid>, id: Id, spec: Spec, k: Key, obj: Object) {
    && w.procs == map[] && w.used == {"a", "c", "d"} + owners && w.born == map["a" := id]
    && w.state.insts == map[id := Instance("a", 1, spec, EMPTY_STATUS)] && w.state.live == owners
    && w.state.objs == map[CRD_KEY := Object("c", [], [], CrdContent, 0), k := obj]
  }

  lemma Open(owners: set<Uid>, id: Id, spec: Spec, k: Key, obj: Object) returns (evs: seq<Event>, t: World)
    requires k != CRD_KEY && obj.uid == "d" && owners <= {"e"}
    ensures Reaches(OwnersOnly(owners), evs, t) && Opened(t, owners, id, spec, k, obj)
    ensures evs == [Event.Put(CRD_KEY, Object("c", [], [], CrdContent, 0))] + [Event.Put(k, obj)]
                   + [CreateInstance(id, "a", spec)]
  {
    var installed, put := Event.Put(CRD_KEY, Object("c", [], [], CrdContent, 0)), Event.Put(k, obj);
    var w0 := OwnersOnly(owners);
    One(w0, installed);
    var w1 := Next(w0, installed);
    One(w1, put);
    var w2 := Next(w1, put);
    Then(w0, [installed], w1, [put], w2);
    t := Created(w2, id, "a", spec);
    evs := [installed] + [put] + [CreateInstance(id, "a", spec)];
    Then(w0, [installed] + [put], w2, [CreateInstance(id, "a", spec)], t);
  }

  lemma OpenSupplies(w: World, owners: set<Uid>, id: Id, spec: Spec, k: Key, obj: Object)
    requires Opened(w, owners, id, spec, k, obj) && owners <= {"e"}
    ensures Supplies(SMOOTH, 0, w.used)
  {
    SmoothIsSmooth();
  }

  /** The instance is there, a full pass of its incarnation "a" is behind it, and more passes can run. */
  ghost predicate Settling(w: World, id: Id) {
    && Booked(w) && NoOthers(w.state) && w.state.live == {} && w.state.insts.Keys == {id}
    && w.state.insts[id].uid == "a" && w.born == map["a" := id] && "b" !in w.used
    && w.procs.Keys == {0} && w.procs[0].Finished?
    && CRD_KEY in w.state.objs
    && exists at :: Supplies(SMOOTH, at, w.used)
  }

  lemma FirstPass(id: Id, spec: Spec, k: Key, obj: Object) returns (evs: seq<Event>, w: World, t: World)
    requires k != CRD_KEY && obj.uid == "d" && (!k.kind.SecretKind? ==> obj.others == [])
    requires RoomForSuffixes(id) && !spec.database.IsExternal()
    ensures Reaches(EMPTY, evs, t) && forall e :: e in evs && e.Put? ==> e.k == CRD_KEY || e.k == k
    ensures Opened(w, {}, id, spec, k, obj) && PassedThrough(w, t, id, 0, 0) && Settling(t, id)
  {
    evs, w, t := OpenAndPass({}, id, spec, k, obj);
    RunBooked(evs, t);
    OpenedIsBasic(w, id, spec, k, obj);
    SettlingAfter(w, t, id);
  }

  lemma OpenAndPass(owners: set<Uid>, id: Id, spec: Spec, k: Key, obj: Object)
    returns (evs: seq<Event>, w: World, t: World)
    requires owners <= {"e"} && k != CRD_KEY && obj.uid == "d" && (!k.kind.SecretKind? ==> obj.others == [])
    requires RoomForSuffixes(id) && !spec.database.IsExternal()
    ensures Reaches(OwnersOnly(owners), evs, t) && forall e :: e in evs && e.Put? ==> e.k == CRD_KEY || e.k == k
    ensures Opened(w, owners, id, spec, k, obj) && PassedThrough(w, t, id, 0, 0)
  {
    var opening;
    opening, w := Open(owners, id, spec, k, obj);
    OpenSupplies(w, owners, id, spec, k, obj);
    var first;
    first, t := FullPass(w, id, 0, 0);
    Then(OwnersOnly(owners), opening, w, first, t);
    evs := opening + first;
  }

  lemma RunBooked(evs: seq<Event>, t: World)
    requires Reaches(EMPTY, evs, t)
    ensures Booked(t)
  {
    EmptyBooked();
    ExecBooked(EMPTY, evs);
  }

  /** The one instance is there, as incarnation "a", and CloudNativePG is installed. */
  predicate Basic(w: World, id: Id) {
    && w.procs == map[] && w.born == map["a" := id] && "b" !in w.used
    && w.state.insts.Keys == {id} && w.state.insts[id].uid == "a" && w.state.live == {}
    && CRD_KEY in w.state.objs
  }

  lemma OpenedIsBasic(w: World, id: Id, spec: Spec, k: Key, obj: Object)
    requires Opened(w, {}, id, spec, k, obj)
    ensures Basic(w, id)
  {
  }

  lemma SettlingAfter(w: World, t: World, id: Id)
    requires Basic(w, id) && PassedThrough(w, t, id, 0, 0) && Booked(t)
    ensures Settling(t, id)
  {
    NotGivenOut(w.used, t.used);
    CrdKept(w.state, t.state);
  }

  lemma NotGivenOut(before: set<Uid>, after: set<Uid>)
    requires OnlyFrom(SMOOTH, before, after) && "b" !in before
    ensures "b" !in after
  {
    SmoothIsSmooth();
  }

  lemma CrdKept(s: State, t: State)
    requires CRD_KEY in s.objs && AllKept(s, t)
    ensures CRD_KEY in t.objs
  {
  }

  // ----- Retain does not free a dead incarnation's Secret -----

  /** The Secret names incarnation "a" as its one owner. */
  ghost predicate OwnedWorld(w: World, id: Id) {
    Settling(w, id)
    && GeneratedKey(id, SecretKey) in w.state.objs
    && w.state.objs[GeneratedKey(id, SecretKey)].Owners() == [ControllerRef(id, "a")]
  }

  /** Nobody else writes to the instance's governed objects. */
  predicate Untouched(evs: seq<Event>, id: Id) {
    forall e :: e in evs && e.Put? ==> !Stateful(id, e.k)
  }

  lemma {:induction false} UntouchedUndisturbed(w: World, evs: seq<Event>, id: Id, k: Key)
    requires Legal(w, evs) && Untouched(evs, id) && Stateful(id, k)
    ensures Undisturbed(w, evs, k, true)
    decreases |evs|
  {
    if evs != [] {
      UntouchedUndisturbed(Next(w, evs[0]), evs[1..], id, k);
    }
  }

  /** An object that is nobody's concern. */
  const ELSEWHERE := Key(CrdKind, "", "")

  lemma RunStateful(evs: seq<Event>, t: World, id: Id, k: Key)
    requires Reaches(EMPTY, evs, t) && Untouched(evs, id) && Stateful(id, k)
    ensures StatefulInv(t, id, k)
  {
    EmptyBooked();
    UntouchedUndisturbed(EMPTY, evs, id, k);
    ExecStateful(EMPTY, evs, id, k, true);
  }

  lemma OwnedRun(id: Id, spec: Spec) returns (evs: seq<Event>, t: World)
    requires RoomForSuffixes(id) && Environment.GeneratesSecretKey(spec) && !spec.database.IsExternal()
    requires spec.deletionPolicy == Delete
    ensures Reaches(EMPTY, evs, t) && Untouched(evs, id) && OwnedWorld(t, id)
  {
    var w;
    evs, w, t := FirstPass(id, spec, ELSEWHERE, Object("d", [], [], CrdContent, 0));
    RunStateful(evs, t, id, GeneratedKey(id, SecretKey));
    SoleOwner(w, t, id, spec);
  }

  lemma SoleOwner(w: World, t: World, id: Id, spec: Spec)
    requires PassedThrough(w, t, id, 0, 0) && StatefulInv(t, id, GeneratedKey(id, SecretKey)) && Settling(t, id)
    requires w.state.insts[id].spec == spec && Environment.GeneratesSecretKey(spec) && spec.deletionPolicy == Delete
    ensures OwnedWorld(t, id)
  {
    var k := GeneratedKey(id, SecretKey);
    assert Done(Subject(id, w.state), 0, t.state);
    assert OwnershipKnown(t, id, t.state.objs[k]);
    assert t.state.objs[k].Owners() == t.state.objs[k].applied;
  }

  /** The instance is deleted and created again. */
  lemma Recreate(w: World, id: Id, spec: Spec) returns (evs: seq<Event>, t: World)
    requires OwnedWorld(w, id)
    ensures Reaches(w, evs, t) && NoPuts(evs)
    ensures t.procs == w.procs && t.used == w.used + {"b"} && t.state == Again(w, id, spec)
  {
    t := Replaced(w, id, "b", spec);
    evs := [DeleteInstance(id)] + [CreateInstance(id, "b", spec)];
    assert w.state.insts[id := Instance("b", 1, spec, EMPTY_STATUS)] == map[id := Instance("b", 1, spec, EMPTY_STATUS)];
  }

  /** The state in which the next pass begins. */
  function Again(w: World, id: Id, spec: Spec): State {
    State(map[id := Instance("b", 1, spec, EMPTY_STATUS)], w.state.objs, {})
  }

  /**
   * The instance is there under Retain, a pass of this very incarnation has gone all the way, and
   * the Secret is garbage.
   */
  ghost predicate RetainFailed(w: World, id: Id, pid: nat) {
    && id in w.state.insts && w.state.insts[id].spec.deletionPolicy != Delete
    && pid in w.procs && w.procs[pid].Finished? && w.procs[pid].last.Some?
    && var pass := w.procs[pid].last.value;
    && pass.id == id && pass.inst.uid == w.state.insts[id].uid && pass.inst.spec.deletionPolicy != Delete
    && w.procs[pid].pos == Length(pass.inst.spec)
    && Collectable(w.state, GeneratedKey(id, SecretKey))
  }

  lemma SecondPassFails(w: World, id: Id, spec: Spec, at: nat)
    requires RoomForSuffixes(id) && !spec.database.IsExternal() && spec.deletionPolicy != Delete && OwnedWorld(w, id)
    ensures Collectable(Reconciled(id, Again(w, id, spec), SMOOTH, at).state, GeneratedKey(id, SecretKey))
  {
    var s := Again(w, id, spec);
    SmoothIsSmooth();
    PassCompletes(id, s, at);
    assert "a" in w.born;
    assert "a" !in LiveUids(s);
    ReconciledIsRun(id, s, SMOOTH, at);
    Survival.DeadIncarnationsSecretIsCollected(id, s, SMOOTH, at, Remaining(Starting(id)), SecretKey, "a");
  }

  /**
   * For every spec with a generated secret key and a managed database: create the instance under
   * Delete, let a pass go through, delete it, create it again under Retain before garbage collection
   * has run, and let a pass go through. The retained Secret is garbage.
   */
  lemma RetainFailureIsReached(id: Id, spec: Spec)
    requires RoomForSuffixes(id) && Environment.GeneratesSecretKey(spec) && !spec.database.IsExternal()
    ensures exists evs :: Legal(EMPTY, evs) && Untouched(evs, id) && RetainFailed(Exec(EMPTY, evs), id, 1)
  {
    var first, w := OwnedRun(id, spec.(deletionPolicy := Delete));
    var again, t := SecondRun(w, id, spec.(deletionPolicy := Retain));
    Then(EMPTY, first, w, again, t);
    assert Untouched(first + again, id);
  }

  lemma SecondRun(w: World, id: Id, spec: Spec) returns (evs: seq<Event>, u: World)
    requires RoomForSuffixes(id) && !spec.database.IsExternal() && spec.deletionPolicy != Delete && OwnedWorld(w, id)
    ensures Reaches(w, evs, u) && NoPuts(evs) && RetainFailed(u, id, 1)
  {
    var again, t := Recreate(w, id, spec);
    SmoothIsSmooth();
    var at :| Supplies(SMOOTH, at, w.used);
    var pass;
    pass, u := FullPass(t, id, 1, at);
    Then(w, again, t, pass, u);
    SecondPassFails(w, id, spec, at);
    evs := again + pass;
  }

  // ----- Retain does not free a Cluster that the instance no longer uses -----

  /** A Cluster that incarnation "a" owns, and credentials for an external database. */
  ghost predicate ClusterWorld(w: World, id: Id, credentials: Key) {
    && Settling(w, id)
    && Survival.ClusterKey(id) in w.state.objs
    && w.state.objs[Survival.ClusterKey(id)].Owners() == [ControllerRef(id, "a")]
    && credentials in w.state.objs && HasCredentials(w.state.objs[credentials])
  }

  function Credentials(): Object {
    Object("d", [], [], SecretContent(Labels("", ""), map["username" := "", "password" := ""]), 0)
  }

  lemma ClusterRun(id: Id, spec: Spec, credentials: Key) returns (evs: seq<Event>, t: World)
    requires RoomForSuffixes(id) && !spec.database.IsExternal() && spec.deletionPolicy == Delete
             && credentials.kind.SecretKind?
    ensures Reaches(EMPTY, evs, t) && ClusterWorld(t, id, credentials)
    ensures forall e :: e in evs && e.Put? ==> e.k == CRD_KEY || e.k == credentials
  {
    var w;
    evs, w, t := FirstPass(id, spec, credentials, Credentials());
    ClusterOwned(w, t, id, spec, credentials);
  }

  lemma ClusterOwned(w: World, t: World, id: Id, spec: Spec, credentials: Key)
    requires Opened(w, {}, id, spec, credentials, Credentials()) && PassedThrough(w, t, id, 0, 0) && Settling(t, id)
    requires !spec.database.IsExternal() && spec.deletionPolicy == Delete && credentials.kind.SecretKind?
    ensures ClusterWorld(t, id, credentials)
  {
    ClusterDone(id, w.state, t.state);
    CredentialsKept(credentials, w.state, t.state);
  }

  lemma ClusterDone(id: Id, s: State, t: State)
    requires id in s.insts && DoneBefore(Subject(id, s), 0, Length(s.insts[id].spec), t) && NoOthers(t)
    requires !s.insts[id].spec.database.IsExternal() && s.insts[id].spec.deletionPolicy == Delete
    ensures var k := Survival.ClusterKey(id);
            k in t.objs && t.objs[k].Owners() == [ControllerRef(id, s.insts[id].uid)]
  {
    assert Done(Subject(id, s), DATABASE_POS, t);
    var obj := t.objs[Survival.ClusterKey(id)];
    assert obj.Owners() == obj.applied;
  }

  lemma CredentialsKept(k: Key, s: State, t: State)
    requires k.kind.SecretKind? && k in s.objs && HasCredentials(s.objs[k]) && AllKept(s, t)
    ensures k in t.objs && HasCredentials(t.objs[k])
  {
    assert Kept(k, s.objs[k], t.objs[k]);
  }

  lemma ChangedTo(w: World, id: Id, spec: Spec) returns (t: World)
    requires id in w.state.insts
    ensures Reaches(w, [EditSpec(id, spec)], t)
    ensures var inst := w.state.insts[id];
            t == w.(state := w.state.(insts :=
                   w.state.insts[id := inst.(spec := spec, generation := inst.generation + 1)]))
  {
    One(w, EditSpec(id, spec));
    t := Next(w, EditSpec(id, spec));
  }

  lemma DeletedFrom(w: World, id: Id) returns (t: World)
    requires id in w.state.insts
    ensures Reaches(w, [DeleteInstance(id)], t) && t == w.(state := Survival.Deleted(w.state, id))
  {
    One(w, DeleteInstance(id));
    t := Next(w, DeleteInstance(id));
  }

  /** A pass under Retain has gone all the way, the instance has been deleted, and the Cluster is garbage. */
  ghost predicate ClusterLost(w: World, id: Id, pid: nat) {
    && pid in w.procs && w.procs[pid].Finished? && w.procs[pid].last.Some?
    && var pass := w.procs[pid].last.value;
    && pass.id == id && pass.inst.spec.deletionPolicy != Delete && w.procs[pid].pos == Length(pass.inst.spec)
    && id !in w.state.insts
    && Collectable(w.state, Survival.ClusterKey(id))
  }

  /** The spec asks for Retain, and has moved to the external database. */
  predicate MovedOut(id: Id, spec: Spec, credentials: Key) {
    && spec.deletionPolicy != Delete && spec.database.IsExternal()
    && KeyOf(id, spec, ExternalDbItem) == credentials
  }

  /** The instance is moved to the external database, and a pass goes through. */
  lemma Moved(w: World, id: Id, spec: Spec, credentials: Key)
    returns (evs: seq<Event>, moved: World, done: World, at: nat)
    requires RoomForSuffixes(id) && ClusterWorld(w, id, credentials) && MovedOut(id, spec, credentials)
    ensures moved.state.objs == w.state.objs && moved.state.live == w.state.live
    ensures moved.state.insts.Keys == {id} && moved.state.insts[id].uid == "a" && moved.state.insts[id].spec == spec
    ensures Reaches(w, evs, done) && PassedThrough(moved, done, id, 1, at)
  {
    moved := ChangedTo(w, id, spec);
    at :| Supplies(SMOOTH, at, w.used);
    var pass;
    pass, done := FullPass(moved, id, 1, at);
    Then(w, [EditSpec(id, spec)], moved, pass, done);
    evs := [EditSpec(id, spec)] + pass;
  }

  lemma MovedPass(w: World, id: Id, spec: Spec, credentials: Key) returns (evs: seq<Event>, t: World)
    requires RoomForSuffixes(id) && ClusterWorld(w, id, credentials) && MovedOut(id, spec, credentials)
    ensures Reaches(w, evs, t) && ClusterLost(t, id, 1)
  {
    var pass, moved, done, at := Moved(w, id, spec, credentials);
    t := DeletedFrom(done, id);
    Then(w, pass, done, [DeleteInstance(id)], t);
    evs := pass + [DeleteInstance(id)];
    OnlyOwnerGone(w, moved, id);
    MovedGarbage(id, moved.state, at);
  }

  lemma MovedGarbage(id: Id, s: State, at: nat)
    requires id in s.insts && s.insts[id].uid == "a" && "a" !in LiveUids(Survival.Deleted(s, id))
    requires s.insts[id].spec.deletionPolicy != Delete && s.insts[id].spec.database.IsExternal()
    requires Survival.ClusterKey(id) in s.objs
    requires s.objs[Survival.ClusterKey(id)].Owners() == [ControllerRef(id, "a")]
    ensures Collectable(Survival.Deleted(Reconciled(id, s, SMOOTH, at).state, id), Survival.ClusterKey(id))
  {
    SmoothIsSmooth();
    ReconciledIsRun(id, s, SMOOTH, at);
    Survival.FrozenClusterIsCollected(id, s, SMOOTH, at, Remaining(Starting(id)));
  }

  /** Nothing but the instance has its UID. */
  lemma OnlyOwnerGone(w: World, t: World, id: Id)
    requires Settling(w, id) && t.state.objs == w.state.objs && t.state.live == w.state.live
    requires t.state.insts.Keys == w.state.insts.Keys
    ensures "a" !in LiveUids(Survival.Deleted(t.state, id))
  {
    assert "a" in w.born;
  }

  /**
   * For every spec with a managed database: create the instance under Delete, let a pass go through,
   * change it to Retain and an external database, let a pass go through, and delete it. The Cluster
   * is garbage, although the policy in force was Retain.
   */
  lemma ClusterFailureIsReached(id: Id, spec: Spec, ext: ExternalDatabase)
    requires RoomForSuffixes(id) && !spec.database.IsExternal()
    ensures exists evs :: Legal(EMPTY, evs) && ClusterLost(Exec(EMPTY, evs), id, 1)
  {
    var credentials := Key(SecretKind, id.ns, ext.credentials);
    var first, w := ClusterRun(id, spec.(deletionPolicy := Delete), credentials);
    var moved := spec.(deletionPolicy := Retain, database := DatabaseSpec(None, Some(ext)));
    var second, t := MovedPass(w, id, moved, credentials);
    Then(EMPTY, first, w, second, t);
  }

  // ----- A patch of a Secret loses others' references -----

  function Reference(): OwnerReferences.OwnerReference {
    OwnerReferences.OwnerReference("v1", "ConfigMap", "settings", "e", None, None)
  }

  /** A Secret at a derived name that belongs to somebody's ConfigMap. */
  function Foreign(): Object {
    Object("d", [], [Reference()], SecretContent(Labels("", ""), map[]), 0)
  }

  /**
   * For every spec with a managed database and Delete: somebody's ConfigMap is there, and a Secret
   * that belongs to it stands at the name of the generated one. One pass, and that reference is gone,
   * while its owner is still there.
   */
  lemma OthersLossIsReached(id: Id, spec: Spec)
    requires RoomForSuffixes(id) && !spec.database.IsExternal() && spec.deletionPolicy == Delete
    ensures var k := GeneratedKey(id, SecretKey);
            exists evs :: Legal(EMPTY, evs) && k in Exec(EMPTY, evs).state.objs
                          && Exec(EMPTY, evs).state.objs[k].uid == Foreign().uid
                          && Reference().uid in Exec(EMPTY, evs).state.live
                          && Reference() !in Exec(EMPTY, evs).state.objs[k].Owners()
  {
    var k := GeneratedKey(id, SecretKey);
    var appears := OwnerAppears(Reference().uid);
    One(EMPTY, appears);
    var evs, w, t := OpenAndPass({Reference().uid}, id, spec, k, Foreign());
    Then(EMPTY, [appears], OwnersOnly({Reference().uid}), evs, t);
    ForeignPatched(w, t, id, spec);
  }

  lemma ForeignPatched(w: World, t: World, id: Id, spec: Spec)
    requires Opened(w, {Reference().uid}, id, spec, GeneratedKey(id, SecretKey), Foreign())
    requires PassedThrough(w, t, id, 0, 0)
    requires !spec.database.IsExternal() && spec.deletionPolicy == Delete
    ensures var k := GeneratedKey(id, SecretKey);
            && k in t.state.objs && t.state.objs[k].uid == "d" && Reference() !in t.state.objs[k].Owners()
            && Reference().uid in t.state.live
  {
    var k := GeneratedKey(id, SecretKey);
    SmoothIsSmooth();
    assert w.state.objs[k] == Foreign();
    assert Foreign().Owners() == [Reference()];
    assert Kept(k, w.state.objs[k], t.state.objs[k]);
    ReconciledIsRun(id, w.state, SMOOTH, 0);
    Survival.PatchKeepsOthersIff(id, w.state, SMOOTH, 0, Remaining(Starting(id)), SecretKey);
    assert t.state.objs[k].Owners() == [ControllerRef(id, "a")];
  }

  // ----- The order of the status is lost across a recreation -----

  function Answer(uid: Uid, fault: Fault, message: string): Oracle {
    Oracle(fault, uid, None, 0, message)
  }

  /** A pass that fails at its first read, before it stores its status. */
  function FailedPass(id: Id, inst: Instance, message: string): Proc {
    Fail(Begin(id, inst, 0).pass, 0, RequestFailed(message), 0)
  }

  lemma ReadSucceeds(w: World, pid: nat, id: Id, u: Uid) returns (t: World)
    requires pid in w.procs && w.procs[pid] == Starting(id) && id in w.state.insts && u !in w.used
    ensures Reaches(w, [Request(pid, Answer(u, NoFault, ""))], t)
    ensures t == w.(procs := w.procs[pid := Begin(id, w.state.insts[id], 0)], used := w.used + {u})
  {
    var e := Request(pid, Answer(u, NoFault, ""));
    One(w, e);
    t := Next(w, e);
    assert Step(w.procs[pid], w.state, e.o) == (Begin(id, w.state.insts[id], 0), w.state);
  }

  lemma ReadFails(w: World, pid: nat, v: Uid, message: string) returns (t: World)
    requires pid in w.procs && v !in w.used
    requires w.procs[pid].Working? && w.procs[pid].pos == 0 && w.procs[pid].sub.First?
    ensures Reaches(w, [Request(pid, Answer(v, Refused, message))], t)
    ensures t == w.(procs := w.procs[pid := Fail(w.procs[pid].pass, 0, RequestFailed(message), 0)],
                    used := w.used + {v})
  {
    var e := Request(pid, Answer(v, Refused, message));
    One(w, e);
    t := Next(w, e);
    FirstReadFails(w.procs[pid], w.state, e.o);
  }

  lemma FirstReadFails(p: Proc, s: State, o: Oracle)
    requires p.Working? && p.pos == 0 && p.sub.First? && o.fault.Refused?
    ensures Step(p, s, o) == (Fail(p.pass, 0, RequestFailed(o.message), o.now), s)
  {
    assert Step(p, s, o) == StepSecret(p.pass, p.pos, p.sub, s, o);
  }

  /** A pass has read its instance. */
  lemma Begun(w: World, pid: nat, id: Id, u: Uid) returns (evs: seq<Event>, t: World)
    requires pid !in w.procs && id in w.state.insts && u !in w.used
    ensures Reaches(w, evs, t)
    ensures t == w.(procs := w.procs[pid := Begin(id, w.state.insts[id], 0)], used := w.used + {u})
  {
    var w1 := Spawned(w, pid, id);
    t := ReadSucceeds(w1, pid, id, u);
    evs := [Spawn(pid, id)] + [Request(pid, Answer(u, NoFault, ""))];
    Then(w, [Spawn(pid, id)], w1, [Request(pid, Answer(u, NoFault, ""))], t);
    assert t.procs == w.procs[pid := Begin(id, w.state.insts[id], 0)];
  }

  /** The instance is read, and the pass fails at its next request. */
  lemma Attempted(w: World, pid: nat, id: Id, message: string, u: Uid, v: Uid) returns (evs: seq<Event>, t: World)
    requires pid !in w.procs && id in w.state.insts && u !in w.used && v !in w.used && u != v
    ensures Reaches(w, evs, t)
    ensures t == w.(procs := w.procs[pid := FailedPass(id, w.state.insts[id], message)], used := w.used + {u} + {v})
  {
    var begun, w2 := Begun(w, pid, id, u);
    t := ReadFails(w2, pid, v, message);
    var fail := Request(pid, Answer(v, Refused, message));
    evs := begun + [fail];
    Then(w, begun, w2, [fail], t);
    assert t.procs == w.procs[pid := FailedPass(id, w.state.insts[id], message)];
  }

  /** The pass stores its status. */
  lemma Stores(w: World, pid: nat, u: Uid) returns (evs: seq<Event>, t: World)
    requires pid in w.procs && w.procs[pid].Finishing? && w.procs[pid].pass.id in w.state.insts && u !in w.used
    ensures Reaches(w, evs, t)
    ensures var pass := w.procs[pid].pass;
            var inst := w.state.insts[pass.id];
            var stored := inst.(status := Merged(inst.status, pass.inst.status, Observed(pass)));
            && t.state == w.state.(insts := w.state.insts[pass.id := stored])
            && t.procs.Keys == w.procs.Keys && t.used == w.used + {u} && t.born == w.born
  {
    evs := [Request(pid, Answer(u, NoFault, ""))];
    One(w, evs[0]);
    t := Next(w, evs[0]);
  }

  lemma Edited(w: World, id: Id) returns (evs: seq<Event>, t: World)
    requires id in w.state.insts
    ensures Reaches(w, evs, t)
    ensures var inst := w.state.insts[id];
            t == w.(state := w.state.(insts := w.state.insts[id := inst.(generation := inst.generation + 1)]))
  {
    evs := [EditSpec(id, w.state.insts[id].spec)];
    One(w, evs[0]);
    t := Next(w, evs[0]);
  }

  /** The stored status is out of order. */
  ghost predicate OrderLost(evs: seq<Event>, id: Id) {
    Legal(EMPTY, evs) && id in Exec(EMPTY, evs).state.insts && !Statuses.Ordered(Exec(EMPTY, evs).state.insts[id])
  }

  /**
   * A pass that has failed early is about to store its status on the incarnation that has taken its
   * instance's place.
   */
  lemma StoredAcross(evs: seq<Event>, w: World, pid: nat, id: Id, read: Instance, message: string, spec: Spec)
    requires Reaches(EMPTY, evs, w) && id in w.state.insts && pid in w.procs && w.used !! {"b", "z"}
    requires w.procs[pid] == FailedPass(id, read, message)
    requires !Statuses.Ordered(Instance("b", 1, spec,
                               Merged(EMPTY_STATUS, read.status, Observed(FailedPass(id, read, message).pass))))
    ensures exists more :: OrderLost(evs + more, id)
  {
    var again := [DeleteInstance(id)] + [CreateInstance(id, "b", spec)];
    var t := Replaced(w, id, "b", spec);
    Then(EMPTY, evs, w, again, t);
    var last, u := Stores(t, pid, "z");
    Then(w, again, t, last, u);
    Then(EMPTY, evs, w, again + last, u);
    assert OrderLost(evs + (again + last), id);
  }

  /**
   * The generation that was read is ahead of the new incarnation's: edit the instance, let a pass
   * begin, recreate the instance, and let the pass store its status.
   */
  lemma OrderLostAhead(id: Id, spec: Spec)
    ensures exists evs :: OrderLost(evs, id)
  {
    var w1 := Created(EMPTY, id, "a", spec);
    var create := [CreateInstance(id, "a", spec)];
    var edit, w2 := Edited(w1, id);
    Then(EMPTY, create, w1, edit, w2);
    var attempt, w3 := Attempted(w2, 0, id, "", "u", "v");
    Then(EMPTY, create + edit, w2, attempt, w3);
    StoredAcross(create + edit + attempt, w3, 0, id, Instance("a", 2, spec, EMPTY_STATUS), "", spec);
  }

  /** A pass that has read the instance fails at its next request and stores its status. */
  lemma FailedAndStored(w: World, pid: nat, id: Id, message: string, u: Uid, v: Uid, x: Uid)
    returns (evs: seq<Event>, t: World)
    requires pid !in w.procs && id in w.state.insts && {u, v, x} !! w.used && u != v && u != x && v != x
    ensures Reaches(w, evs, t)
    ensures var inst := w.state.insts[id];
            var conditions := FailedPass(id, inst, message).pass.status.conditions;
            var stored := inst.(status := Status(conditions, inst.generation));
            t.state.insts == w.state.insts[id := stored]
    ensures t.used == w.used + {u, v, x} && t.procs.Keys == w.procs.Keys + {pid} && t.born == w.born
  {
    var attempt, w1 := Attempted(w, pid, id, message, u, v);
    var last;
    last, t := Stores(w1, pid, x);
    Then(w, attempt, w1, last, t);
    evs := attempt + last;
    assert w1.procs.Keys == w.procs.Keys + {pid};
  }

  /** A first pass has failed and stored its status. */
  lemma StoredOnce(id: Id, spec: Spec) returns (evs: seq<Event>, t: World)
    ensures Reaches(EMPTY, evs, t)
    ensures t.state.insts == map[id := Instance("a", 1, spec, Status([FailedCondition(1, "x")], 1))]
    ensures t.used == {"a", "u", "v", "w"} && t.procs.Keys == {0} && t.born == map["a" := id]
  {
    var w1 := Created(EMPTY, id, "a", spec);
    var pass;
    pass, t := FailedAndStored(w1, 0, id, "x", "u", "v", "w");
    evs := [CreateInstance(id, "a", spec)] + pass;
    Then(EMPTY, [CreateInstance(id, "a", spec)], w1, pass, t);
    FailedStatus(id, Instance("a", 1, spec, EMPTY_STATUS), "x");
  }

  /**
   * The generations are equal, and still the order is lost: a pass has stored generation 1, so the
   * next pass leaves the generation out of its patch; recreated under it, the instance is given
   * conditions of generation 1 and no generation.
   */
  lemma OrderLostBehind(id: Id, spec: Spec)
    ensures exists evs :: OrderLost(evs, id)
  {
    var evs, w := StoredOnce(id, spec);
    var read := Instance("a", 1, spec, Status([FailedCondition(1, "x")], 1));
    var attempt, t := Attempted(w, 1, id, "y", "uu", "vv");
    Then(EMPTY, evs, w, attempt, t);
    FailedAgain(id, read, "y");
    StoredAcross(evs + attempt, t, 1, id, read, "y", spec);
  }

  /** A stale read of the instance, and the pass fails at its next request. */
  lemma AttemptedBehind(w: World, pid: nat, id: Id, earlier: Instance, message: string, u: Uid, v: Uid)
    returns (evs: seq<Event>, t: World)
    requires pid !in w.procs && Readable(w, id, earlier) && u !in w.used && v !in w.used && u != v
    ensures Reaches(w, evs, t)
    ensures t == w.(procs := w.procs[pid := FailedPass(id, earlier, message)], used := w.used + {u} + {v})
  {
    var w1 := Spawned(w, pid, id);
    var read := Request(pid, Answer(u, StaleRead(earlier), ""));
    One(w1, read);
    var w2 := Next(w1, read);
    assert Step(w1.procs[pid], w1.state, read.o) == (Begin(id, earlier, 0), w1.state);
    t := ReadFails(w2, pid, v, message);
    var fail := Request(pid, Answer(v, Refused, message));
    Then(w, [Spawn(pid, id)], w1, [read], w2);
    Then(w, [Spawn(pid, id)] + [read], w2, [fail], t);
    evs := [Spawn(pid, id)] + [read] + [fail];
    assert t.procs == w.procs[pid := FailedPass(id, earlier, message)];
  }

  /** A second pass has failed for the edited instance and stored its status. */
  lemma StoredTwice(id: Id, spec: Spec) returns (evs: seq<Event>, t: World)
    ensures Reaches(EMPTY, evs, t)
    ensures t.state.insts == map[id := Instance("a", 2, spec, Status([FailedCondition(2, "x")], 2))]
    ensures t.used == {"a", "u", "v", "w", "u2", "v2", "w2"} && t.procs.Keys == {0, 1} && t.born == map["a" := id]
  {
    var once, w := StoredOnce(id, spec);
    var edit, w1 := Edited(w, id);
    Then(EMPTY, once, w, edit, w1);
    var again;
    again, t := FailedAndStored(w1, 1, id, "x", "u2", "v2", "w2");
    Then(EMPTY, once + edit, w1, again, t);
    evs := once + edit + again;
    FailedLater(id, w1.state.insts[id], "x");
  }

  lemma FailedLater(id: Id, inst: Instance, message: string)
    requires inst.status.conditions == [FailedCondition(inst.generation - 1, message)]
    ensures FailedPass(id, inst, message).pass.status.conditions == [FailedCondition(inst.generation, message)]
  {
  }

  /** Conditions of generation 1 land under an observedGeneration of 2, which the patch leaves out. */
  lemma BehindIsOutOfOrder(id: Id, read: Instance, stored: Instance, message: string)
    requires read.generation == 1 && read.status == Status([FailedCondition(1, "x")], 1) && message != "x"
    requires stored.status.observedGeneration == 2
    ensures var pass := FailedPass(id, read, message).pass;
            !Statuses.Ordered(stored.(status := Merged(stored.status, read.status, Observed(pass))))
  {
    FailedAgain(id, read, message);
  }

  /**
   * One incarnation and one pass at a time, but a cache that is behind: the instance is edited and a
   * pass stores generation 2; the next pass reads generation 1 as it was stored, fails for another
   * reason, and its patch leaves conditions of generation 1 under an observedGeneration of 2.
   */
  lemma OrderLostToStaleRead(id: Id, spec: Spec)
    ensures exists evs :: OrderLost(evs, id) && Exec(EMPTY, evs).born == map["a" := id]
  {
    var read := Instance("a", 1, spec, Status([FailedCondition(1, "x")], 1));
    var evs, w := StoredTwice(id, spec);
    var attempt, t := AttemptedBehind(w, 2, id, read, "y", "u3", "v3");
    Then(EMPTY, evs, w, attempt, t);
    var last, end := Stores(t, 2, "w3");
    Then(EMPTY, evs + attempt, t, last, end);
    BehindIsOutOfOrder(id, read, t.state.insts[id], "y");
    assert OrderLost(evs + attempt + last, id);
  }

  function FailedCondition(generation: int, message: string): Condition {
    Condition(Ready, false, generation, SecretsNotReady, RequestFailed(message), 0)
  }

  lemma FailedStatus(id: Id, inst: Instance, message: string)
    requires inst.status == EMPTY_STATUS
    ensures FailedPass(id, inst, message).pass.status.conditions ==
            [FailedCondition(inst.generation, message)]
  {
  }

  lemma FailedAgain(id: Id, inst: Instance, message: string)
    requires |inst.status.conditions| == 1 && inst.status.conditions[0].kind == Ready
    requires inst.status.conditions[0].message != RequestFailed(message)
    ensures var cs := FailedPass(id, inst, message).pass.status.conditions;
            && cs != inst.status.conditions
            && |cs| == 1 && cs[0].kind == Ready && cs[0].generation == inst.generation
  {
  }
}
