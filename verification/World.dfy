// Whole runs: any number of passes interleaved request by request, with everything that can happen
// around them.
module World {
  import opened Base
  import opened Api
  import opened Server
  import opened Protocol
  import Steps
  import Passes

  /**
   * The processes in flight; every UID given out so far, and of which instance those of instances
   * were; and the instances some pass has found a usable database for.
   */
  datatype World = World(state: State, procs: map<nat, Proc>, used: set<Uid>,
                         born: map<Uid, Id>, usable: set<Id>)

  datatype Event =
    | Spawn(pid: nat, id: Id)
    | Request(pid: nat, o: Oracle)
    | Crash(pid: nat)
    | CreateInstance(id: Id, uid: Uid, spec: Spec)
    | EditSpec(id: Id, spec: Spec)
    | DeleteInstance(id: Id)
    | Collect(k: Key)
    | OwnerAppears(uid: Uid)       // an owner that is no instance and no object of the model
    | OwnerGone(uid: Uid)
    | SetReplicas(k: Key, n: int)
    | Put(k: Key, obj: Object)     // by somebody other than the operator
    | Remove(k: Key)

  function Stored(s: State, k: Key, obj: Object): State {
    s.(objs := s.objs[k := obj])
  }

  /**
   * A version of the instance that a cache might hold: some incarnation of it, in any shape the
   * server would store. Its condition list is a map by type, which the server enforces.
   */
  predicate Readable(w: World, id: Id, earlier: Instance) {
    earlier.uid in w.born && w.born[earlier.uid] == id && C.Keyed(earlier.status.conditions)
  }

  predicate Enabled(w: World, e: Event) {
    match e
    case Spawn(pid, id) => pid !in w.procs
    case Request(pid, o) =>
      && pid in w.procs
      && o.uid !in w.used
      && (w.procs[pid].Starting? && o.fault.StaleRead? ==> Readable(w, w.procs[pid].id, o.fault.earlier))
    case Crash(pid) => pid in w.procs
    case CreateInstance(id, uid, _) => id !in w.state.insts && uid !in w.used
    case EditSpec(id, _) => id in w.state.insts
    case DeleteInstance(id) => id in w.state.insts
    case Collect(k) => Collectable(w.state, k)
    case OwnerAppears(uid) => uid !in w.used
    case OwnerGone(uid) => uid in w.state.live
    case SetReplicas(k, _) => k in w.state.objs
    case Put(k, obj) => obj.uid !in w.used || (k in w.state.objs && w.state.objs[k].uid == obj.uid)
    case Remove(k) => k in w.state.objs
  }

  /** Past the database step for the first time. */
  predicate FindsDatabase(p: Proc, p': Proc) {
    p.Working? && p'.Working? && p.pos <= DATABASE_POS < p'.pos
  }

  function Next(w: World, e: Event): World
    requires Enabled(w, e)
  {
    match e
    case Spawn(pid, id) => w.(procs := w.procs[pid := Starting(id)])
    case Request(pid, o) =>
      var p := w.procs[pid];
      var (p', s') := Step(p, w.state, o);
      w.(state := s', procs := w.procs[pid := p'], used := w.used + {o.uid},
         usable := if FindsDatabase(p, p') then w.usable + {p.pass.id} else w.usable)
    case Crash(pid) => w.(procs := w.procs - {pid})
    case CreateInstance(id, uid, spec) =>
      w.(state := w.state.(insts := w.state.insts[id := Instance(uid, 1, spec, EMPTY_STATUS)]),
         used := w.used + {uid}, born := w.born[uid := id])
    case EditSpec(id, spec) =>
      var inst := w.state.insts[id];
      w.(state := w.state.(insts := w.state.insts[id := inst.(spec := spec, generation := inst.generation + 1)]))
    case DeleteInstance(id) => w.(state := w.state.(insts := w.state.insts - {id}))
    case Collect(k) => w.(state := Server.Collect(w.state, k))
    case OwnerAppears(uid) => w.(state := w.state.(live := w.state.live + {uid}), used := w.used + {uid})
    case OwnerGone(uid) => w.(state := w.state.(live := w.state.live - {uid}))
    case SetReplicas(k, n) => w.(state := Stored(w.state, k, w.state.objs[k].(readyReplicas := n)))
    case Put(k, obj) => w.(state := Stored(w.state, k, obj), used := w.used + {obj.uid})
    case Remove(k) => w.(state := w.state.(objs := w.state.objs - {k}))
  }

  predicate Legal(w: World, evs: seq<Event>)
    decreases |evs|
  {
    evs == [] || (Enabled(w, evs[0]) && Legal(Next(w, evs[0]), evs[1..]))
  }

  function Exec(w: World, evs: seq<Event>): World
    requires Legal(w, evs)
    decreases |evs|
  {
    if evs == [] then w else Exec(Next(w, evs[0]), evs[1..])
  }

  lemma {:induction false} LegalPrefix(w: World, evs: seq<Event>, i: nat)
    requires Legal(w, evs) && i <= |evs|
    ensures Legal(w, evs[..i]) && Legal(Exec(w, evs[..i]), evs[i..])
    ensures Exec(Exec(w, evs[..i]), evs[i..]) == Exec(w, evs)
    decreases |evs|
  {
    if i == 0 {
      assert evs[..0] == [] && evs[0..] == evs;
    } else {
      LegalPrefix(Next(w, evs[0]), evs[1..], i - 1);
      assert evs[..i][1..] == evs[1..][..i - 1];
      assert evs[1..][i - 1..] == evs[i..];
    }
  }

  lemma {:induction false} LegalConcat(w: World, a: seq<Event>, b: seq<Event>)
    requires Legal(w, a) && Legal(Exec(w, a), b)
    ensures Legal(w, a + b) && Exec(w, a + b) == Exec(Exec(w, a), b)
    decreases |a|
  {
    if a == [] {
      assert a + b == b;
    } else {
      LegalConcat(Next(w, a[0]), a[1..], b);
      assert (a + b)[1..] == a[1..] + b;
    }
  }

  const EMPTY := World(State(map[], map[], {}), map[], {}, map[], {})

  // ----- Looking back -----

  predicate Concerns(e: Event, pid: nat) {
    (e.Spawn? || e.Request? || e.Crash?) && e.pid == pid
  }

  /** Event i is the last request of the process, and nothing has become of the process since. */
  predicate LastRequest(evs: seq<Event>, i: nat, pid: nat) {
    && i < |evs| && evs[i].Request? && evs[i].pid == pid
    && forall j :: i < j < |evs| ==> !Concerns(evs[j], pid)
  }

  /** The run up to its last event. */
  lemma UpToLast(evs: seq<Event>) returns (w: World)
    requires evs != [] && Legal(EMPTY, evs)
    ensures Legal(EMPTY, evs[..|evs| - 1]) && w == Exec(EMPTY, evs[..|evs| - 1])
    ensures Enabled(w, evs[|evs| - 1]) && Exec(EMPTY, evs) == Next(w, evs[|evs| - 1])
  {
    var n := |evs| - 1;
    LegalPrefix(EMPTY, evs, n);
    assert evs[n..] == [evs[n]] && evs[n..][1..] == [];
    w := Exec(EMPTY, evs[..n]);
  }

  lemma LastBefore(evs: seq<Event>, front: seq<Event>, i: nat, pid: nat)
    requires |front| < |evs| && front == evs[..|evs| - 1] && !Concerns(evs[|evs| - 1], pid)
    requires LastRequest(front, i, pid)
    ensures LastRequest(evs, i, pid)
  {
    forall j | i < j < |evs| ensures !Concerns(evs[j], pid) {
      assert j < |front| ==> evs[j] == front[j];
    }
  }

  // ----- Bookkeeping that every run keeps -----

  /** UIDs tell objects and incarnations apart, and every pass is for an incarnation of its instance. */
  ghost predicate Booked(w: World) {
    && (forall id :: id in w.state.insts ==> w.state.insts[id].uid in w.born && w.born[w.state.insts[id].uid] == id)
    && w.born.Keys <= w.used
    && (forall k :: k in w.state.objs ==> w.state.objs[k].uid in w.used && w.state.objs[k].uid !in w.born)
    && (forall k, l :: k in w.state.objs && l in w.state.objs && w.state.objs[k].uid == w.state.objs[l].uid ==> k == l)
    && w.state.live <= w.used
    && w.state.live !! w.born.Keys
    && (forall pid :: pid in w.procs ==> ProcBooked(w, w.procs[pid]))
  }

  ghost predicate ProcBooked(w: World, p: Proc) {
    Passes.Current(p).Some? ==>
      var pass := Passes.Current(p).value;
      pass.inst.uid in w.born && w.born[pass.inst.uid] == pass.id
  }

  lemma StepBooked(w: World, p: Proc, o: Oracle)
    requires Booked(w) && ProcBooked(w, p)
    requires p.Starting? && o.fault.StaleRead? ==> Readable(w, p.id, o.fault.earlier)
    ensures ProcBooked(w, Step(p, w.state, o).0)
  {
    if p.Working? {
      Steps.StepGoes(p, w.state, o);
    }
  }

  /** An object's uid after a request is the one it had, or the one just given out. */
  lemma StepUids(p: Proc, s: State, o: Oracle, k: Key)
    requires k in Step(p, s, o).1.objs
    ensures var s' := Step(p, s, o).1; if k in s.objs then s'.objs[k].uid == s.objs[k].uid else s'.objs[k].uid == o.uid
  {
    Steps.StepWrites(p, s, o);
    if k in s.objs {
      Steps.StepKeeps(p, s, o, k);
    }
  }

  lemma RequestBooked(w: World, pid: nat, o: Oracle)
    requires Booked(w) && Enabled(w, Request(pid, o))
    ensures Booked(Next(w, Request(pid, o)))
  {
    var p := w.procs[pid];
    var (p', s') := Step(p, w.state, o);
    var w' := Next(w, Request(pid, o));
    StepBooked(w, p, o);
    Steps.StepWrites(p, w.state, o);
    forall k | k in s'.objs ensures s'.objs[k].uid in w'.used && s'.objs[k].uid !in w'.born {
      StepUids(p, w.state, o, k);
    }
    forall id | id in s'.insts ensures s'.insts[id].uid in w'.born && w'.born[s'.insts[id].uid] == id {
      Steps.StepInstances(p, w.state, o, id);
    }
    forall k, l | k in s'.objs && l in s'.objs && s'.objs[k].uid == s'.objs[l].uid ensures k == l {
      StepUids(p, w.state, o, k);
      StepUids(p, w.state, o, l);
      assert s'.objs == w.state.objs || s'.objs == w.state.objs[Steps.Target(p) := s'.objs[Steps.Target(p)]];
    }
    forall q | q in w'.procs ensures ProcBooked(w', w'.procs[q]) {
      if q != pid {
        assert ProcBooked(w, w.procs[q]);
      }
    }
  }

  lemma NextBooked(w: World, e: Event)
    requires Booked(w) && Enabled(w, e)
    ensures Booked(Next(w, e))
  {
    if e.Request? {
      RequestBooked(w, e.pid, e.o);
    } else {
      var w' := Next(w, e);
      forall q | q in w'.procs ensures ProcBooked(w', w'.procs[q]) {
        if q in w.procs && w'.procs[q] == w.procs[q] {
          assert ProcBooked(w, w.procs[q]);
        }
      }
    }
  }

  lemma {:induction false} ExecBooked(w: World, evs: seq<Event>)
    requires Booked(w) && Legal(w, evs)
    ensures Booked(Exec(w, evs))
    decreases |evs|
  {
    if evs != [] {
      NextBooked(w, evs[0]);
      ExecBooked(Next(w, evs[0]), evs[1..]);
    }
  }

  lemma EmptyBooked()
    ensures Booked(EMPTY)
  {
  }
}
