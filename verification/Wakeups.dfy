// No lost wake-up: a pass that leaves its instance not ready is followed by another one.
module Wakeups {
  import opened Base
  import opened Api
  import opened Server
  import opened Protocol
  import opened Passes
  import opened Promises
  import opened World
  import Statuses

  /** The instance's own Deployment is there and controlled by it: its changes trigger a pass. */
  predicate Watched(id: Id, uid: Uid, s: State) {
    var k := Key(DeploymentKind, id.ns, id.name);
    k in s.objs && ControlledBy(s.objs[k], uid)
  }

  lemma DeploymentDoneIsWatched(pass: Pass, s: State)
    requires Done(pass, Length(pass.inst.spec) - 1, s)
    ensures Watched(pass.id, pass.inst.uid, s)
  {
    var k := Key(DeploymentKind, pass.id.ns, pass.id.name);
    Steps.ControlledByOperator(s.objs[k], pass.id, pass.inst.uid, pass.inst.uid);
  }

  // ----- A pass left to itself -----

  /** The pass has found the instance ready, or another one follows: by an error, a requeue or the watch. */
  predicate ReadyOrBack(id: Id, r: Outcome)
    requires r.proc.Finished?
  {
    || r.proc.result.error.Some?
    || r.proc.result.requeueAfter > 0
    || (&& r.proc.last.Some?
        && var pass := r.proc.last.value;
        && Reports.ReadyOf(pass).Some?
        && (Reports.ReadyOf(pass).value.status || Watched(id, pass.inst.uid, r.state)))
  }

  /** The one way a pass can end in silence: by not finding the instance. */
  lemma SilentIff(id: Id, s: State, script: Script, at: nat)
    ensures var p := Reconciled(id, s, script, at).proc;
            p.last.None? && p.result == Ending(0, None) <==> GetInstance(s, id, script(at)).Absent?
    ensures var p := Reconciled(id, s, script, at).proc;
            p.last.None? ==> p.result.error.Some? || GetInstance(s, id, script(at)).Absent?
  {
    var (p', s') := Step(Starting(id), s, script(at));
    if p'.Finished? {
      assert Rest(p', s', script, at + 1) == Outcome(p', s', at + 1);
    } else {
      ReconciledIsRun(id, s, script, at);
      CutChangedOnly(p', s', script, at + 1, Remaining(Starting(id)) - 1);
    }
  }

  /**
   * A pass over an instance that is there finds it ready or is followed by another one, exactly when
   * the pass does not take the instance for gone because the cache is behind.
   */
  lemma NoLostWakeUpIff(id: Id, s: State, script: Script, at: nat)
    requires id in s.insts
    ensures ReadyOrBack(id, Reconciled(id, s, script, at)) <==> !script(at).fault.StaleAbsent?
  {
    var r := Reconciled(id, s, script, at);
    SilentIff(id, s, script, at);
    if r.proc.last.Some? {
      ReconciledIsRun(id, s, script, at);
      RunKnown(id, s, script, at, Remaining(Starting(id)), AFTER_SECRETS);
      RunFromBegin(id, s, script, at, Remaining(Starting(id)));
      FinishedVerdict(r.proc);
      if r.proc.pos == Length(r.proc.last.value.inst.spec) {
        DeploymentDoneIsWatched(r.proc.last.value, r.state);
      }
    }
  }

  // ----- In whole runs -----

  /** Event i is the request by which process `pid` came to be as P says. */
  ghost predicate Turns(w: World, evs: seq<Event>, i: nat, pid: nat, P: Proc -> bool) {
    && i < |evs| && Legal(w, evs[..i])
    && evs[i].Request? && evs[i].pid == pid
    && var a := Exec(w, evs[..i]);
    && pid in a.procs && !P(a.procs[pid]) && P(Step(a.procs[pid], a.state, evs[i].o).0)
  }

  /** A process changes by its own requests only. */
  lemma NextProc(w: World, e: Event, pid: nat)
    requires Enabled(w, e) && pid in Next(w, e).procs
    ensures var p' := Next(w, e).procs[pid];
            || p'.Starting?
            || (pid in w.procs && p' == w.procs[pid])
            || (e.Request? && e.pid == pid && pid in w.procs && p' == Step(w.procs[pid], w.state, e.o).0)
  {
  }

  lemma TurnsNow(w: World, evs: seq<Event>, pid: nat, P: Proc -> bool)
    requires evs != [] && Enabled(w, evs[0])
    requires pid in Next(w, evs[0]).procs && P(Next(w, evs[0]).procs[pid])
    requires (forall p: Proc :: p.Starting? ==> !P(p)) && (pid in w.procs ==> !P(w.procs[pid]))
    ensures Turns(w, evs, 0, pid, P)
  {
    NextProc(w, evs[0], pid);
    assert evs[..0] == [];
  }

  lemma TurnsLater(w: World, evs: seq<Event>, i: nat, pid: nat, P: Proc -> bool)
    requires evs != [] && Enabled(w, evs[0]) && Turns(Next(w, evs[0]), evs[1..], i, pid, P)
    ensures Turns(w, evs, i + 1, pid, P)
  {
    assert evs[..i + 1] == [evs[0]] + evs[1..][..i];
    assert Exec(w, evs[..i + 1]) == Exec(Next(w, evs[0]), evs[1..][..i]);
  }

  /** A process is not P when it starts, so it became P by one of its own requests. */
  lemma {:induction false} TurningPoint(w: World, evs: seq<Event>, pid: nat, P: Proc -> bool)
    requires Legal(w, evs) && pid in Exec(w, evs).procs && P(Exec(w, evs).procs[pid])
    requires (forall p: Proc :: p.Starting? ==> !P(p)) && (pid in w.procs ==> !P(w.procs[pid]))
    ensures exists i: nat :: Turns(w, evs, i, pid, P)
    decreases |evs|
  {
    assert evs != [];
    var w' := Next(w, evs[0]);
    if pid in w'.procs && P(w'.procs[pid]) {
      TurnsNow(w, evs, pid, P);
    } else {
      TurningPoint(w', evs[1..], pid, P);
      var i: nat :| Turns(w', evs[1..], i, pid, P);
      TurnsLater(w, evs, i, pid, P);
    }
  }

  /** With event i process `pid` read an instance that was gone, or that the cache did not hold yet. */
  ghost predicate FoundNothing(evs: seq<Event>, i: nat, pid: nat) {
    && i < |evs| && Legal(EMPTY, evs[..i])
    && evs[i].Request? && evs[i].pid == pid
    && var a := Exec(EMPTY, evs[..i]);
    && pid in a.procs && a.procs[pid].Starting?
    && (a.procs[pid].id !in a.state.insts || evs[i].o.fault.StaleAbsent?)
  }

  ghost predicate LeavesWatched(p: Proc, s: State, o: Oracle, pass: Pass) {
    p.Working? && SameRun(p.pass, pass) && Watched(pass.id, pass.inst.uid, Step(p, s, o).1)
  }

  /** With event i process `pid` concluded this pass and left the instance's Deployment under its control. */
  ghost predicate LeftWatched(evs: seq<Event>, i: nat, pid: nat, pass: Pass) {
    && i < |evs| && Legal(EMPTY, evs[..i])
    && evs[i].Request? && evs[i].pid == pid
    && var a := Exec(EMPTY, evs[..i]);
    && pid in a.procs && LeavesWatched(a.procs[pid], a.state, evs[i].o, pass)
  }

  /** A pass concludes by applying the Deployment. */
  lemma ConcludingWatches(p: Proc, s: State, o: Oracle)
    requires Current(Step(p, s, o).0).Some?
    requires Position(Step(p, s, o).0) == Length(Current(Step(p, s, o).0).value.inst.spec)
    requires Current(p).Some? ==> Position(p) < Length(Current(p).value.inst.spec)
    ensures p.Working? && SameRun(p.pass, Current(Step(p, s, o).0).value)
    ensures Watched(p.pass.id, p.pass.inst.uid, Step(p, s, o).1)
  {
    if p.Working? {
      Steps.StepGoes(p, s, o);
      assert p.pos + 1 == Length(p.pass.inst.spec);
      ApplyMovesOn(p, s, o);
      DeploymentDoneIsWatched(p.pass, Step(p, s, o).1);
    }
  }

  /**
   * In every run, however many passes there are at once: a pass that has ended has returned an error,
   * or asked to come back, or stored the verdict that the instance is ready, or it applied the
   * Deployment and left it watched, or it found no instance.
   */
  lemma NoLostWakeUp(evs: seq<Event>, pid: nat)
    requires Legal(EMPTY, evs) && pid in Exec(EMPTY, evs).procs && Exec(EMPTY, evs).procs[pid].Finished?
    ensures var p := Exec(EMPTY, evs).procs[pid];
            || p.result.error.Some?
            || p.result.requeueAfter > 0
            || (match p.last
                case None => exists i :: FoundNothing(evs, i, pid)
                case Some(pass) =>
                  && Reports.ReadyOf(pass).Some?
                  && (Reports.ReadyOf(pass).value.status || exists i :: LeftWatched(evs, i, pid, pass)))
  {
    var p := Exec(EMPTY, evs).procs[pid];
    Statuses.EmptyCoherent();
    Statuses.ExecCoherent(EMPTY, evs);
    if p.last.Some? {
      FinishedVerdict(p);
      if p.pos == Length(p.last.value.inst.spec) {
        ConcludedByRequest(evs, pid);
      }
    } else if p.result.error.None? {
      SilentByRequest(evs, pid);
    }
  }

  predicate Concluded(p: Proc, pass: Pass) {
    Current(p).Some? && SameRun(Current(p).value, pass) && Position(p) == Length(pass.inst.spec)
  }

  lemma ConcludedByRequest(evs: seq<Event>, pid: nat)
    requires Legal(EMPTY, evs) && pid in Exec(EMPTY, evs).procs
    requires var p := Exec(EMPTY, evs).procs[pid]; p.Finished? && p.last.Some? && Concluded(p, p.last.value)
    ensures exists i :: LeftWatched(evs, i, pid, Exec(EMPTY, evs).procs[pid].last.value)
  {
    var pass := Exec(EMPTY, evs).procs[pid].last.value;
    var P := (p: Proc) => Concluded(p, pass);
    TurningPoint(EMPTY, evs, pid, P);
    var i: nat :| Turns(EMPTY, evs, i, pid, P);
    var a := Exec(EMPTY, evs[..i]);
    TurnsWatched(a.procs[pid], a.state, evs[i].o, pass);
    assert LeftWatched(evs, i, pid, pass);
  }

  lemma TurnsWatched(p: Proc, s: State, o: Oracle, pass: Pass)
    requires !Concluded(p, pass) && Concluded(Step(p, s, o).0, pass)
    ensures LeavesWatched(p, s, o, pass)
  {
    SubjectStays(p, s, o);
    ConcludingWatches(p, s, o);
  }

  lemma SubjectStays(p: Proc, s: State, o: Oracle)
    ensures var p' := Step(p, s, o).0;
            Current(p).Some? ==>
              && Current(p').Some? && SameRun(Current(p').value, Current(p).value)
              && Position(p) <= Position(p') <= Length(Current(p).value.inst.spec)
  {
    if p.Working? {
      Steps.StepGoes(p, s, o);
    }
  }

  predicate Silent(p: Proc) {
    p.Finished? && p.last.None? && p.result.error.None?
  }

  lemma SilentFindsNothing(p: Proc, s: State, o: Oracle)
    requires !Silent(p) && Silent(Step(p, s, o).0)
    ensures p.Starting? && (p.id !in s.insts || o.fault.StaleAbsent?)
  {
    SubjectStays(p, s, o);
  }

  lemma SilentByRequest(evs: seq<Event>, pid: nat)
    requires Legal(EMPTY, evs) && pid in Exec(EMPTY, evs).procs && Silent(Exec(EMPTY, evs).procs[pid])
    ensures exists i :: FoundNothing(evs, i, pid)
  {
    TurningPoint(EMPTY, evs, pid, Silent);
    var i: nat :| Turns(EMPTY, evs, i, pid, Silent);
    var a := Exec(EMPTY, evs[..i]);
    SilentFindsNothing(a.procs[pid], a.state, evs[i].o);
    assert FoundNothing(evs, i, pid);
  }
}
