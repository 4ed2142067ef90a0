// What Ready says when a pass ends, in whole runs: it names the step of the object the last request was about.
module Reasons {
  import opened Api
  import opened Server
  import opened Protocol
  import opened Steps
  import opened Reports
  import opened World
  import opened Manifest
  import Statuses

  // ----- The request a pass ended with -----

  /** Event i is the request with which process `pid` came to be p, about to store its status. */
  ghost predicate EndedBy(evs: seq<Event>, i: nat, pid: nat, p: Proc) {
    && i < |evs| && Legal(EMPTY, evs[..i])
    && evs[i].Request? && evs[i].pid == pid
    && var w := Exec(EMPTY, evs[..i]);
    && pid in w.procs && w.procs[pid].Working?
    && Step(w.procs[pid], w.state, evs[i].o).0 == p
  }

  /** The object the request was about, and its number in the pass. */
  ghost predicate WasAbout(evs: seq<Event>, i: nat, pid: nat, n: nat, k: Key)
    requires i < |evs| && Legal(EMPTY, evs[..i])
  {
    var w := Exec(EMPTY, evs[..i]);
    pid in w.procs && w.procs[pid].Working? && w.procs[pid].pos == n && Target(w.procs[pid]) == k
  }

  predicate Ended(w: World, pid: nat, p: Proc) {
    pid in w.procs && w.procs[pid] == p && p.Finishing?
  }

  lemma EndedCame(w: World, e: Event, pid: nat, p: Proc)
    requires Enabled(w, e) && Ended(Next(w, e), pid, p)
    ensures if e.Request? && e.pid == pid
            then w.procs[pid].Working? && Step(w.procs[pid], w.state, e.o).0 == p
            else !Concerns(e, pid) && Ended(w, pid, p)
  {
  }

  lemma EndedInFront(evs: seq<Event>, m: nat, i: nat, pid: nat, p: Proc)
    requires i < m <= |evs|
    ensures EndedBy(evs[..m], i, pid, p) <==> EndedBy(evs, i, pid, p)
  {
    assert evs[..m][..i] == evs[..i];
  }

  lemma EndedByLast(evs: seq<Event>, w: World, pid: nat, p: Proc)
    requires evs != [] && Legal(EMPTY, evs[..|evs| - 1]) && w == Exec(EMPTY, evs[..|evs| - 1])
    requires var e := evs[|evs| - 1];
             && e.Request? && e.pid == pid && pid in w.procs
             && w.procs[pid].Working? && Step(w.procs[pid], w.state, e.o).0 == p
    ensures EndedBy(evs, |evs| - 1, pid, p)
  {
  }

  lemma EndedBefore(evs: seq<Event>, pid: nat, p: Proc) returns (front: seq<Event>)
    requires Legal(EMPTY, evs) && Ended(Exec(EMPTY, evs), pid, p)
    ensures evs != [] && front == evs[..|evs| - 1] && Legal(EMPTY, front)
    ensures || (LastRequest(evs, |evs| - 1, pid) && EndedBy(evs, |evs| - 1, pid, p))
            || (!Concerns(evs[|evs| - 1], pid) && Ended(Exec(EMPTY, front), pid, p))
  {
    var w := UpToLast(evs);
    front := evs[..|evs| - 1];
    EndedCame(w, evs[|evs| - 1], pid, p);
    if evs[|evs| - 1].Request? && evs[|evs| - 1].pid == pid {
      EndedByLast(evs, w, pid, p);
    }
  }

  lemma EndedEarlier(evs: seq<Event>, front: seq<Event>, i: nat, pid: nat, p: Proc)
    requires |front| < |evs| && front == evs[..|evs| - 1] && !Concerns(evs[|evs| - 1], pid)
    requires LastRequest(front, i, pid) && EndedBy(front, i, pid, p)
    ensures LastRequest(evs, i, pid) && EndedBy(evs, i, pid, p)
  {
    EndedInFront(evs, |front|, i, pid, p);
    LastBefore(evs, front, i, pid);
  }

  lemma {:induction false} FindEnd(evs: seq<Event>, pid: nat, p: Proc) returns (i: nat)
    requires Legal(EMPTY, evs) && Ended(Exec(EMPTY, evs), pid, p)
    ensures LastRequest(evs, i, pid) && EndedBy(evs, i, pid, p)
    decreases |evs|
  {
    var front := EndedBefore(evs, pid, p);
    if !Concerns(evs[|evs| - 1], pid) {
      i := FindEnd(front, pid, p);
      EndedEarlier(evs, front, i, pid, p);
    } else {
      i := |evs| - 1;
    }
  }

  /** A request ends a pass at its own object, unless it is the last one and acknowledged. */
  lemma EndsAtItsObject(p: Proc, s: State, o: Oracle)
    requires p.Working? && Step(p, s, o).0.Finishing?
    ensures var q := Step(p, s, o).0;
            && SameRun(q.pass, p.pass)
            && (q.pos == p.pos || (q.pos == p.pos + 1 == Length(p.pass.inst.spec)))
            && IsObject(p.pass.id, p.pass.inst.spec, p.pos, Target(p))
  {
    StepGoes(p, s, o);
    PlanSpelled(p.pass.id, p.pass.inst.spec, p.pos);
  }

  // ----- What is stored -----

  /** The patch of the status does not leave the conditions out, or what is stored are those that were read. */
  predicate Lands(p: Proc, s: State)
    requires p.Finishing? && p.pass.id in s.insts
  {
    || p.pass.status.conditions != p.pass.inst.status.conditions
    || s.insts[p.pass.id].status.conditions == p.pass.inst.status.conditions
  }

  lemma StoresItsConditions(p: Proc, s: State, o: Oracle)
    requires p.Finishing? && p.pass.id in s.insts && Lands(p, s) && !o.fault.Refused?
    ensures p.pass.id in Step(p, s, o).1.insts
    ensures Step(p, s, o).1.insts[p.pass.id].status.conditions == p.pass.status.conditions
  {
  }

  /**
   * In every run, with stale reads, faults and any number of passes at once: the status a pass stores
   * gives for Ready the step of the object that its last request before was about. That request went
   * wrong, or it was the Deployment's and was acknowledged. A pass that got past the database says
   * which one it is; one that waits for it comes back after 30 seconds.
   */
  lemma ReadyNamesTheStep(evs: seq<Event>, pid: nat, o: Oracle) returns (i: nat, k: Key)
    requires Legal(EMPTY, evs) && Enabled(Exec(EMPTY, evs), Request(pid, o)) && !o.fault.Refused?
    requires var w := Exec(EMPTY, evs);
             w.procs[pid].Finishing? && w.procs[pid].pass.id in w.state.insts && Lands(w.procs[pid], w.state)
    ensures var w := Exec(EMPTY, evs);
            var p := w.procs[pid];
            var id, spec, last := p.pass.id, p.pass.inst.spec, WorkloadPos(p.pass.inst.spec) + 1;
            && LastRequest(evs, i, pid) && EndedBy(evs, i, pid, p)
            && (if p.pos <= last then WasAbout(evs, i, pid, p.pos, k) && IsObject(id, spec, p.pos, k)
                else WasAbout(evs, i, pid, last, k) && IsObject(id, spec, last, k))
            && (p.result.error.None? ==> p.result.requeueAfter == if p.pos == 6 then 30 else 0)
    ensures var w := Exec(EMPTY, evs);
            var p := w.procs[pid];
            var after := Next(w, Request(pid, o)).state;
            && p.pass.id in after.insts
            && var cs := after.insts[p.pass.id].status.conditions;
            && C.Get(cs, Ready).Some? && SaysWhy(p.pass.inst.spec, p.pos, C.Get(cs, Ready).value)
            && (p.pos > 6 ==> SaysWhichDatabase(p.pass.inst.spec, C.Get(cs, DatabaseReady)))
  {
    var w := Exec(EMPTY, evs);
    var p := w.procs[pid];
    Statuses.EmptyCoherent();
    Statuses.ExecCoherent(EMPTY, evs);
    VerdictSpelled(p.pass, p.pos, p.result);
    StoresItsConditions(p, w.state, o);
    i := FindEnd(evs, pid, p);
    var before := Exec(EMPTY, evs[..i]);
    k := Target(before.procs[pid]);
    EndsAtItsObject(before.procs[pid], before.state, evs[i].o);
    PlanSpelled(p.pass.id, p.pass.inst.spec, p.pos);
  }
}
