// What one pass promises, from whatever state earlier passes, edits and crashes have left behind.
module Promises {
  import opened Base
  import opened Api
  import opened Server
  import opened Protocol
  import opened Passes
  import opened Reports

  /** The state of things after n requests of a fresh pass. */
  function Run(id: Id, s: State, script: Script, at: nat, n: nat): Outcome {
    Cut(Starting(id), s, script, at, n)
  }

  /** The whole pass. */
  function Reconciled(id: Id, s: State, script: Script, at: nat): Outcome {
    Rest(Starting(id), s, script, at)
  }

  lemma ReconciledIsRun(id: Id, s: State, script: Script, at: nat)
    ensures Run(id, s, script, at, Remaining(Starting(id))) == Reconciled(id, s, script, at)
  {
    RestIsCut(Starting(id), s, script, at, Remaining(Starting(id)));
  }

  lemma {:induction false} CutFinished(p: Proc, s: State, script: Script, at: nat, n: nat)
    requires p.Finished?
    ensures Cut(p, s, script, at, n) == Outcome(p, s, at)
  {
  }

  lemma RunFromBegin(id: Id, s: State, script: Script, at: nat, n: nat)
    requires Current(Run(id, s, script, at, n).proc).Some?
    ensures n > 0 && GetInstance(s, id, script(at)).Got?
    ensures var b := Begin(id, GetInstance(s, id, script(at)).value, script(at).now);
            Run(id, s, script, at, n) == Cut(b, s, script, at + 1, n - 1)
  {
    var (p', s') := Step(Starting(id), s, script(at));
    if n > 0 && p'.Finished? {
      CutFinished(p', s', script, at + 1, n - 1);
    }
  }

  /** Everything earlier modules know of a pass, at whatever point it is looked at. */
  ghost predicate Known(id: Id, s: State, c: Outcome, from: nat)
    requires Current(c.proc).Some?
  {
    var pass := Current(c.proc).value;
    && pass.id == id
    && Holds(c.proc, from, c.state)
    && AllKept(s, c.state)
    && ChangedOnly(pass, Position(c.proc), s, c.state)
    && Reporting(c.proc)
  }

  lemma RunChangedOnly(id: Id, s: State, script: Script, at: nat, n: nat)
    requires Current(Run(id, s, script, at, n).proc).Some?
    ensures var c := Run(id, s, script, at, n);
            Current(c.proc).value.id == id && ChangedOnly(Current(c.proc).value, Position(c.proc), s, c.state)
  {
    RunFromBegin(id, s, script, at, n);
    var b := Begin(id, GetInstance(s, id, script(at)).value, script(at).now);
    CutChangedOnly(b, s, script, at + 1, n - 1);
    var c := Cut(b, s, script, at + 1, n - 1);
    ChangedOnlyFor(b.pass, Current(c.proc).value, Position(c.proc), s, c.state);
  }

  lemma ChangedOnlyFor(a: Pass, b: Pass, n: nat, s: State, t: State)
    requires ChangedOnly(a, n, s, t) && SameRun(a, b)
    ensures ChangedOnly(b, n, s, t)
  {
    forall k | Find(s, k) != Find(t, k) ensures UpTo(b, n, k) {
      assert UpTo(a, n, k);
    }
  }

  lemma RunKnown(id: Id, s: State, script: Script, at: nat, n: nat, from: nat)
    requires Current(Run(id, s, script, at, n).proc).Some?
    requires from >= AFTER_SECRETS || Honest(script)
    ensures Known(id, s, Run(id, s, script, at, n), from)
  {
    CutHolds(Starting(id), s, script, at, n, from);
    CutAllKept(Starting(id), s, script, at, n);
    CutReports(Starting(id), s, script, at, n);
    RunChangedOnly(id, s, script, at, n);
  }

  lemma FinishedVerdict(p: Proc)
    requires p.Finished? && p.last.Some? && Reporting(p)
    ensures ReadyOf(p.last.value).Some?
    ensures var ready := ReadyOf(p.last.value).value;
            && ready.reason != Reconciling
            && SaysWhy(p.last.value.inst.spec, p.pos, ready)
            && (ready.status ==> p.pos == Length(p.last.value.inst.spec))
            && (p.pos < Length(p.last.value.inst.spec) ==> p.result.error.Some? || p.result.requeueAfter > 0)
  {
    var v :| Verdict(p.last.value, p.pos, v) && (v == p.result || p.result.error.Some?);
    VerdictCoherent(p.last.value, p.pos, v);
    VerdictSpelled(p.last.value, p.pos, v);
  }

  /**
   * Under any faults a pass writes to a prefix of its items; the items before the last one reached
   * are as asked, and Ready names the step of the first one that was not acknowledged.
   */
  lemma PassWritesPrefix(id: Id, s: State, script: Script, at: nat, from: nat)
    requires Reconciled(id, s, script, at).proc.last.Some?
    requires from >= AFTER_SECRETS || Honest(script)
    ensures var r := Reconciled(id, s, script, at);
            var pass, n := r.proc.last.value, r.proc.pos;
            && ChangedOnly(pass, n, s, r.state)
            && DoneBefore(pass, from, n, r.state)
            && ReadyOf(pass).Some?
            && ReadyOf(pass).value.reason != Reconciling
            && SaysWhy(pass.inst.spec, n, ReadyOf(pass).value)
            && (ReadyOf(pass).value.status ==> n == Length(pass.inst.spec))
  {
    ReconciledIsRun(id, s, script, at);
    RunKnown(id, s, script, at, Remaining(Starting(id)), from);
    FinishedVerdict(Reconciled(id, s, script, at).proc);
  }

  // ----- A change of policy takes effect -----

  /** The objects the deletion policy governs. */
  predicate Governed(item: Item) {
    item.SecretItem? || item.PvcItem? || item.ClusterItem?
  }

  lemma ControlledByOthers(obj: Object, uid: Uid)
    requires obj.applied == []
    ensures ControlledBy(obj, uid) <==>
              var c := OwnerReferences.ControllerOf(obj.others);
              c.Some? && c.value.uid == uid
  {
    assert obj.Owners() == obj.others;
  }

  /**
   * Whatever ownership an earlier policy, another incarnation or an interrupted pass left behind:
   * once a pass has acknowledged a governed object, the instance controls it exactly under Delete.
   * The one exception is a claim or Cluster on which somebody else names this instance as the
   * controller. Other managers' entries on claims and Clusters stay.
   */
  lemma PolicyTakesEffect(id: Id, s: State, script: Script, at: nat, n: nat, j: nat)
    requires Honest(script)
    requires var c := Run(id, s, script, at, n);
             && Current(c.proc).Some?
             && j < Position(c.proc)
             && Governed(Plan(Current(c.proc).value.inst.spec, j))
    ensures var c := Run(id, s, script, at, n);
            var pass := Current(c.proc).value;
            var item := Plan(pass.inst.spec, j);
            var k := KeyOf(id, pass.inst.spec, item);
            && (!item.SecretItem? ==> k in c.state.objs)
            && (k in c.state.objs ==>
                  && (ControlledBy(c.state.objs[k], pass.inst.uid) <==>
                      || pass.inst.spec.deletionPolicy == Delete
                      || (!item.SecretItem?
                          && OwnerReferences.ControllerOf(c.state.objs[k].others).Some?
                          && OwnerReferences.ControllerOf(c.state.objs[k].others).value.uid == pass.inst.uid))
                  && (k in s.objs && !item.SecretItem? ==> c.state.objs[k].others == s.objs[k].others))
  {
    var c := Run(id, s, script, at, n);
    RunKnown(id, s, script, at, n, 0);
    var pass := Current(c.proc).value;
    var item := Plan(pass.inst.spec, j);
    var k := KeyOf(id, pass.inst.spec, item);
    assert Done(pass, j, c.state);
    DoneControl(pass, j, c.state);
    assert k in s.objs ==> Steps.Kept(k, s.objs[k], c.state.objs[k]);
  }

  /** Who controls a governed object that is as asked. */
  lemma DoneControl(pass: Pass, j: nat, s: State)
    requires j < Length(pass.inst.spec) && Done(pass, j, s) && Governed(Plan(pass.inst.spec, j))
    ensures var item := Plan(pass.inst.spec, j);
            var k := KeyOf(pass.id, pass.inst.spec, item);
            && (!item.SecretItem? ==> k in s.objs)
            && (k in s.objs ==>
                  (ControlledBy(s.objs[k], pass.inst.uid) <==>
                     || pass.inst.spec.deletionPolicy == Delete
                     || (!item.SecretItem?
                         && OwnerReferences.ControllerOf(s.objs[k].others).Some?
                         && OwnerReferences.ControllerOf(s.objs[k].others).value.uid == pass.inst.uid)))
  {
    var item := Plan(pass.inst.spec, j);
    var k := KeyOf(pass.id, pass.inst.spec, item);
    if !item.SecretItem? {
      if pass.inst.spec.deletionPolicy == Delete {
        Steps.ControlledByOperator(s.objs[k], pass.id, pass.inst.uid, pass.inst.uid);
      } else {
        ControlledByOthers(s.objs[k], pass.inst.uid);
      }
    }
  }
}
