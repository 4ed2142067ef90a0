// A second pass over an unchanged world: no object changes, and the status only in one timestamp.
module Repeat {
  import opened Api
  import opened Server
  import opened Protocol
  import opened Steps
  import opened Passes
  import opened Reports
  import opened Promises
  import opened Obstacles
  import opened Convergence

  /**
   * Where a pass that nothing has failed has come to rest: everything before is as asked, and if
   * there is an item here, it is blocked.
   */
  ghost predicate StoppedAt(pass: Pass, n: nat, s: State) {
    && n <= Length(pass.inst.spec)
    && DoneBefore(pass, 0, n, s)
    && (n < Length(pass.inst.spec) ==> Blocked(pass, n, s))
  }

  /** The pass will stop there as well, and no write to a Secret is about to have an effect. */
  ghost predicate Quiet(p: Proc, n: nat, s: State) {
    match p
    case Starting(_) => false
    case Working(pass, pos, sub) =>
      && pos <= n && StoppedAt(pass, n, s)
      && !sub.ToPatch? && (sub.ToCreate? ==> Target(p) in s.objs)
      && (pos == n ==> Steady(p, s))
    case _ => true
  }

  lemma QuietStepWritesNothing(p: Proc, n: nat, s: State, o: Oracle)
    requires Quiet(p, n, s)
    ensures Step(p, s, o).1.objs == s.objs
  {
    StepWrites(p, s, o);
    if p.Working? {
      if p.pos < n {
        assert Done(p.pass, p.pos, s);
      } else {
        BlockedWritesNothing(p, s, o);
      }
    }
  }

  lemma QuietSecret(p: Proc, n: nat, s: State, o: Oracle)
    requires p.Working? && Quiet(p, n, s) && p.pos < n && Plan(p.pass.inst.spec, p.pos).SecretItem?
    ensures var p' := Step(p, s, o).0;
            p'.Working? ==>
              && !p'.sub.ToPatch? && !p'.sub.ToApply?
              && (p'.sub.ToCreate? ==> p'.pos == p.pos && Target(p') in s.objs)
              && SameRun(p'.pass, p.pass)
  {
    assert Done(p.pass, p.pos, s);
    assert Step(p, s, o) == StepSecret(p.pass, p.pos, p.sub, s, o);
  }

  /** On the way to where it will stop, the pass moves on by one item at most. */
  lemma QuietMovesOn(p: Proc, n: nat, s: State, o: Oracle)
    requires p.Working? && Quiet(p, n, s) && p.pos < n
    ensures var p' := Step(p, s, o).0;
            p'.Working? ==>
              && SameRun(p'.pass, p.pass) && p'.pos <= p.pos + 1
              && !p'.sub.ToPatch? && (p'.sub.ToCreate? ==> p'.pos == p.pos && Target(p') in s.objs)
              && (p'.sub.ToApply? ==> Installable(p'.pass.id, s))
  {
    StepGoes(p, s, o);
    if Plan(p.pass.inst.spec, p.pos).SecretItem? {
      QuietSecret(p, n, s, o);
    } else {
      OthersWriteNoSecret(p, s, o);
      QuietStepWritesNothing(p, n, s, o);
      if p.sub.ToApply? {
        ApplyIsAnswered(p, s, o);
      } else {
        ApplyFollowsCrd(p, s, o);
      }
    }
  }

  lemma QuietStep(p: Proc, n: nat, s: State, o: Oracle)
    requires Quiet(p, n, s)
    ensures Quiet(Step(p, s, o).0, n, Step(p, s, o).1)
  {
    var (p', s') := Step(p, s, o);
    QuietStepWritesNothing(p, n, s, o);
    if p.Working? && p'.Working? {
      if p.pos < n {
        QuietMovesOn(p, n, s, o);
      } else {
        BlockedStays(p, s, o);
      }
      StoppedElsewhere(p.pass, n, s, p'.pass, s');
    }
  }

  lemma StoppedElsewhere(pass: Pass, n: nat, s: State, pass': Pass, s': State)
    requires StoppedAt(pass, n, s) && SameSubject(pass, pass') && s.objs == s'.objs
    ensures StoppedAt(pass', n, s')
  {
    forall j | 0 <= j < n ensures Done(pass', j, s') {
      assert Done(pass, j, s);
    }
  }

  lemma {:induction false} QuietCut(p: Proc, n: nat, s: State, script: Script, at: nat, m: nat)
    requires Quiet(p, n, s)
    ensures Cut(p, s, script, at, m).state.objs == s.objs
    decreases m
  {
    if m > 0 && !p.Finished? {
      QuietStepWritesNothing(p, n, s, script(at));
      QuietStep(p, n, s, script(at));
      var (p', s') := Step(p, s, script(at));
      QuietCut(p', n, s', script, at + 1, m - 1);
    }
  }

  // ----- Where a pass in which nothing fails comes to rest -----

  /** The conditions say that the pass halted here, whatever the server's text was. */
  ghost predicate Reported(pass: Pass, n: nat, s: State)
    requires n < Length(pass.inst.spec)
  {
    Blocked(pass, n, s) && exists text :: Told(pass, n, s, text)
  }

  /** A pass in which no request fails: it halts where it is blocked, says so, and stores what it says. */
  ghost predicate Halting(p: Proc, s: State) {
    match p
    case Starting(_) => true
    case Working(pass, pos, _) => Steady(p, s)
    case Finishing(pass, pos, result) => HaltedHere(pass, pos, result, s)
    case Finished(last, pos, result) =>
      last.Some? ==>
        && HaltedHere(last.value, pos, result, s)
        && last.value.id in s.insts && s.insts[last.value.id] == last.value.inst.(status := Observed(last.value))
  }

  ghost predicate HaltedHere(pass: Pass, pos: nat, result: Ending, s: State) {
    && pos <= Length(pass.inst.spec)
    && (result.requeueAfter > 0 ==> pos < Length(pass.inst.spec) && Missing(pass, pos, s).Some?)
    && (pos < Length(pass.inst.spec) && !RanDry(result) ==> Reported(pass, pos, s))
  }

  lemma HaltedIsReported(pass: Pass, pos: nat, s: State, text: string, now: int)
    requires pos < Length(pass.inst.spec) && Blocked(pass, pos, s) && InProgress(pass, pos)
    ensures var p' := Halted(pass, pos, s, text, now); HaltedHere(p'.pass, p'.pos, p'.result, s)
  {
    HaltedTells(pass, pos, s, text, now);
  }

  lemma BlockedHalts(p: Proc, s: State, o: Oracle, p': Proc)
    requires p.Working? && Blocked(p.pass, p.pos, s) && InProgress(p.pass, p.pos) && HaltsNow(p, s, o, p')
    ensures Halting(p', s)
  {
    HaltedIsReported(p.pass, p.pos, s, o.message, o.now);
  }

  lemma ThroughHalts(p: Proc, p': Proc, s': State, o: Oracle)
    requires p.Working? && ThroughOrDry(p, p', s', o)
    ensures Halting(p', s')
  {
  }

  lemma WorkingHalts(p: Proc, s: State, o: Oracle)
    requires p.Working? && Steady(p, s) && InProgress(p.pass, p.pos) && o.fault.NoFault?
    ensures Halting(Step(p, s, o).0, Step(p, s, o).1)
  {
    var (p', s') := Step(p, s, o);
    if Blocked(p.pass, p.pos, s) {
      BlockedStep(p, s, o);
      BlockedHalts(p, s, o, p');
    } else {
      UnblockedStep(p, s, o);
      ThroughHalts(p, p', s', o);
    }
  }

  lemma FinishingHalts(p: Proc, s: State, o: Oracle)
    requires p.Finishing? && Halting(p, s) && o.fault.NoFault?
    requires p.pass.id in s.insts && s.insts[p.pass.id] == p.pass.inst
    ensures Halting(Step(p, s, o).0, Step(p, s, o).1)
  {
    if p.pos < Length(p.pass.inst.spec) && !RanDry(p.result) {
      var text :| Told(p.pass, p.pos, s, text);
      assert Told(p.pass, p.pos, Step(p, s, o).1, text);
    }
  }

  lemma {:induction false} CutHalting(p: Proc, s: State, script: Script, at: nat, n: nat)
    requires Halting(p, s) && Truthful(p, s) && Reporting(p) && Clean(script)
    ensures Halting(Cut(p, s, script, at, n).proc, Cut(p, s, script, at, n).state)
    decreases n
  {
    if n > 0 && !p.Finished? {
      TruthfulNext(p, s, script(at));
      if p.Working? {
        WorkingHalts(p, s, script(at));
      } else if p.Finishing? {
        FinishingHalts(p, s, script(at));
      }
      var (p', s') := Step(p, s, script(at));
      CutHalting(p', s', script, at + 1, n - 1);
    }
  }

  /**
   * Nothing has failed the pass: it went all the way, whatever became of single requests, or none of
   * its requests failed and the random source delivered where it was needed.
   */
  ghost predicate Unfailing(script: Script, p: Proc) {
    && p.Finished? && p.last.Some?
    && Honest(script)
    && (p.pos == Length(p.last.value.inst.spec) || (Clean(script) && !RanDry(p.result)))
  }

  lemma CleanHalts(id: Id, s: State, script: Script, at: nat)
    requires Clean(script)
    ensures var r := Reconciled(id, s, script, at); Halting(r.proc, r.state)
  {
    ReconciledIsRun(id, s, script, at);
    CutHalting(Starting(id), s, script, at, Remaining(Starting(id)));
  }

  lemma ComesToRest(id: Id, s: State, script: Script, at: nat)
    requires Unfailing(script, Reconciled(id, s, script, at).proc)
    ensures var r := Reconciled(id, s, script, at);
            r.proc.last.value.id == id && StoppedAt(r.proc.last.value, r.proc.pos, r.state)
  {
    PassWritesPrefix(id, s, script, at, 0);
    ReconciledIsRun(id, s, script, at);
    RunKnown(id, s, script, at, Remaining(Starting(id)), 0);
    if Clean(script) {
      CleanHalts(id, s, script, at);
    }
  }

  /**
   * Once a pass that nothing has failed is over, whether it went all the way or stopped at a missing
   * database, an invalid name or somebody else's object, another one for the same spec changes no
   * object, and so rotates no Secret, at whatever request it is looked at and whichever of its
   * requests fail.
   */
  lemma RepeatChangesNoObject(id: Id, s: State, script: Script, at: nat, script': Script, at': nat, n: nat)
    requires Unfailing(script, Reconciled(id, s, script, at).proc)
    requires var r := Reconciled(id, s, script, at); SameAgain(id, r.proc.last.value, r.state, script'(at'))
    ensures var r := Reconciled(id, s, script, at);
            Run(id, r.state, script', at', n).state.objs == r.state.objs
  {
    var r := Reconciled(id, s, script, at);
    ComesToRest(id, s, script, at);
    if n > 0 {
      var (p', s') := Step(Starting(id), r.state, script'(at'));
      BegunQuiet(id, r.proc.last.value, r.proc.pos, r.state, script'(at'));
      QuietCut(p', r.proc.pos, s', script', at' + 1, n - 1);
    }
  }

  /** If the instance is found, it is the incarnation and the spec of that pass. */
  predicate SameAgain(id: Id, pass: Pass, s: State, o: Oracle) {
    var read := GetInstance(s, id, o);
    read.Got? ==> read.value.uid == pass.inst.uid && read.value.spec == pass.inst.spec
  }

  lemma BegunQuiet(id: Id, pass: Pass, n: nat, s: State, o: Oracle)
    requires StoppedAt(pass, n, s) && pass.id == id && SameAgain(id, pass, s, o)
    ensures var (p', s') := Step(Starting(id), s, o); s' == s && Quiet(p', n, s') && NoSecretWrite(p')
  {
    var p' := Step(Starting(id), s, o).0;
    if p'.Working? {
      StoppedElsewhere(pass, n, s, p'.pass, s);
    }
  }

  // ----- No write to a Secret is even asked for -----

  /** The next request is not a write to a Secret. */
  predicate NoSecretWrite(p: Proc) {
    p.Working? ==> !p.sub.ToCreate? && !p.sub.ToPatch?
  }

  lemma DoneSecretIsPassedOver(p: Proc, s: State, o: Oracle)
    requires p.Working? && Plan(p.pass.inst.spec, p.pos).SecretItem? && Done(p.pass, p.pos, s)
    requires NoSecretWrite(p) && !o.fault.StaleSecret?
    ensures NoSecretWrite(Step(p, s, o).0)
  {
    assert Step(p, s, o) == StepSecret(p.pass, p.pos, p.sub, s, o);
  }

  lemma OthersWriteNoSecret(p: Proc, s: State, o: Oracle)
    requires p.Working? ==> !Plan(p.pass.inst.spec, p.pos).SecretItem?
    ensures NoSecretWrite(Step(p, s, o).0)
  {
    var p' := Step(p, s, o).0;
    if p.Working? && p'.Working? {
      StepGoes(p, s, o);
      assert Fits(p') && p'.pos >= p.pos;
    }
  }

  lemma StepWritesNoSecret(p: Proc, n: nat, s: State, o: Oracle)
    requires Quiet(p, n, s) && NoSecretWrite(p) && !o.fault.StaleSecret?
    ensures NoSecretWrite(Step(p, s, o).0)
  {
    if p.Working? && Plan(p.pass.inst.spec, p.pos).SecretItem? {
      if p.pos < n {
        DoneSecretIsPassedOver(p, s, o);
      } else {
        BlockedStays(p, s, o);
      }
    } else {
      OthersWriteNoSecret(p, s, o);
    }
  }

  lemma {:induction false} CutWritesNoSecret(p: Proc, n: nat, s: State, script: Script, at: nat, m: nat)
    requires Quiet(p, n, s) && NoSecretWrite(p) && Honest(script)
    ensures NoSecretWrite(Cut(p, s, script, at, m).proc)
    decreases m
  {
    if m > 0 && !p.Finished? {
      QuietStep(p, n, s, script(at));
      StepWritesNoSecret(p, n, s, script(at));
      var (p', s') := Step(p, s, script(at));
      CutWritesNoSecret(p', n, s', script, at + 1, m - 1);
    }
  }

  /**
   * Nor does it ask for any write to a Secret, at any of its requests and whichever of them fail:
   * what is there is only read.
   */
  lemma RepeatAsksForNoSecretWrite(
    id: Id, s: State, script: Script, at: nat, script': Script, at': nat, n: nat)
    requires Unfailing(script, Reconciled(id, s, script, at).proc) && Honest(script')
    requires var r := Reconciled(id, s, script, at); SameAgain(id, r.proc.last.value, r.state, script'(at'))
    ensures NoSecretWrite(Run(id, Reconciled(id, s, script, at).state, script', at', n).proc)
  {
    var r := Reconciled(id, s, script, at);
    ComesToRest(id, s, script, at);
    if n > 0 {
      var (p', s') := Step(Starting(id), r.state, script'(at'));
      BegunQuiet(id, r.proc.last.value, r.proc.pos, r.state, script'(at'));
      CutWritesNoSecret(p', r.proc.pos, s', script', at' + 1, n - 1);
    }
  }

  // ----- The status -----

  /** A status that a full pass has left: both conditions as such a pass states them. */
  predicate SettledStatus(cs: seq<Condition>, spec: Spec, generation: int, ready: bool) {
    var r, d := C.Get(cs, Ready), C.Get(cs, DatabaseReady);
    && r.Some? && r.value == WorkloadCondition(ready, generation, r.value.transition)
    && d.Some? && d.value == UsableDatabase(spec, generation, d.value.transition)
  }

  /** Equal, but for the transition time of a Ready that is true. */
  predicate SameButReadyTime(a: seq<Condition>, b: seq<Condition>) {
    && |a| == |b|
    && forall i :: 0 <= i < |a| ==>
         a[i] == b[i] || (a[i].kind == Ready && a[i].status && b[i] == a[i].(transition := b[i].transition))
  }

  /** The seed and the verdict together restamp a Ready that was true, and nothing else. */
  lemma SeedThenVerdict(cs: seq<Condition>, spec: Spec, generation: int, ready: bool, t: int, u: int)
    requires SettledStatus(cs, spec, generation, ready)
    ensures var out := C.Upsert(C.Upsert(cs, Seed(generation, t)), WorkloadCondition(ready, generation, u));
            SameButReadyTime(cs, out) && (!ready ==> out == cs)
  {
    var i := C.Find(cs, Ready);
    var seeded := C.Upsert(cs, Seed(generation, t));
    C.FindIs(seeded, Ready, i);
  }

  lemma UpsertUnchanged(cs: seq<Condition>, c: Condition)
    requires C.Get(cs, c.kind).Some? && C.Updated(C.Get(cs, c.kind), c) == C.Get(cs, c.kind).value
    ensures C.Upsert(cs, c) == cs
  {
  }

  /** The Deployment of a finished instance reports a ready replica. */
  predicate Serving(pass: Pass, s: State) {
    var k := Key(DeploymentKind, pass.id.ns, pass.id.name);
    k in s.objs && s.objs[k].readyReplicas >= 1
  }

  /** Where a pass over a finished instance goes when nothing fails. */
  ghost predicate GoesOn(p: Proc, s: State, p': Proc, now: int)
    requires p.Working?
  {
    var item := Plan(p.pass.inst.spec, p.pos);
    if item.ClusterItem? && p.sub.First? then p' == Working(p.pass, p.pos, ToApply)
    else if p.pos == DATABASE_POS then p' == Usable(p.pass, p.pos, now)
    else if item.DeploymentItem? then
      exists n :: p' == Report(p.pass, p.pos, n, now) && (n >= 1 <==> Serving(p.pass, s))
    else p' == Advance(p.pass, p.pos)
  }

  lemma CleanSecret(p: Proc, s: State, o: Oracle)
    requires p.Working? && Plan(p.pass.inst.spec, p.pos).SecretItem? && Done(p.pass, p.pos, s) && o.fault.NoFault?
             && p.sub.First?
    ensures GoesOn(p, s, Step(p, s, o).0, o.now)
  {
    assert Step(p, s, o) == StepSecret(p.pass, p.pos, p.sub, s, o);
  }

  lemma CleanDatabase(p: Proc, s: State, o: Oracle)
    requires p.Working? && p.pos == DATABASE_POS && Done(p.pass, p.pos, s) && o.fault.NoFault? && p.sub.First?
    ensures GoesOn(p, s, Step(p, s, o).0, o.now)
  {
    if Plan(p.pass.inst.spec, p.pos).ExternalDbItem? {
      assert Step(p, s, o) == StepExternalDatabase(p.pass, p.pos, s, o);
    } else {
      assert Step(p, s, o) == StepFindCrd(p.pass, p.pos, s, o);
    }
  }

  /** Applying what is as asked already is acknowledged, with the object as it is. */
  lemma AppliedAgain(p: Proc, s: State, o: Oracle)
    requires p.Working? && Done(p.pass, p.pos, s) && o.fault.NoFault?
    requires !Plan(p.pass.inst.spec, p.pos).SecretItem? && !Plan(p.pass.inst.spec, p.pos).ExternalDbItem?
    ensures var reply := ApplyItem(p.pass, p.pos, s, o).1;
            reply.Got? && reply.value.readyReplicas == s.objs[Target(p)].readyReplicas
  {
  }

  lemma CleanApplied(p: Proc, s: State, reply: Reply<Object>, o: Oracle)
    requires p.Working? && Done(p.pass, p.pos, s) && reply.Got?
    requires !Plan(p.pass.inst.spec, p.pos).SecretItem? && !Plan(p.pass.inst.spec, p.pos).ExternalDbItem?
    requires reply.value.readyReplicas == s.objs[Target(p)].readyReplicas
    requires p.pos == DATABASE_POS ==> p.sub.ToApply?
    ensures GoesOn(p, s, AfterApply(p.pass, p.pos, reply, o), o.now)
  {
    if Plan(p.pass.inst.spec, p.pos).DeploymentItem? {
      assert AfterApply(p.pass, p.pos, reply, o) == Report(p.pass, p.pos, reply.value.readyReplicas, o.now);
    }
  }

  lemma CleanApply(p: Proc, s: State, o: Oracle)
    requires p.Working? && Done(p.pass, p.pos, s) && o.fault.NoFault?
    requires !Plan(p.pass.inst.spec, p.pos).SecretItem?
    requires p.pos == DATABASE_POS ==> p.sub.ToApply?
    ensures GoesOn(p, s, Step(p, s, o).0, o.now)
  {
    AppliedAgain(p, s, o);
    ApplyIsStep(p, s, o);
    CleanApplied(p, s, ApplyItem(p.pass, p.pos, s, o).1, o);
  }

  lemma CleanStep(p: Proc, s: State, o: Oracle)
    requires p.Working? && Done(p.pass, p.pos, s) && o.fault.NoFault? && (p.sub.First? || p.sub.ToApply?)
    ensures GoesOn(p, s, Step(p, s, o).0, o.now)
  {
    if Plan(p.pass.inst.spec, p.pos).SecretItem? {
      CleanSecret(p, s, o);
    } else if p.pos == DATABASE_POS && p.sub.First? {
      CleanDatabase(p, s, o);
    } else {
      CleanApply(p, s, o);
    }
  }

  /** The state with only the instance's status changed, to the conditions `cs` and the generation that was read. */
  function WithStatus(s: State, id: Id, cs: seq<Condition>): State
    requires id in s.insts
  {
    s.(insts := s.insts[id := s.insts[id].(status := Status(cs, s.insts[id].generation))])
  }

  lemma CleanFinish(p: Proc, s: State, script: Script, at: nat)
    requires p.Finishing? && Clean(script)
    requires p.pass.id in s.insts && s.insts[p.pass.id] == p.pass.inst
    ensures var r := Rest(p, s, script, at);
            r.state == WithStatus(s, p.pass.id, p.pass.status.conditions) && r.proc.result == p.result
  {
    var (p', s') := Step(p, s, script(at));
    assert Rest(p', s', script, at + 1) == Outcome(p', s', at + 1);
  }

  /** Only the verdict was added, at time u. */
  ghost predicate JudgedAt(after: State, pass: Pass, s: State, u: int)
    requires pass.id in s.insts
  {
    after == WithStatus(s, pass.id,
      C.Upsert(pass.status.conditions, WorkloadCondition(Serving(pass, s), pass.inst.generation, u)))
  }

  /** Only what is said of the obstacle was added, at time u. */
  ghost predicate HaltedAt(after: State, pass: Pass, n: nat, s: State, text: string, u: int)
    requires pass.id in s.insts && n < Length(pass.inst.spec)
  {
    after == WithStatus(s, pass.id, Halted(pass, n, s, text, u).pass.status.conditions)
  }

  ghost predicate EndedAt(after: State, pass: Pass, n: nat, s: State)
    requires pass.id in s.insts && n <= Length(pass.inst.spec)
  {
    if n == Length(pass.inst.spec) then exists u :: JudgedAt(after, pass, s, u)
    else exists text, u :: HaltedAt(after, pass, n, s, text, u)
  }

  /** The pass is on its clean way to item n, with the instance as it was read. */
  ghost predicate OnItsWay(p: Proc, n: nat, s: State) {
    && p.Working? && Quiet(p, n, s) && (p.sub.First? || p.sub.ToApply?)
    && p.pass.id in s.insts && s.insts[p.pass.id] == p.pass.inst
    && (n > DATABASE_POS ==> DatabaseUsable(p.pass))
  }

  /** The verdict has been added, and is yet to be stored. */
  predicate Judging(p: Proc, pass: Pass, s: State, u: int) {
    && p.Finishing?
    && p.pass == Put(pass, WorkloadCondition(Serving(pass, s), pass.inst.generation, u))
  }

  /** One clean request before item n: nothing changes, until the verdict is added. */
  lemma CleanNext(p: Proc, n: nat, s: State, o: Oracle)
    requires OnItsWay(p, n, s) && p.pos < n && o.fault.NoFault?
    ensures var p' := Step(p, s, o).0;
            if Plan(p.pass.inst.spec, p.pos).DeploymentItem? then Judging(p', p.pass, s, o.now)
            else p'.Working? && p'.pass == p.pass && (p'.sub.First? || p'.sub.ToApply?)
  {
    assert Done(p.pass, p.pos, s);
    CleanStep(p, s, o);
    if p.pos == DATABASE_POS {
      UpsertUnchanged(p.pass.status.conditions, UsableDatabase(p.pass.inst.spec, p.pass.inst.generation, o.now));
    }
  }

  /** Where one clean request takes the pass: on with nothing changed, or to what is said in the end. */
  ghost predicate CleanOutcome(p: Proc, n: nat, s: State, o: Oracle, p': Proc)
    requires p.Working? && n <= Length(p.pass.inst.spec)
  {
    || (p'.Working? && p'.pass == p.pass && OnItsWay(p', n, s))
    || (n == Length(p.pass.inst.spec) && Judging(p', p.pass, s, o.now))
    || (n < Length(p.pass.inst.spec) && p' == Halted(p.pass, n, s, o.message, o.now))
  }

  lemma StillOnItsWay(p: Proc, n: nat, s: State, p': Proc)
    requires OnItsWay(p, n, s) && Quiet(p', n, s)
    requires p'.Working? && p'.pass == p.pass && (p'.sub.First? || p'.sub.ToApply?)
    ensures OnItsWay(p', n, s)
  {
  }

  lemma DeploymentIsLast(spec: Spec, pos: nat)
    requires pos < Length(spec)
    ensures Plan(spec, pos).DeploymentItem? <==> pos + 1 == Length(spec)
  {
  }

  lemma CleanBefore(p: Proc, n: nat, s: State, o: Oracle)
    requires OnItsWay(p, n, s) && p.pos < n && o.fault.NoFault? && Quiet(Step(p, s, o).0, n, s)
    ensures CleanOutcome(p, n, s, o, Step(p, s, o).0)
  {
    CleanNext(p, n, s, o);
    DeploymentIsLast(p.pass.inst.spec, p.pos);
    if p.pos + 1 < Length(p.pass.inst.spec) {
      StillOnItsWay(p, n, s, Step(p, s, o).0);
    }
  }

  lemma CleanAt(p: Proc, n: nat, s: State, o: Oracle)
    requires OnItsWay(p, n, s) && p.pos == n && o.fault.NoFault? && Quiet(Step(p, s, o).0, n, s)
    ensures CleanOutcome(p, n, s, o, Step(p, s, o).0)
  {
    var p' := Step(p, s, o).0;
    BlockedStep(p, s, o);
    if p' == Working(p.pass, p.pos, ToApply) {
      StillOnItsWay(p, n, s, p');
    }
  }

  lemma CleanGoes(p: Proc, n: nat, s: State, o: Oracle)
    requires OnItsWay(p, n, s) && o.fault.NoFault?
    ensures Step(p, s, o).1 == s && CleanOutcome(p, n, s, o, Step(p, s, o).0)
  {
    QuietStepState(p, n, s, o);
    QuietStep(p, n, s, o);
    if p.pos < n {
      CleanBefore(p, n, s, o);
    } else {
      CleanAt(p, n, s, o);
    }
  }

  /** The pass is still on its way, or is over with this said. */
  ghost predicate GoesOrEnds(p': Proc, pass: Pass, n: nat, s: State, script: Script, at: nat)
    requires pass.id in s.insts && n <= Length(pass.inst.spec)
  {
    if p'.Finishing? then EndedAt(Rest(p', s, script, at).state, pass, n, s)
    else p'.Working? && p'.pass == pass && OnItsWay(p', n, s)
  }

  lemma OutcomeEnds(p: Proc, n: nat, s: State, o: Oracle, p': Proc, script: Script, at: nat)
    requires OnItsWay(p, n, s) && CleanOutcome(p, n, s, o, p') && Clean(script)
    ensures GoesOrEnds(p', p.pass, n, s, script, at)
  {
    if p'.Finishing? {
      CleanFinish(p', s, script, at);
      if n == Length(p.pass.inst.spec) {
        assert JudgedAt(Rest(p', s, script, at).state, p.pass, s, o.now);
      } else {
        assert HaltedAt(Rest(p', s, script, at).state, p.pass, n, s, o.message, o.now);
      }
    }
  }

  lemma CleanFirst(p: Proc, n: nat, s: State, script: Script, at: nat) returns (p': Proc)
    requires OnItsWay(p, n, s) && Clean(script)
    ensures Rest(p, s, script, at) == Rest(p', s, script, at + 1) && Remaining(p') < Remaining(p)
    ensures CleanOutcome(p, n, s, script(at), p')
  {
    p' := Step(p, s, script(at)).0;
    CleanGoes(p, n, s, script(at));
    RestStep(p, s, script, at);
  }

  /** One request of such a pass. */
  lemma CleanRequest(p: Proc, n: nat, s: State, script: Script, at: nat) returns (p': Proc)
    requires OnItsWay(p, n, s) && Clean(script)
    ensures Rest(p, s, script, at) == Rest(p', s, script, at + 1) && Remaining(p') < Remaining(p)
    ensures GoesOrEnds(p', p.pass, n, s, script, at + 1)
  {
    p' := CleanFirst(p, n, s, script, at);
    OutcomeEnds(p, n, s, script(at), p', script, at + 1);
  }

  /** A clean pass over what an earlier one has left ends where it began, but for what is said in the end. */
  lemma {:induction false} CleanRest(p: Proc, n: nat, s: State, script: Script, at: nat) returns (after: State)
    requires OnItsWay(p, n, s) && Clean(script)
    ensures after == Rest(p, s, script, at).state && EndedAt(after, p.pass, n, s)
    decreases Remaining(p)
  {
    var p' := CleanRequest(p, n, s, script, at);
    if p'.Finishing? {
      after := Rest(p', s, script, at + 1).state;
    } else {
      after := CleanRest(p', n, s, script, at + 1);
    }
  }

  lemma QuietStepState(p: Proc, n: nat, s: State, o: Oracle)
    requires p.Working? && Quiet(p, n, s)
    ensures Step(p, s, o).1 == s
  {
    QuietStepWritesNothing(p, n, s, o);
    StepWrites(p, s, o);
    forall id ensures id in s.insts <==> id in Step(p, s, o).1.insts {
      StepInstances(p, s, o, id);
    }
    forall id | id in s.insts ensures Step(p, s, o).1.insts[id] == s.insts[id] {
      StepInstances(p, s, o, id);
    }
  }

  // ----- The verdict is true of the server, and stored -----

  ghost predicate Truthful(p: Proc, s: State) {
    match p
    case Starting(_) => true
    case Working(pass, _, _) => pass.id in s.insts && s.insts[pass.id] == pass.inst
    case Finishing(pass, pos, _) =>
      && pass.id in s.insts && s.insts[pass.id] == pass.inst
      && (pos == Length(pass.inst.spec) ==> ReadyOf(pass).Some? && (ReadyOf(pass).value.status <==> Serving(pass, s)))
    case Finished(last, pos, result) =>
      last.Some? ==>
        && (result.error.None? ==>
              && last.value.id in s.insts
              && s.insts[last.value.id] == last.value.inst.(status := Observed(last.value)))
        && (pos == Length(last.value.inst.spec) ==>
              ReadyOf(last.value).Some? && (ReadyOf(last.value).value.status <==> Serving(last.value, s)))
  }

  lemma ReportTruthful(p: Proc, s: State, o: Oracle)
    requires p.Working? && Plan(p.pass.inst.spec, p.pos).DeploymentItem? && InProgress(p.pass, p.pos)
    ensures var (p', s') := Step(p, s, o);
            && p'.Finishing?
            && (p'.pos == Length(p.pass.inst.spec) ==>
                  ReadyOf(p'.pass).Some? && (ReadyOf(p'.pass).value.status <==> Serving(p.pass, s')))
  {
    var r := ApplyItem(p.pass, p.pos, s, o);
    ApplyIsStep(p, s, o);
    ReportedReady(p.pass, p.pos, r.1, o);
    assert r.1.Got? ==> r.0.objs[Target(p)] == r.1.value;
  }

  lemma ReportedReady(pass: Pass, pos: nat, reply: Reply<Object>, o: Oracle)
    requires pos < Length(pass.inst.spec) && Plan(pass.inst.spec, pos).DeploymentItem? && InProgress(pass, pos)
    ensures var p' := AfterApply(pass, pos, reply, o);
            && p'.Finishing?
            && (p'.pos == Length(pass.inst.spec) ==>
                  && reply.Got? && ReadyOf(p'.pass).Some?
                  && (ReadyOf(p'.pass).value.status <==> reply.value.readyReplicas >= 1))
  {
    if reply.Got? {
      ReportReports(pass, pos, reply.value.readyReplicas, o.now);
    }
  }

  lemma StepTruthful(p: Proc, s: State, o: Oracle)
    requires Truthful(p, s) && Reporting(p) && !o.fault.StaleRead?
    ensures Truthful(Step(p, s, o).0, Step(p, s, o).1)
  {
    if p.Working? {
      StepInstances(p, s, o, p.pass.id);
      StepGoes(p, s, o);
      if Plan(p.pass.inst.spec, p.pos).DeploymentItem? {
        ReportTruthful(p, s, o);
      }
    }
  }

  lemma TruthfulNext(p: Proc, s: State, o: Oracle)
    requires Truthful(p, s) && Reporting(p) && !o.fault.StaleRead?
    ensures Truthful(Step(p, s, o).0, Step(p, s, o).1) && Reporting(Step(p, s, o).0)
  {
    StepTruthful(p, s, o);
    StepReports(p, s, o);
  }

  lemma {:induction false} CutTruthful(p: Proc, s: State, script: Script, at: nat, n: nat)
    requires Truthful(p, s) && Reporting(p) && Fresh(script)
    ensures Truthful(Cut(p, s, script, at, n).proc, Cut(p, s, script, at, n).state)
    decreases n
  {
    if n > 0 && !p.Finished? {
      TruthfulNext(p, s, script(at));
      var (p', s') := Step(p, s, script(at));
      CutTruthful(p', s', script, at + 1, n - 1);
    }
  }

  /**
   * A pass that ends without an error has stored its verdict, and a full pass finds the instance ready
   * exactly when its Deployment serves.
   */
  lemma VerdictIsTrueAndStored(id: Id, s: State, script: Script, at: nat)
    requires Fresh(script) && Reconciled(id, s, script, at).proc.last.Some?
    ensures var r := Reconciled(id, s, script, at);
            var pass := r.proc.last.value;
            && ReadyOf(pass).Some?
            && (r.proc.result.error.None? ==>
                  id in r.state.insts && r.state.insts[id] == pass.inst.(status := Observed(pass)))
            && (r.proc.pos == Length(pass.inst.spec) ==> (ReadyOf(pass).value.status <==> Serving(pass, r.state)))
  {
    ReconciledIsRun(id, s, script, at);
    CutTruthful(Starting(id), s, script, at, Remaining(Starting(id)));
    RunKnown(id, s, script, at, Remaining(Starting(id)), AFTER_SECRETS);
    FinishedVerdict(Reconciled(id, s, script, at).proc);
  }

  // ----- Two passes in a row -----

  /** The instance is there with the status of a pass that came to rest at n. */
  ghost predicate AtRest(id: Id, n: nat, s: State)
    requires id in s.insts
  {
    var inst := s.insts[id];
    var pass := Subject(id, s);
    && StoppedAt(pass, n, s)
    && inst.status.observedGeneration == inst.generation
    && (if n == Length(inst.spec)
        then SettledStatus(inst.status.conditions, inst.spec, inst.generation, Serving(pass, s))
        else exists text :: Told(pass, n, s, text))
  }

  /** Reading the instance changes nothing but the seed. */
  lemma BeginsOnItsWay(id: Id, n: nat, s: State, o: Oracle)
    requires id in s.insts && AtRest(id, n, s) && o.fault.NoFault?
    ensures var inst := s.insts[id];
            var b := Begin(id, inst, o.now);
            && Step(Starting(id), s, o) == (b, s)
            && b.pass.inst == inst && b.pass.id == id
            && b.pass.status.conditions == C.Upsert(inst.status.conditions, Seed(inst.generation, o.now))
            && OnItsWay(b, n, s)
  {
    var inst := s.insts[id];
    PutGet(Subject(id, s), Seed(inst.generation, o.now), DatabaseReady);
    StoppedElsewhere(Subject(id, s), n, s, Begin(id, inst, o.now).pass, s);
  }

  /** The verdict on top of the seed. */
  lemma JudgedKeeps(id: Id, inst: Instance, s: State, b: Pass, after: State, t: int, u: int)
    requires id in s.insts && s.insts[id] == inst && b.id == id && b.inst == inst
    requires b.status.conditions == C.Upsert(inst.status.conditions, Seed(inst.generation, t))
    requires inst.status.observedGeneration == inst.generation
    requires SettledStatus(inst.status.conditions, inst.spec, inst.generation, Serving(b, s))
    requires JudgedAt(after, b, s, u)
    ensures id in after.insts
    ensures after == WithStatus(s, id, after.insts[id].status.conditions)
    ensures SameButReadyTime(inst.status.conditions, after.insts[id].status.conditions)
    ensures !Serving(b, s) ==> after == s
  {
    SeedThenVerdict(inst.status.conditions, inst.spec, inst.generation, Serving(b, s), t, u);
    if !Serving(b, s) {
      assert s.insts[id := inst] == s.insts;
    }
  }

  /** Equal, but for the server's text in a Ready that reports a refusal. */
  predicate SameButReadyText(a: seq<Condition>, b: seq<Condition>) {
    && |a| == |b|
    && forall i :: 0 <= i < |a| ==>
         || a[i] == b[i]
         || (a[i].kind == Ready && a[i].message.RequestFailed? && b[i].message.RequestFailed?
             && b[i] == a[i].(message := b[i].message))
  }

  /** A Ready that was false keeps its time through the seed and another false one. */
  lemma SeedThenFalse(cs: seq<Condition>, g: int, t: int, c: Condition)
    requires c.kind == Ready && !c.status && C.Get(cs, Ready).Some? && !C.Get(cs, Ready).value.status
    ensures var i := C.Find(cs, Ready);
            i < |cs| && C.Upsert(C.Upsert(cs, Seed(g, t)), c) == cs[i := c.(transition := cs[i].transition)]
  {
    C.FindIs(C.Upsert(cs, Seed(g, t)), Ready, C.Find(cs, Ready));
  }

  /** What is missing has been said already. */
  lemma MissingAgain(pass: Pass, b: Pass, n: nat, s: State, text: string, t: int, db: Condition)
    requires n < Length(pass.inst.spec) && Told(pass, n, s, text)
    requires b.status.conditions == C.Upsert(pass.status.conditions, Seed(pass.inst.generation, t))
    requires Missing(pass, n, s).Some?
    requires var (reason, message) := Missing(pass, n, s).value;
             db == Condition(DatabaseReady, false, pass.inst.generation, reason, message, db.transition)
    ensures C.Upsert(b.status.conditions, db) == b.status.conditions
  {
    PutGet(pass, Seed(pass.inst.generation, t), DatabaseReady);
    UpsertUnchanged(b.status.conditions, db);
  }

  /** What is said of the obstacle on top of the seed. */
  lemma SeedThenHalt(pass: Pass, b: Pass, n: nat, s: State, text: string, text': string, t: int, u: int)
    requires n < Length(pass.inst.spec) && Told(pass, n, s, text) && b.id == pass.id && b.inst == pass.inst
    requires b.status.conditions == C.Upsert(pass.status.conditions, Seed(pass.inst.generation, t))
    ensures var cs := pass.status.conditions;
            var i := C.Find(cs, Ready);
            && i < |cs|
            && Halted(b, n, s, text', u).pass.status.conditions == cs[i := cs[i].(message := Cause(pass, n, s, text'))]
  {
    var g := pass.inst.generation;
    SeedThenFalse(pass.status.conditions, g, t,
                  Condition(Ready, false, g, FailureReason(StageOf(Plan(pass.inst.spec, n))),
                            Cause(pass, n, s, text'), u));
    match Missing(pass, n, s)
    case Some((reason, message)) =>
      MissingAgain(pass, b, n, s, text, t, Condition(DatabaseReady, false, g, reason, message, u));
    case None =>
  }

  lemma HaltedKeeps(id: Id, n: nat, s: State, b: Pass, after: State, text: string, text': string, t: int, u: int)
    requires id in s.insts && b.id == id && b.inst == s.insts[id] && n < Length(b.inst.spec)
    requires b.status.conditions == C.Upsert(b.inst.status.conditions, Seed(b.inst.generation, t))
    requires b.inst.status.observedGeneration == b.inst.generation
    requires Told(Subject(id, s), n, s, text) && HaltedAt(after, b, n, s, text', u)
    ensures id in after.insts
    ensures after == WithStatus(s, id, after.insts[id].status.conditions)
    ensures SameButReadyText(b.inst.status.conditions, after.insts[id].status.conditions)
    ensures !ReadyOf(Subject(id, s)).value.message.RequestFailed? ==> after == s
  {
    SeedThenHalt(Subject(id, s), b, n, s, text, text', t, u);
    var cs := b.inst.status.conditions;
    var i := C.Find(cs, Ready);
    if !cs[i].message.RequestFailed? {
      assert cs[i := cs[i].(message := Cause(b, n, s, text'))] == cs;
      assert s.insts[id := b.inst] == s.insts;
    }
  }

  /**
   * What a second pass leaves of the status: the one condition that may change at all is Ready, in
   * its transition time if it was true, and in the server's text if it reported a refusal.
   */
  ghost predicate OnlyReadyTouched(id: Id, s: State, after: State)
    requires id in s.insts
  {
    && id in after.insts
    && var was, now := s.insts[id].status.conditions, after.insts[id].status.conditions;
    && after == WithStatus(s, id, now)
    && C.Get(was, Ready).Some?
    && (SameButReadyTime(was, now) || SameButReadyText(was, now))
    && (!C.Get(was, Ready).value.status && !C.Get(was, Ready).value.message.RequestFailed? ==> after == s)
  }

  lemma EndedKeeps(id: Id, n: nat, s: State, b: Pass, after: State, t: int)
    requires id in s.insts && AtRest(id, n, s) && b.id == id && b.inst == s.insts[id]
    requires b.status.conditions == C.Upsert(b.inst.status.conditions, Seed(b.inst.generation, t))
    requires EndedAt(after, b, n, s)
    ensures OnlyReadyTouched(id, s, after)
  {
    var inst := s.insts[id];
    if n == Length(inst.spec) {
      var u :| JudgedAt(after, b, s, u);
      JudgedKeeps(id, inst, s, b, after, t, u);
    } else {
      var text :| Told(Subject(id, s), n, s, text);
      var text', u :| HaltedAt(after, b, n, s, text', u);
      HaltedKeeps(id, n, s, b, after, text, text', t, u);
    }
  }

  /** A clean pass over an instance at rest touches nothing but its Ready. */
  lemma RepeatKeepsStatus(id: Id, n: nat, s: State, script: Script, at: nat)
    requires Clean(script) && id in s.insts && AtRest(id, n, s)
    ensures OnlyReadyTouched(id, s, Reconciled(id, s, script, at).state)
  {
    var o := script(at);
    var b := Begin(id, s.insts[id], o.now);
    BeginsOnItsWay(id, n, s, o);
    var after := CleanRest(b, n, s, script, at + 1);
    ReconciledBegins(id, s, script, at);
    EndedKeeps(id, n, s, b.pass, after, o.now);
  }

  /** What the verdict of a full pass says, in the stored instance. */
  lemma FullPassRests(id: Id, pass: Pass, s: State)
    requires StoppedAt(pass, Length(pass.inst.spec), s) && pass.id == id
    requires id in s.insts && s.insts[id] == pass.inst.(status := Observed(pass))
    requires exists v :: Verdict(pass, Length(pass.inst.spec), v)
    requires ReadyOf(pass).Some? && (ReadyOf(pass).value.status <==> Serving(pass, s))
    ensures AtRest(id, Length(pass.inst.spec), s)
  {
    var v :| Verdict(pass, Length(pass.inst.spec), v);
    StoppedElsewhere(pass, Length(pass.inst.spec), s, Subject(id, s), s);
  }

  /** What a pass that halted says, in the stored instance. */
  lemma HaltedPassRests(id: Id, pass: Pass, n: nat, s: State)
    requires n < Length(pass.inst.spec) && StoppedAt(pass, n, s) && pass.id == id && Reported(pass, n, s)
    requires id in s.insts && s.insts[id] == pass.inst.(status := Observed(pass))
    ensures AtRest(id, n, s)
    ensures Missing(pass, n, s).Some? ==> ReadyOf(Subject(id, s)).value.message == SeeDatabaseReady
  {
    var text :| Told(pass, n, s, text);
    StoppedElsewhere(pass, n, s, Subject(id, s), s);
    assert Told(Subject(id, s), n, s, text);
  }

  /** Nothing has failed the pass, nor the patch of its status. */
  ghost predicate HasStored(script: Script, p: Proc) {
    Unfailing(script, p) && (Clean(script) || p.result.error.None?)
  }

  /** Such a pass leaves the instance at rest. */
  lemma RestsAfterwards(id: Id, s: State, script: Script, at: nat)
    requires Fresh(script)
    requires HasStored(script, Reconciled(id, s, script, at).proc)
    ensures var r := Reconciled(id, s, script, at);
            && id in r.state.insts && AtRest(id, r.proc.pos, r.state)
            && (r.proc.result.requeueAfter > 0 ==>
                  ReadyOf(Subject(id, r.state)).Some?
                  && ReadyOf(Subject(id, r.state)).value.message == SeeDatabaseReady)
  {
    var r := Reconciled(id, s, script, at);
    var pass := r.proc.last.value;
    ComesToRest(id, s, script, at);
    VerdictIsTrueAndStored(id, s, script, at);
    if Clean(script) {
      CleanHalts(id, s, script, at);
    }
    ReconciledIsRun(id, s, script, at);
    RunKnown(id, s, script, at, Remaining(Starting(id)), 0);
    if r.proc.pos < Length(pass.inst.spec) {
      HaltedPassRests(id, pass, r.proc.pos, r.state);
    } else {
      var v :| Verdict(pass, r.proc.pos, v) && (v == r.proc.result || r.proc.result.error.Some?);
      FullPassRests(id, pass, r.state);
    }
  }

  /**
   * Two passes in a row, the first of which nothing has failed, the second clean, over an unchanged
   * world: the second leaves every object and every other instance as they are, and of the status it
   * touches Ready at most. Waiting for a database, it changes nothing at all.
   */
  lemma SecondPassIsNoop(id: Id, s: State, script: Script, at: nat, script': Script, at': nat)
    requires Fresh(script) && Clean(script')
    requires HasStored(script, Reconciled(id, s, script, at).proc)
    ensures var mid := Reconciled(id, s, script, at);
            var after := Reconciled(id, mid.state, script', at').state;
            && id in mid.state.insts && OnlyReadyTouched(id, mid.state, after)
            && (mid.proc.result.requeueAfter > 0 ==> after == mid.state)
  {
    var mid := Reconciled(id, s, script, at);
    RestsAfterwards(id, s, script, at);
    RepeatKeepsStatus(id, mid.proc.pos, mid.state, script', at');
  }
}
