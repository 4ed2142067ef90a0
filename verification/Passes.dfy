// A pass left to itself: what it has established when it stops, and where it stops.
module Passes {
  import opened Base
  import opened Api
  import opened Server
  import opened Protocol
  import opened Steps

  predicate Done(pass: Pass, j: nat, s: State)
    requires j < Length(pass.inst.spec)
  {
    var item := Plan(pass.inst.spec, j);
    && AtGoal(pass.id, pass.inst.uid, pass.inst.spec, item, Find(s, KeyOf(pass.id, pass.inst.spec, item)))
    && (item.ClusterItem? ==> Installable(pass.id, s))
  }

  /** CloudNativePG is installed and the Cluster's name is acceptable. */
  predicate Installable(id: Id, s: State) {
    CRD_KEY in s.objs && Names.ValidName(Names.DerivedName(id.name, Names.DbPart))
  }

  /** Items from..n are as asked. The first two are the Secrets, whose reads matter (see Honest). */
  predicate DoneBefore(pass: Pass, from: nat, n: nat, s: State)
    requires n <= Length(pass.inst.spec)
  {
    forall j :: from <= j < n ==> Done(pass, j, s)
  }

  const AFTER_SECRETS: nat := 2

  /** Secrets are read from the server itself: one that is there is found. */
  ghost predicate Honest(script: Script) {
    forall n: nat :: !script(n).fault.StaleSecret?
  }

  /** The instance is read as it is stored. */
  ghost predicate Fresh(script: Script) {
    forall n: nat :: !script(n).fault.StaleRead?
  }

  /** The pass goes on, and if it moved past this item the item is done. */
  ghost predicate MovesOn(p: Proc, p': Proc, s': State)
    requires p.Working?
  {
    && (p'.Working? || p'.Finishing?)
    && SameRun(p'.pass, p.pass)
    && p.pos <= p'.pos <= p.pos + 1
    && (p'.pos > p.pos ==> Done(p.pass, p.pos, s'))
  }

  /** A Secret that was looked up is passed over only when there is nothing to do. */
  lemma LookupMovesOn(p: Proc, s: State, o: Oracle)
    requires p.Working? && !o.fault.StaleSecret? && Plan(p.pass.inst.spec, p.pos).SecretItem?
    requires !p.sub.ToCreate? && !p.sub.ToPatch?
    ensures MovesOn(p, StepSecret(p.pass, p.pos, p.sub, s, o).0, StepSecret(p.pass, p.pos, p.sub, s, o).1)
  {
  }

  /** A write that is acknowledged has had its effect. */
  lemma SecretWriteMovesOn(p: Proc, s: State, o: Oracle)
    requires p.Working? && Plan(p.pass.inst.spec, p.pos).SecretItem? && (p.sub.ToCreate? || p.sub.ToPatch?)
    ensures MovesOn(p, StepSecret(p.pass, p.pos, p.sub, s, o).0, StepSecret(p.pass, p.pos, p.sub, s, o).1)
  {
    var s' := StepSecret(p.pass, p.pos, p.sub, s, o).1;
    SecretWrites(p, s, o);
    if s'.objs != s.objs {
      WrittenAtGoal(p, Find(s, Target(p)), s'.objs[Target(p)], o);
    }
  }

  lemma SecretMovesOn(p: Proc, s: State, o: Oracle)
    requires p.Working? && !o.fault.StaleSecret? && Plan(p.pass.inst.spec, p.pos).SecretItem?
    ensures MovesOn(p, Step(p, s, o).0, Step(p, s, o).1)
  {
    assert Step(p, s, o) == StepSecret(p.pass, p.pos, p.sub, s, o);
    if p.sub.ToCreate? || p.sub.ToPatch? {
      SecretWriteMovesOn(p, s, o);
    } else {
      LookupMovesOn(p, s, o);
    }
  }

  lemma CredentialsMoveOn(p: Proc, s: State, o: Oracle)
    requires p.Working? && Plan(p.pass.inst.spec, p.pos).ExternalDbItem?
    ensures MovesOn(p, Step(p, s, o).0, Step(p, s, o).1)
  {
    assert Step(p, s, o) == StepExternalDatabase(p.pass, p.pos, s, o);
    assert GetObject(s, Target(p), o).Got? ==> Find(s, Target(p)) == Some(GetObject(s, Target(p), o).value);
  }

  lemma CrdMovesOn(p: Proc, s: State, o: Oracle)
    requires p.Working? && Plan(p.pass.inst.spec, p.pos).ClusterItem? && p.sub.First?
    ensures MovesOn(p, Step(p, s, o).0, Step(p, s, o).1)
  {
    assert Step(p, s, o) == StepFindCrd(p.pass, p.pos, s, o);
  }

  lemma ApplyMovesOn(p: Proc, s: State, o: Oracle)
    requires p.Working?
    requires !Plan(p.pass.inst.spec, p.pos).SecretItem? && !Plan(p.pass.inst.spec, p.pos).ExternalDbItem?
    requires Plan(p.pass.inst.spec, p.pos).ClusterItem? ==> !p.sub.First? && Installable(p.pass.id, s)
    ensures MovesOn(p, Step(p, s, o).0, Step(p, s, o).1)
  {
    var r := ApplyItem(p.pass, p.pos, s, o);
    assert Step(p, s, o) == StepApply(p.pass, p.pos, s, o);
    assert Step(p, s, o).1 == r.0;
    assert r.1.Got? ==> Find(r.0, Target(p)) == Some(r.1.value);
  }

  /** A request that is acknowledged leaves its item as asked, given that a Secret was not read from a stale cache. */
  lemma AcknowledgedIsDone(p: Proc, s: State, o: Oracle)
    requires p.Working? && (p.pos < AFTER_SECRETS ==> !o.fault.StaleSecret?)
    requires p.sub.ToApply? ==> Installable(p.pass.id, s)
    ensures MovesOn(p, Step(p, s, o).0, Step(p, s, o).1)
  {
    var item := Plan(p.pass.inst.spec, p.pos);
    if item.SecretItem? {
      SecretMovesOn(p, s, o);
    } else if item.ExternalDbItem? {
      CredentialsMoveOn(p, s, o);
    } else if item.ClusterItem? && p.sub.First? {
      CrdMovesOn(p, s, o);
    } else {
      ApplyMovesOn(p, s, o);
    }
  }

  /** Everything acknowledged so far is as the spec that was read asks for. */
  ghost predicate Holds(p: Proc, from: nat, s: State) {
    match p
    case Starting(_) => true
    case Working(pass, pos, sub) => DoneBefore(pass, from, pos, s) && (sub.ToApply? ==> Installable(pass.id, s))
    case Finishing(pass, pos, _) => DoneBefore(pass, from, pos, s)
    case Finished(last, pos, _) => last.Some? ==> DoneBefore(last.value, from, pos, s)
  }

  /** A request leaves what is done for the other items alone. */
  lemma StepKeepsItem(p: Proc, s: State, o: Oracle, j: nat)
    requires p.Working? && j < p.pos && Done(p.pass, j, s)
    ensures Done(p.pass, j, Step(p, s, o).1)
  {
    StepWrites(p, s, o);
    var s' := Step(p, s, o).1;
    var id, spec := p.pass.id, p.pass.inst.spec;
    if s'.objs != s.objs {
      if !Plan(spec, p.pos).ExternalDbItem? {
        PlanKeysDistinct(id, spec, j, p.pos);
      }
      assert Find(s', KeyOf(id, spec, Plan(spec, j))) == Find(s, KeyOf(id, spec, Plan(spec, j)));
      assert CRD_KEY in s.objs ==> CRD_KEY in s'.objs;
    }
  }

  lemma ApplyFollowsCrd(p: Proc, s: State, o: Oracle)
    requires p.Working? && !p.sub.ToApply?
    ensures var (p', s') := Step(p, s, o); p'.Working? && p'.sub.ToApply? ==> Installable(p'.pass.id, s')
  {
    if p.pos == DATABASE_POS && Plan(p.pass.inst.spec, p.pos).ClusterItem? {
      assert Step(p, s, o) == StepFindCrd(p.pass, p.pos, s, o);
    } else {
      OthersDoNotApply(p, s, o);
    }
  }

  lemma OthersDoNotApply(p: Proc, s: State, o: Oracle)
    requires p.Working? && !Plan(p.pass.inst.spec, p.pos).ClusterItem?
    ensures var p' := Step(p, s, o).0; p'.Working? ==> !p'.sub.ToApply?
  {
    StepGoes(p, s, o);
    if Plan(p.pass.inst.spec, p.pos).SecretItem? {
      assert Step(p, s, o) == StepSecret(p.pass, p.pos, p.sub, s, o);
    } else if Plan(p.pass.inst.spec, p.pos).ExternalDbItem? {
      assert Step(p, s, o) == StepExternalDatabase(p.pass, p.pos, s, o);
    } else {
      ApplyIsStep(p, s, o);
    }
  }

  lemma ApplyIsAnswered(p: Proc, s: State, o: Oracle)
    requires p.Working? && p.sub.ToApply?
    ensures var p' := Step(p, s, o).0; p'.Working? ==> p'.sub.First?
  {
  }

  lemma HoldsAfter(p: Proc, p': Proc, s': State, from: nat)
    requires p.Working? && MovesOn(p, p', s')
    requires forall j :: from <= j < p.pos ==> Done(p.pass, j, s')
    requires p'.Working? && p'.sub.ToApply? ==> Installable(p'.pass.id, s')
    ensures Holds(p', from, s')
  {
    forall j | from <= j < p'.pos ensures Done(p'.pass, j, s') {
      assert Done(p.pass, j, s');
    }
  }

  lemma StepKeepsDone(p: Proc, s: State, o: Oracle, from: nat)
    requires p.Working? && (p.pos < AFTER_SECRETS ==> !o.fault.StaleSecret?)
    requires Holds(p, from, s)
    ensures Holds(Step(p, s, o).0, from, Step(p, s, o).1)
  {
    AcknowledgedIsDone(p, s, o);
    forall j | from <= j < p.pos ensures Done(p.pass, j, Step(p, s, o).1) {
      StepKeepsItem(p, s, o, j);
    }
    if p.sub.ToApply? {
      ApplyIsAnswered(p, s, o);
    } else {
      ApplyFollowsCrd(p, s, o);
    }
    HoldsAfter(p, Step(p, s, o).0, Step(p, s, o).1, from);
  }

  /** An unfinished item may still be read as absent; what comes after the Secrets does not mind. */
  lemma StaleSecretMovesOn(p: Proc, s: State, o: Oracle)
    requires p.Working? && p.pos < AFTER_SECRETS
    ensures var p' := Step(p, s, o).0;
            && (p'.Working? || p'.Finishing?) && SameRun(p'.pass, p.pass) && p'.pos <= AFTER_SECRETS
            && (p'.Working? ==> !p'.sub.ToApply?)
  {
    assert Step(p, s, o) == StepSecret(p.pass, p.pos, p.sub, s, o);
  }

  lemma FinishingHolds(p: Proc, s: State, o: Oracle, from: nat)
    requires p.Finishing? && Holds(p, from, s)
    ensures Holds(Step(p, s, o).0, from, Step(p, s, o).1)
  {
    var s' := Step(p, s, o).1;
    assert s'.objs == s.objs;
    forall j | from <= j < p.pos ensures Done(p.pass, j, s') {
      assert Done(p.pass, j, s);
    }
  }

  lemma StepHolds(p: Proc, s: State, o: Oracle, from: nat)
    requires Holds(p, from, s)
    requires from >= AFTER_SECRETS || !o.fault.StaleSecret?
    ensures Holds(Step(p, s, o).0, from, Step(p, s, o).1)
  {
    if p.Working? && p.pos < AFTER_SECRETS && o.fault.StaleSecret? {
      StaleSecretMovesOn(p, s, o);
    } else if p.Working? {
      StepKeepsDone(p, s, o, from);
    } else if p.Finishing? {
      FinishingHolds(p, s, o, from);
    }
  }

  /** Wherever a pass is cut off, everything it has acknowledged is as the spec it read asks for. */
  lemma {:induction false} CutHolds(p: Proc, s: State, script: Script, at: nat, n: nat, from: nat)
    requires from >= AFTER_SECRETS || Honest(script)
    requires Holds(p, from, s)
    ensures var c := Cut(p, s, script, at, n); Holds(c.proc, from, c.state)
    decreases n
  {
    if n > 0 && !p.Finished? {
      StepHolds(p, s, script(at), from);
      var (p', s') := Step(p, s, script(at));
      CutHolds(p', s', script, at + 1, n - 1, from);
    }
  }

  /** A pass left to itself stops within as many requests as it has left. */
  lemma {:induction false} RestIsCut(p: Proc, s: State, script: Script, at: nat, n: nat)
    requires n >= Remaining(p)
    ensures Cut(p, s, script, at, n) == Rest(p, s, script, at)
    decreases n
  {
    if n > 0 && !p.Finished? {
      var (p', s') := Step(p, s, script(at));
      RestIsCut(p', s', script, at + 1, n - 1);
    }
  }

  // ----- What a pass leaves untouched -----

  /** Every change is to the object of one of the items up to n. */
  ghost predicate ChangedOnly(pass: Pass, n: nat, s: State, s': State) {
    forall k :: Find(s, k) == Find(s', k) || UpTo(pass, n, k)
  }

  /** k is the object of an item at most at position n. */
  ghost predicate UpTo(pass: Pass, n: nat, k: Key) {
    exists j :: 0 <= j <= n && j < Length(pass.inst.spec)
        && k == KeyOf(pass.id, pass.inst.spec, Plan(pass.inst.spec, j))
  }

  /** Everything in s is still in s', up to what a pass may change. */
  ghost predicate AllKept(s: State, s': State) {
    forall k :: k in s.objs ==> k in s'.objs && Kept(k, s.objs[k], s'.objs[k])
  }

  lemma StepAllKept(p: Proc, s: State, o: Oracle)
    ensures AllKept(s, Step(p, s, o).1)
  {
    forall k | k in s.objs {
      StepKeeps(p, s, o, k);
    }
  }

  lemma {:induction false} CutAllKept(p: Proc, s: State, script: Script, at: nat, n: nat)
    ensures AllKept(s, Cut(p, s, script, at, n).state)
    decreases n
  {
    if n > 0 && !p.Finished? {
      StepAllKept(p, s, script(at));
      var (p', s') := Step(p, s, script(at));
      CutAllKept(p', s', script, at + 1, n - 1);
    }
  }

  lemma StepChangedOnly(p: Proc, s: State, o: Oracle)
    requires p.Working?
    ensures ChangedOnly(p.pass, p.pos, s, Step(p, s, o).1)
    ensures var p' := Step(p, s, o).0;
            (p'.Working? || p'.Finishing?) && SameRun(p'.pass, p.pass) && p.pos <= p'.pos
  {
    StepGoes(p, s, o);
    forall k | Find(s, k) != Find(Step(p, s, o).1, k) ensures UpTo(p.pass, p.pos, k) {
      StepWritesAt(p, s, o, k);
      assert k == Target(p);
    }
  }

  /** The pass a process is in the middle of, or was. */
  function Current(p: Proc): Option<Pass> {
    match p
    case Starting(_) => None
    case Working(pass, _, _) => Some(pass)
    case Finishing(pass, _, _) => Some(pass)
    case Finished(last, _, _) => last
  }

  /** A pass for the instance is under way. */
  predicate InFlight(p: Proc, id: Id) {
    (p.Working? || p.Finishing?) && p.pass.id == id
  }

  function Position(p: Proc): nat {
    if p.Starting? then 0 else p.pos
  }

  /** Finding the definition of Clusters does not yet get a pass past the database. */
  lemma CrdWaits(p: Proc, s: State, o: Oracle)
    requires p.Working? && Plan(p.pass.inst.spec, p.pos).ClusterItem? && p.sub.First?
    ensures Position(Step(p, s, o).0) == p.pos
  {
    assert Step(p, s, o) == StepFindCrd(p.pass, p.pos, s, o);
  }

  lemma ChangedOnlyTrans(a: Pass, b: Pass, m: nat, n: nat, s: State, t: State, u: State)
    requires ChangedOnly(a, m, s, t) && ChangedOnly(b, n, t, u) && SameRun(a, b) && m <= n
    ensures ChangedOnly(a, n, s, u)
  {
    forall k | Find(s, k) != Find(u, k) ensures UpTo(a, n, k) {
      assert Find(s, k) != Find(t, k) ==> UpTo(a, m, k);
      assert Find(t, k) != Find(u, k) ==> UpTo(b, n, k);
    }
  }

  lemma StepChanges(p: Proc, s: State, o: Oracle)
    requires Current(p).Some? && !p.Finished?
    ensures var (p', s') := Step(p, s, o);
            && Current(p').Some? && SameRun(Current(p').value, Current(p).value) && Position(p) <= Position(p')
            && ChangedOnly(Current(p).value, Position(p), s, s')
  {
    if p.Working? {
      StepChangedOnly(p, s, o);
    }
  }

  /** A pass changes nothing past the item it has got to. */
  lemma {:induction false} CutChangedOnly(p: Proc, s: State, script: Script, at: nat, n: nat)
    requires Current(p).Some?
    ensures var c := Cut(p, s, script, at, n);
            && Current(c.proc).Some? && SameRun(Current(c.proc).value, Current(p).value)
            && Position(p) <= Position(c.proc)
            && ChangedOnly(Current(p).value, Position(c.proc), s, c.state)
    decreases n
  {
    if n > 0 && !p.Finished? {
      var (p', s') := Step(p, s, script(at));
      StepChanges(p, s, script(at));
      CutChangedOnly(p', s', script, at + 1, n - 1);
      var c := Cut(p', s', script, at + 1, n - 1);
      ChangedOnlyTrans(Current(p).value, Current(p').value, Position(p), Position(c.proc), s, s', c.state);
    }
  }
}
