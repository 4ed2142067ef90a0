// What stops a pass in which no request fails, and what such a pass then reports.
module Obstacles {
  import opened Base
  import opened Api
  import opened Names
  import opened Resources
  import opened Server
  import opened Protocol
  import opened Steps
  import opened Passes
  import opened Reports

  ghost predicate Clean(script: Script) {
    forall n: nat :: script(n).fault.NoFault?
  }

  /** The random source has bytes enough for any generated value. */
  predicate Delivers(o: Oracle) {
    o.raw.Some? && |o.raw.value| >= SECRET_KEY_LENGTH
  }

  /** Nobody else controls the object the item is to own. */
  predicate Unopposed(pass: Pass, j: nat, s: State)
    requires j < Length(pass.inst.spec)
  {
    var item := Plan(pass.inst.spec, j);
    item.SecretItem? || item.ExternalDbItem?
    || OneController(OwnersFor(pass.id, pass.inst.uid, pass.inst.spec, item)
                     + Others(Find(s, KeyOf(pass.id, pass.inst.spec, item))))
  }

  /** What the database step would say is missing. */
  function Missing(pass: Pass, j: nat, s: State): Option<(Reason, Message)>
    requires j < Length(pass.inst.spec)
  {
    var k := KeyOf(pass.id, pass.inst.spec, Plan(pass.inst.spec, j));
    match Plan(pass.inst.spec, j)
    case ExternalDbItem =>
      if k !in s.objs then Some((ExternalDatabaseSecretMissing, SecretDoesNotExist(k.name)))
      else if !HasCredentials(s.objs[k])
      then Some((ExternalDatabaseSecretInvalid, SecretMissesKey(k.name, MissingKey(s.objs[k]))))
      else None
    case ClusterItem => if CRD_KEY in s.objs then None else Some((CloudNativePGMissing, InstallCloudNativePG))
    case _ => None
  }

  /** The object's own name is refused by the builder. */
  predicate Unnameable(pass: Pass, j: nat, s: State)
    requires j < Length(pass.inst.spec)
  {
    var item := Plan(pass.inst.spec, j);
    var k := KeyOf(pass.id, pass.inst.spec, item);
    match item
    case SecretItem(g) => k !in s.objs && Generates(g, pass.inst.spec) && !ValidName(k.name)
    case ClusterItem => !ValidName(k.name)
    case _ => false
  }

  /** The pass cannot get past the item, whatever it does. */
  predicate Blocked(pass: Pass, j: nat, s: State)
    requires j < Length(pass.inst.spec)
  {
    Missing(pass, j, s).Some? || Unnameable(pass, j, s) || !Unopposed(pass, j, s)
  }

  /** What Ready says of it; `text` is the server's, should it refuse the object. */
  function Cause(pass: Pass, j: nat, s: State, text: string): Message
    requires j < Length(pass.inst.spec)
  {
    if Missing(pass, j, s).Some? then SeeDatabaseReady
    else if Unnameable(pass, j, s) then InvalidName
    else RequestFailed(text)
  }

  /** The pass stopped at the item. */
  function Halted(pass: Pass, j: nat, s: State, text: string, now: int): Proc
    requires j < Length(pass.inst.spec)
  {
    match Missing(pass, j, s)
    case Some((reason, message)) => NotUsable(pass, j, reason, message, now)
    case None => Fail(pass, j, Cause(pass, j, s, text), now)
  }

  /** The next request will find what the last one saw. */
  predicate Steady(p: Proc, s: State)
    requires p.Working?
  {
    && (p.sub.ToCreate? ==> Target(p) !in s.objs && ValidName(Target(p).name))
    && (p.sub.ToPatch? ==> Target(p) in s.objs)
    && (p.sub.ToApply? ==> Installable(p.pass.id, s))
  }

  /** The pass goes on, or has gone all the way. */
  ghost predicate Through(p: Proc, p': Proc, s': State)
    requires p.Working?
  {
    || (p'.Working? && SameRun(p'.pass, p.pass) && Steady(p', s'))
    || (p'.Finishing? && SameRun(p'.pass, p.pass) && p'.pos == Length(p.pass.inst.spec) && p'.result.requeueAfter == 0)
  }

  /** The random source has failed the pass. */
  predicate RanDry(result: Ending) {
    result == Ending(0, Some(NoRandomBytes))
  }

  ghost predicate ThroughOrDry(p: Proc, p': Proc, s': State, o: Oracle)
    requires p.Working?
  {
    Through(p, p', s') || (p'.Finishing? && RanDry(p'.result) && !Delivers(o))
  }

  lemma SecretThrough(p: Proc, s: State, o: Oracle)
    requires p.Working? && Plan(p.pass.inst.spec, p.pos).SecretItem? && Steady(p, s) && o.fault.NoFault?
    requires !Blocked(p.pass, p.pos, s)
    ensures ThroughOrDry(p, Step(p, s, o).0, Step(p, s, o).1, o)
  {
    assert Step(p, s, o) == StepSecret(p.pass, p.pos, p.sub, s, o);
  }

  lemma DatabaseThrough(p: Proc, s: State, o: Oracle)
    requires p.Working? && p.pos == DATABASE_POS && p.sub.First? && o.fault.NoFault?
    requires !Blocked(p.pass, p.pos, s)
    ensures Through(p, Step(p, s, o).0, Step(p, s, o).1)
  {
    if Plan(p.pass.inst.spec, p.pos).ExternalDbItem? {
      assert Step(p, s, o) == StepExternalDatabase(p.pass, p.pos, s, o);
    } else {
      assert Step(p, s, o) == StepFindCrd(p.pass, p.pos, s, o);
    }
  }

  lemma ApplyThrough(p: Proc, s: State, o: Oracle)
    requires p.Working? && !Plan(p.pass.inst.spec, p.pos).SecretItem? && Unopposed(p.pass, p.pos, s) && o.fault.NoFault?
    requires p.pos == DATABASE_POS ==> p.sub.ToApply?
    ensures Through(p, Step(p, s, o).0, Step(p, s, o).1)
  {
    var r := ApplyItem(p.pass, p.pos, s, o);
    assert r.1.Got?;
    assert Step(p, s, o) == (AfterApply(p.pass, p.pos, r.1, o), r.0);
  }

  /** Where nothing blocks the item, a request that does not fail takes the pass on. */
  lemma UnblockedStep(p: Proc, s: State, o: Oracle)
    requires p.Working? && Steady(p, s) && o.fault.NoFault? && !Blocked(p.pass, p.pos, s)
    ensures ThroughOrDry(p, Step(p, s, o).0, Step(p, s, o).1, o)
  {
    if Plan(p.pass.inst.spec, p.pos).SecretItem? {
      SecretThrough(p, s, o);
    } else if p.pos == DATABASE_POS && p.sub.First? {
      DatabaseThrough(p, s, o);
    } else {
      ApplyThrough(p, s, o);
    }
  }

  /** Where something does, the pass halts, at the latest once it has found CloudNativePG. */
  ghost predicate HaltsNow(p: Proc, s: State, o: Oracle, p': Proc)
    requires p.Working?
  {
    || p' == Halted(p.pass, p.pos, s, o.message, o.now)
    || (p.sub.First? && Installable(p.pass.id, s) && Plan(p.pass.inst.spec, p.pos).ClusterItem?
        && p' == Working(p.pass, p.pos, ToApply))
  }

  lemma SecretHalts(p: Proc, s: State, o: Oracle)
    requires p.Working? && Plan(p.pass.inst.spec, p.pos).SecretItem? && Steady(p, s) && o.fault.NoFault?
    requires Blocked(p.pass, p.pos, s)
    ensures HaltsNow(p, s, o, Step(p, s, o).0)
  {
    assert Step(p, s, o) == StepSecret(p.pass, p.pos, p.sub, s, o);
  }

  lemma DatabaseHalts(p: Proc, s: State, o: Oracle)
    requires p.Working? && p.pos == DATABASE_POS && p.sub.First? && o.fault.NoFault?
    requires Blocked(p.pass, p.pos, s)
    ensures HaltsNow(p, s, o, Step(p, s, o).0)
  {
    if Plan(p.pass.inst.spec, p.pos).ExternalDbItem? {
      assert Step(p, s, o) == StepExternalDatabase(p.pass, p.pos, s, o);
    } else {
      assert Step(p, s, o) == StepFindCrd(p.pass, p.pos, s, o);
    }
  }

  lemma ApplyHalts(p: Proc, s: State, o: Oracle)
    requires p.Working? && !Plan(p.pass.inst.spec, p.pos).SecretItem? && Steady(p, s) && o.fault.NoFault?
    requires p.pos == DATABASE_POS ==> p.sub.ToApply?
    requires Blocked(p.pass, p.pos, s)
    ensures HaltsNow(p, s, o, Step(p, s, o).0)
  {
    var r := ApplyItem(p.pass, p.pos, s, o);
    assert !r.1.Got?;
    assert Step(p, s, o) == (AfterApply(p.pass, p.pos, r.1, o), r.0);
  }

  lemma BlockedStep(p: Proc, s: State, o: Oracle)
    requires p.Working? && Steady(p, s) && o.fault.NoFault? && Blocked(p.pass, p.pos, s)
    ensures HaltsNow(p, s, o, Step(p, s, o).0) && Step(p, s, o).1 == s
  {
    BlockedWritesNothing(p, s, o);
    if Plan(p.pass.inst.spec, p.pos).SecretItem? {
      SecretHalts(p, s, o);
    } else if p.pos == DATABASE_POS && p.sub.First? {
      DatabaseHalts(p, s, o);
    } else {
      ApplyHalts(p, s, o);
    }
  }

  /** A blocked item is not written, whatever becomes of the request. */
  lemma BlockedWritesNothing(p: Proc, s: State, o: Oracle)
    requires p.Working? && Steady(p, s) && Blocked(p.pass, p.pos, s)
    ensures Step(p, s, o).1 == s
  {
    if Plan(p.pass.inst.spec, p.pos).SecretItem? {
      assert Step(p, s, o) == StepSecret(p.pass, p.pos, p.sub, s, o);
    } else if p.pos == DATABASE_POS && p.sub.First? {
      DatabaseReadWritesNothing(p, s, o);
    } else {
      ApplyIsStep(p, s, o);
    }
  }

  /** Nor does the pass get any further, whatever becomes of the request. */
  lemma BlockedStays(p: Proc, s: State, o: Oracle)
    requires p.Working? && Steady(p, s) && Blocked(p.pass, p.pos, s)
    ensures var p' := Step(p, s, o).0;
            p'.Working? ==> p'.pass == p.pass && p'.pos == p.pos && p'.sub.ToApply? && Steady(p', s)
  {
    if Plan(p.pass.inst.spec, p.pos).SecretItem? {
      assert Step(p, s, o) == StepSecret(p.pass, p.pos, p.sub, s, o);
    } else if p.pos == DATABASE_POS && p.sub.First? {
      BlockedDatabaseStays(p, s, o);
    } else {
      ApplyIsStep(p, s, o);
    }
  }

  lemma BlockedDatabaseStays(p: Proc, s: State, o: Oracle)
    requires p.Working? && p.pos == DATABASE_POS && p.sub.First? && Blocked(p.pass, p.pos, s)
    ensures var p' := Step(p, s, o).0;
            p'.Working? ==> p'.pass == p.pass && p'.pos == p.pos && p'.sub.ToApply? && Steady(p', s)
  {
    if Plan(p.pass.inst.spec, p.pos).ExternalDbItem? {
      assert Step(p, s, o) == StepExternalDatabase(p.pass, p.pos, s, o);
    } else {
      assert Step(p, s, o) == StepFindCrd(p.pass, p.pos, s, o);
    }
  }

  // ----- What the halted pass reports -----

  /** The conditions say that the pass halted at the item. */
  predicate Told(pass: Pass, j: nat, s: State, text: string)
    requires j < Length(pass.inst.spec)
  {
    var ready, db, g := ReadyOf(pass), DatabaseOf(pass), pass.inst.generation;
    && ready.Some?
    && ready.value == Condition(Ready, false, g, FailureReason(StageOf(Plan(pass.inst.spec, j))),
                                Cause(pass, j, s, text), ready.value.transition)
    && (j > DATABASE_POS ==> DatabaseUsable(pass))
    && match Missing(pass, j, s)
       case Some((reason, message)) =>
         db.Some? && db.value == Condition(DatabaseReady, false, g, reason, message, db.value.transition)
       case None => true
  }

  lemma HaltedTells(pass: Pass, j: nat, s: State, text: string, now: int)
    requires j < Length(pass.inst.spec) && (j > DATABASE_POS ==> DatabaseUsable(pass))
    ensures Told(Halted(pass, j, s, text, now).pass, j, s, text)
  {
    match Missing(pass, j, s)
    case Some((reason, message)) => NotUsableTells(pass, reason, message, now);
    case None =>
      var ready := Condition(Ready, false, pass.inst.generation, FailureReason(StageOf(Plan(pass.inst.spec, j))),
                             Cause(pass, j, s, text), now);
      PutGet(pass, ready, Ready);
      PutGet(pass, ready, DatabaseReady);
  }

  lemma NotUsableTells(pass: Pass, reason: Reason, message: Message, now: int)
    ensures var after := NotUsable(pass, DATABASE_POS, reason, message, now).pass;
            var ready, db, g := ReadyOf(after), DatabaseOf(after), pass.inst.generation;
            && after.inst == pass.inst && after.id == pass.id
            && ready.Some? && db.Some?
            && ready.value == Condition(Ready, false, g, DatabaseNotReady, SeeDatabaseReady, ready.value.transition)
            && db.value == Condition(DatabaseReady, false, g, reason, message, db.value.transition)
  {
    var g := pass.inst.generation;
    var db := Condition(DatabaseReady, false, g, reason, message, now);
    var ready := Condition(Ready, false, g, DatabaseNotReady, SeeDatabaseReady, now);
    PutGet(pass, db, DatabaseReady);
    PutGet(Put(pass, db), ready, Ready);
    PutGet(Put(pass, db), ready, DatabaseReady);
  }
}
