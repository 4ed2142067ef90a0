// What a pass puts into the status. Nothing here depends on the server's objects, so it holds
// whatever anyone else does between two requests of the pass.
module Reports {
  import opened Base
  import opened Api
  import Server
  import opened Protocol
  import Steps

  /** A status claims readiness only together with a database that was ready in the same generation. */
  predicate Coherent(cs: seq<Condition>) {
    var ready, db := C.Get(cs, Ready), C.Get(cs, DatabaseReady);
    ready.Some? && ready.value.status ==> db.Some? && db.value.status && db.value.generation == ready.value.generation
  }

  function ReadyOf(pass: Pass): Option<Condition> {
    C.Get(pass.status.conditions, Ready)
  }

  function DatabaseOf(pass: Pass): Option<Condition> {
    C.Get(pass.status.conditions, DatabaseReady)
  }

  predicate DatabaseUsable(pass: Pass) {
    && DatabaseOf(pass).Some?
    && DatabaseOf(pass).value == UsableDatabase(pass.inst.spec, pass.inst.generation, DatabaseOf(pass).value.transition)
  }

  /** Ready is not yet decided while the pass is working, and DatabaseReady is true once it is past the database. */
  predicate InProgress(pass: Pass, pos: nat) {
    && ReadyOf(pass).Some?
    && !ReadyOf(pass).value.status
    && ReadyOf(pass).value.generation == pass.inst.generation
    && (pos > DATABASE_POS ==> DatabaseUsable(pass))
  }

  /**
   * The verdict: Ready names the first item that was not acknowledged, and only a full pass can find the
   * instance ready.
   */
  predicate Verdict(pass: Pass, pos: nat, result: Ending)
    requires pos <= Length(pass.inst.spec)
  {
    && ReadyOf(pass).Some?
    && var ready := ReadyOf(pass).value;
    && ready.generation == pass.inst.generation
    && (pos > DATABASE_POS ==> DatabaseUsable(pass))
    && (if pos < Length(pass.inst.spec) then
          && !ready.status
          && ready.reason == FailureReason(StageOf(Plan(pass.inst.spec, pos)))
          && (result.error.Some? || (pos == DATABASE_POS && result == Ending(NOT_READY_REQUEUE, None)))
        else
          && result == Ending(0, None)
          && ready == WorkloadCondition(ready.status, pass.inst.generation, ready.transition))
  }

  ghost predicate Reporting(p: Proc) {
    match p
    case Starting(_) => true
    case Working(pass, pos, _) => InProgress(pass, pos)
    case Finishing(pass, pos, result) => Verdict(pass, pos, result)
    case Finished(last, pos, result) =>
      last.Some? ==> exists r :: Verdict(last.value, pos, r) && (r == result || result.error.Some?)
  }

  lemma PutGet(pass: Pass, c: Condition, kind: ConditionType)
    ensures var after := Put(pass, c);
            && after.inst == pass.inst
            && C.Get(after.status.conditions, kind) ==
               if kind == c.kind then Some(C.Updated(C.Get(pass.status.conditions, kind), c))
               else C.Get(pass.status.conditions, kind)
  {
    C.UpsertGet(pass.status.conditions, c, kind);
  }

  lemma FailReports(pass: Pass, pos: nat, message: Message, now: int)
    requires pos < Length(pass.inst.spec) && InProgress(pass, pos)
    ensures Reporting(Fail(pass, pos, message, now))
  {
    var c := Condition(Ready, false, pass.inst.generation, FailureReason(StageOf(Plan(pass.inst.spec, pos))), message,
                       now);
    PutGet(pass, c, Ready);
    PutGet(pass, c, DatabaseReady);
  }

  lemma NotUsableReports(pass: Pass, pos: nat, reason: Reason, message: Message, now: int)
    requires pos == DATABASE_POS && InProgress(pass, pos)
    ensures Reporting(NotUsable(pass, pos, reason, message, now))
  {
    var pass1 := Set(pass, DatabaseReady, false, reason, message, now);
    PutGet(pass1, Condition(Ready, false, pass.inst.generation, FailureReason(Database),
                            SeeDatabaseReady, now), Ready);
  }

  lemma UsableReports(pass: Pass, pos: nat, now: int)
    requires pos + 1 < Length(pass.inst.spec) && InProgress(pass, pos)
    ensures Reporting(Usable(pass, pos, now))
  {
    var c := UsableDatabase(pass.inst.spec, pass.inst.generation, now);
    PutGet(pass, c, Ready);
    PutGet(pass, c, DatabaseReady);
  }

  lemma ReportReports(pass: Pass, pos: nat, readyReplicas: int, now: int)
    requires pos + 1 == Length(pass.inst.spec) && InProgress(pass, pos)
    ensures Reporting(Report(pass, pos, readyReplicas, now))
    ensures ReadyOf(Report(pass, pos, readyReplicas, now).pass).value.status <==> readyReplicas >= 1
  {
    var c := WorkloadCondition(readyReplicas >= 1, pass.inst.generation, now);
    PutGet(pass, c, Ready);
    PutGet(pass, c, DatabaseReady);
  }

  /** Every request keeps the report in order, from any server state and with any outcome. */
  lemma StepReports(p: Proc, s: Server.State, o: Server.Oracle)
    requires Reporting(p)
    ensures Reporting(Step(p, s, o).0)
  {
    match p
    case Starting(id) =>
      var r := Server.GetInstance(s, id, o);
      if r.Got? {
        PutGet(Pass(id, r.value, r.value.status), Seed(r.value.generation, o.now), Ready);
      }
    case Working(pass, pos, sub) =>
      Steps.StepGoes(p, s, o);
      GoesReports(pass, pos, Step(p, s, o).0, o.now);
    case Finishing(pass, pos, result) =>
    case Finished(_, _, _) =>
  }

  lemma GoesReports(pass: Pass, pos: nat, p': Proc, now: int)
    requires pos < Length(pass.inst.spec) && InProgress(pass, pos) && Steps.Goes(pass, pos, p', now)
    ensures Reporting(p')
  {
    if Steps.Stays(pass, pos, p') {
    } else if Steps.Fails(pass, pos, p', now) {
      var message :| p' == Fail(pass, pos, message, now);
      FailReports(pass, pos, message, now);
    } else if Steps.Stops(pass, pos, p', now) {
      var reason, message :| p' == NotUsable(pass, pos, reason, message, now);
      NotUsableReports(pass, pos, reason, message, now);
    } else if Steps.Concludes(pass, pos, p', now) {
      var n :| p' == Report(pass, pos, n, now);
      ReportReports(pass, pos, n, now);
    } else {
      UsableReports(pass, pos, now);
    }
  }

  lemma {:induction false} CutReports(p: Proc, s: Server.State, script: Script, at: nat, n: nat)
    requires Reporting(p)
    ensures Reporting(Cut(p, s, script, at, n).proc)
    decreases n
  {
    if n > 0 && !p.Finished? {
      StepReports(p, s, script(at));
      var (p', s') := Step(p, s, script(at));
      CutReports(p', s', script, at + 1, n - 1);
    }
  }

  /** What is about to be written is coherent, whatever the pass read. */
  lemma VerdictCoherent(pass: Pass, pos: nat, result: Ending)
    requires pos <= Length(pass.inst.spec) && Verdict(pass, pos, result)
    ensures Coherent(pass.status.conditions)
    ensures ReadyOf(pass).value.reason != Reconciling
  {
  }

  // ----- What a pass says when it ends, spelled out -----

  predicate ManagesCache(spec: Spec) {
    spec.cache.managed != Some(false)
  }

  /** Where the workload's own two objects begin. */
  function WorkloadPos(spec: Spec): nat {
    if ManagesCache(spec) then 10 else 7
  }

  /** What Ready says when the pass has ended at object n, or past them all with a Deployment that serves or not. */
  predicate SaysWhy(spec: Spec, n: nat, ready: Condition) {
    && (n < WorkloadPos(spec) + 2 ==> !ready.status)
    && ready.reason ==
       (if n < 2 then SecretsNotReady
       else if n < 6 then StorageNotReady
       else if n == 6 then DatabaseNotReady
       else if n < WorkloadPos(spec) then CacheNotReady
       else if n < WorkloadPos(spec) + 2 then WorkloadApplyFailed
       else if ready.status then WorkloadReady
       else WorkloadNotReady)
    && (n == WorkloadPos(spec) + 2 ==> ready.message == if ready.status then HasReadyReplica
        else WaitingForReadyReplica)
  }

  /** What DatabaseReady says of a pass that got past the database. */
  predicate SaysWhichDatabase(spec: Spec, db: Option<Condition>) {
    && db.Some? && db.value.status
    && (if spec.database.external.Some?
        then db.value.reason == ExternalDatabaseConfigured && db.value.message == UsingExternalDatabase
        else db.value.reason == CloudNativePGClusterApplied && db.value.message == ClusterHasBeenApplied)
  }

  lemma VerdictSpelled(pass: Pass, n: nat, result: Ending)
    requires n <= Length(pass.inst.spec) && Verdict(pass, n, result)
    ensures ReadyOf(pass).Some? && SaysWhy(pass.inst.spec, n, ReadyOf(pass).value)
    ensures n > 6 ==> SaysWhichDatabase(pass.inst.spec, DatabaseOf(pass))
    ensures result.error.None? ==> result.requeueAfter == if n == 6 then 30 else 0
  {
  }
}
