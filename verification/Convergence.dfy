// Any number of passes that fail or crash, then one that goes through: the same objects as one pass alone.
module Convergence {
  import opened Base
  import opened Api
  import opened Resources
  import opened Server
  import opened Protocol
  import opened Steps
  import opened Passes
  import opened Obstacles
  import opened Promises

  // ----- What passes for one spec can make of one object -----

  /** From x0 the item's object has become x, and it is now as asked. */
  ghost predicate Reached(id: Id, uid: Uid, spec: Spec, item: Item, x0: Option<Object>,
                          x: Option<Object>) {
    && x.Some?
    && !item.ExternalDbItem?
    && x.value.applied == OwnersFor(id, uid, spec, item)
    && (x0.Some? ==> x.value.uid == x0.value.uid)
    && x.value.readyReplicas == (if x0.Some? then x0.value.readyReplicas else 0)
    && match item
       case SecretItem(g) =>
         && x.value.others == []
         && (if x0.Some? then x.value.content == x0.value.content && ControlledBy(x0.value, uid) != spec.Deletes()
             else Generates(g, spec) && exists value :: x.value.content == SecretWith(g, id, spec, value))
       case ExternalDbItem => false
       case _ => x.value.content == ContentOf(id, spec, item) && x.value.others == Others(x0)
  }

  /** Either nothing has happened to the item's object yet, or it is as asked. */
  ghost predicate Between(pass: Pass, j: nat, s0: State, s: State)
    requires j < Length(pass.inst.spec)
  {
    var item := Plan(pass.inst.spec, j);
    var k := KeyOf(pass.id, pass.inst.spec, item);
    item.ExternalDbItem? || Find(s, k) == Find(s0, k)
    || Reached(pass.id, pass.inst.uid, pass.inst.spec, item, Find(s0, k), Find(s, k))
  }

  /** k is the object of an item that writes. */
  ghost predicate WritesTo(pass: Pass, k: Key) {
    exists j :: 0 <= j < Length(pass.inst.spec) && !Plan(pass.inst.spec, j).ExternalDbItem?
                && k == KeyOf(pass.id, pass.inst.spec, Plan(pass.inst.spec, j))
  }

  ghost predicate AllBetween(pass: Pass, s0: State, s: State) {
    && (forall j :: 0 <= j < Length(pass.inst.spec) ==> Between(pass, j, s0, s))
    && (forall k :: Find(s, k) == Find(s0, k) || WritesTo(pass, k))
    && AllKept(s0, s)
  }

  /** What the pass is about to write is still called for. */
  predicate Justified(p: Proc, s: State)
    requires p.Working?
  {
    && (p.sub.ToPatch? ==>
          && Target(p) in s.objs
          && ControlledBy(s.objs[Target(p)], p.pass.inst.uid) != p.pass.inst.spec.Deletes())
    && (p.sub.ToCreate? ==> Generates(Plan(p.pass.inst.spec, p.pos).g, p.pass.inst.spec))
  }

  lemma WrittenReached(p: Proc, s0: State, s: State, after: Object, o: Oracle)
    requires p.Working? && Justified(p, s) && AllKept(s0, s)
    requires Between(p.pass, p.pos, s0, s)
    requires Written(p, Find(s, Target(p)), after, o)
    ensures Reached(p.pass.id, p.pass.inst.uid, p.pass.inst.spec, Plan(p.pass.inst.spec, p.pos), Find(s0, Target(p)),
                    Some(after))
  {
    var item := Plan(p.pass.inst.spec, p.pos);
    var k := Target(p);
    if item.SecretItem? {
      if p.sub.ToPatch? && Find(s, k) != Find(s0, k) {
        if p.pass.inst.spec.Deletes() {
          ControlledByOperator(s.objs[k], p.pass.id, p.pass.inst.uid, p.pass.inst.uid);
        }
        assert false;
      }
      if p.sub.ToCreate? {
        assert after.content == SecretWith(item.g, p.pass.id, p.pass.inst.spec, p.sub.value);
      }
    }
  }

  lemma SecretJustified(p: Proc, s: State, o: Oracle)
    requires p.Working? && Plan(p.pass.inst.spec, p.pos).SecretItem?
    ensures var (p', s') := StepSecret(p.pass, p.pos, p.sub, s, o); p'.Working? ==> Justified(p', s')
  {
  }

  lemma JustifiedNext(p: Proc, s: State, o: Oracle)
    requires p.Working?
    ensures var (p', s') := Step(p, s, o); p'.Working? ==> Justified(p', s')
  {
    if Plan(p.pass.inst.spec, p.pos).SecretItem? {
      SecretJustified(p, s, o);
    } else {
      StepGoes(p, s, o);
      PastSecrets(p.pass, p.pos, Step(p, s, o).0, Step(p, s, o).1, o.now);
    }
  }

  /** Past the Secrets there is nothing to justify. */
  lemma PastSecrets(pass: Pass, pos: nat, p': Proc, s': State, now: int)
    requires pos < Length(pass.inst.spec) && !Plan(pass.inst.spec, pos).SecretItem? && Goes(pass, pos, p', now)
    ensures p'.Working? ==> Justified(p', s')
  {
    if p'.Working? {
      assert Fits(p') && !Plan(p'.pass.inst.spec, p'.pos).SecretItem?;
    }
  }

  lemma StepBetween(p: Proc, s0: State, s: State, o: Oracle)
    requires p.Working? && Justified(p, s) && AllBetween(p.pass, s0, s)
    ensures AllBetween(p.pass, s0, Step(p, s, o).1)
  {
    var s' := Step(p, s, o).1;
    StepWrites(p, s, o);
    StepAllKept(p, s, o);
    assert Between(p.pass, p.pos, s0, s);
    if s'.objs != s.objs {
      WrittenReached(p, s0, s, s'.objs[Target(p)], o);
      forall j | 0 <= j < Length(p.pass.inst.spec) ensures Between(p.pass, j, s0, s') {
        assert Between(p.pass, j, s0, s);
        OtherItemUntouched(p, j, s, s');
      }
      assert WritesTo(p.pass, Target(p));
    } else {
      forall j | 0 <= j < Length(p.pass.inst.spec) ensures Between(p.pass, j, s0, s') {
        assert Between(p.pass, j, s0, s);
      }
    }
  }

  lemma OtherItemUntouched(p: Proc, j: nat, s: State, s': State)
    requires p.Working? && j < Length(p.pass.inst.spec) && !Plan(p.pass.inst.spec, p.pos).ExternalDbItem?
    requires Target(p) in s'.objs && s'.objs == s.objs[Target(p) := s'.objs[Target(p)]]
    ensures var item := Plan(p.pass.inst.spec, j);
            var k := KeyOf(p.pass.id, p.pass.inst.spec, item);
            j == p.pos || item.ExternalDbItem? || Find(s', k) == Find(s, k)
  {
    if j < p.pos {
      PlanKeysDistinct(p.pass.id, p.pass.inst.spec, j, p.pos);
    } else if j > p.pos && !Plan(p.pass.inst.spec, j).ExternalDbItem? {
      PlanKeysDistinct(p.pass.id, p.pass.inst.spec, p.pos, j);
    }
  }

  /** The two passes are for the same incarnation and spec. */
  predicate SameSubject(a: Pass, b: Pass) {
    a.id == b.id && a.inst.uid == b.inst.uid && a.inst.spec == b.inst.spec
  }

  lemma AllBetweenFor(a: Pass, b: Pass, s0: State, s: State, s': State)
    requires AllBetween(a, s0, s) && SameSubject(a, b) && s'.objs == s.objs
    ensures AllBetween(b, s0, s')
  {
    forall j | 0 <= j < Length(b.inst.spec) ensures Between(b, j, s0, s') {
      assert Between(a, j, s0, s);
    }
    forall k | Find(s', k) != Find(s0, k) ensures WritesTo(b, k) {
      assert WritesTo(a, k);
    }
  }

  lemma {:induction false} CutBetween(p: Proc, s0: State, s: State, script: Script, at: nat, n: nat)
    requires Current(p).Some? && AllBetween(Current(p).value, s0, s)
    requires p.Working? ==> Justified(p, s)
    ensures AllBetween(Current(p).value, s0, Cut(p, s, script, at, n).state)
    decreases n
  {
    if n > 0 && !p.Finished? {
      var (p', s') := Step(p, s, script(at));
      if p.Working? {
        StepBetween(p, s0, s, script(at));
        JustifiedNext(p, s, script(at));
        StepChangedOnly(p, s, script(at));
        AllBetweenFor(p.pass, Current(p').value, s0, s', s');
      } else {
        AllBetweenFor(p.pass, Current(p').value, s0, s, s');
      }
      CutBetween(p', s0, s', script, at + 1, n - 1);
      var end := Cut(p', s', script, at + 1, n - 1).state;
      AllBetweenFor(Current(p').value, p.pass, s0, end, end);
    }
  }

  lemma {:induction false} CutSubject(p: Proc, s: State, script: Script, at: nat, n: nat, id: Id)
    requires id in s.insts
    ensures var s' := Cut(p, s, script, at, n).state;
            id in s'.insts && s'.insts[id].uid == s.insts[id].uid && s'.insts[id].spec == s.insts[id].spec
    decreases n
  {
    if n > 0 && !p.Finished? {
      StepInstances(p, s, script(at), id);
      var (p', s') := Step(p, s, script(at));
      CutSubject(p', s', script, at + 1, n - 1, id);
    }
  }

  function Subject(id: Id, s: State): Pass
    requires id in s.insts
  {
    Pass(id, s.insts[id], s.insts[id].status)
  }

  lemma AllBetweenSelf(pass: Pass, s: State)
    ensures AllBetween(pass, s, s)
  {
  }

  lemma BegunBetween(subject: Pass, p: Proc, s0: State, s: State, script: Script, at: nat, n: nat)
    requires p.Working? && p.sub.First? && SameSubject(subject, p.pass) && AllBetween(subject, s0, s)
    ensures AllBetween(subject, s0, Cut(p, s, script, at, n).state)
  {
    AllBetweenFor(subject, p.pass, s0, s, s);
    CutBetween(p, s0, s, script, at, n);
    var end := Cut(p, s, script, at, n).state;
    AllBetweenFor(p.pass, subject, s0, end, end);
  }

  /** One more attempt, cut off anywhere, keeps every object between its first state and its goal. */
  lemma TryBetween(id: Id, s0: State, s: State, script: Script, at: nat, n: nat)
    requires Fresh(script) && id in s0.insts && id in s.insts && SameSubject(Subject(id, s0), Subject(id, s))
    requires AllBetween(Subject(id, s0), s0, s)
    ensures var s' := Run(id, s, script, at, n).state;
            && id in s'.insts && SameSubject(Subject(id, s0), Subject(id, s'))
            && AllBetween(Subject(id, s0), s0, s')
  {
    CutSubject(Starting(id), s, script, at, n, id);
    if Current(Run(id, s, script, at, n).proc).Some? {
      RunBetween(Subject(id, s0), id, s0, s, script, at, n);
    } else {
      UnreadKeepsState(id, s, script, at, n);
    }
  }

  /** A pass that has read its instance freshly began with it. */
  lemma RunBegins(subject: Pass, id: Id, s: State, script: Script, at: nat, n: nat) returns (b: Proc, rest: nat)
    requires Current(Run(id, s, script, at, n).proc).Some? && Fresh(script) && id in s.insts
    requires SameSubject(subject, Subject(id, s))
    ensures Run(id, s, script, at, n) == Cut(b, s, script, at + 1, rest)
    ensures b.Working? && b.sub.First? && SameSubject(subject, b.pass)
  {
    RunFromBegin(id, s, script, at, n);
    ReadFresh(id, s, script(at));
    b, rest := Begin(id, s.insts[id], script(at).now), n - 1;
  }

  lemma RunBetween(subject: Pass, id: Id, s0: State, s: State, script: Script, at: nat, n: nat)
    requires Current(Run(id, s, script, at, n).proc).Some?
    requires Fresh(script) && id in s.insts && SameSubject(subject, Subject(id, s)) && AllBetween(subject, s0, s)
    ensures AllBetween(subject, s0, Run(id, s, script, at, n).state)
  {
    var b, rest := RunBegins(subject, id, s, script, at, n);
    BegunBetween(subject, b, s0, s, script, at + 1, rest);
  }

  /** A pass that has not read its instance has changed nothing. */
  lemma UnreadKeepsState(id: Id, s: State, script: Script, at: nat, n: nat)
    requires Current(Run(id, s, script, at, n).proc).None?
    ensures Run(id, s, script, at, n).state == s
  {
    if n > 0 {
      var (p', s') := Step(Starting(id), s, script(at));
      StartUnread(id, s, script(at));
      UnreadStays(p', s', script, at + 1, n - 1);
    }
  }

  lemma UnreadStays(p: Proc, s: State, script: Script, at: nat, n: nat)
    requires p.Finished? || Current(p).Some?
    requires Current(Cut(p, s, script, at, n).proc).None?
    ensures Cut(p, s, script, at, n).state == s
  {
    if p.Finished? {
      CutFinished(p, s, script, at, n);
    } else {
      CutKeepsCurrent(p, s, script, at, n);
    }
  }

  lemma StartUnread(id: Id, s: State, o: Oracle)
    ensures var (p', s') := Step(Starting(id), s, o); s' == s && (p'.Finished? || Current(p').Some?)
  {
  }

  lemma CutKeepsCurrent(p: Proc, s: State, script: Script, at: nat, n: nat)
    requires Current(p).Some?
    ensures Current(Cut(p, s, script, at, n).proc).Some?
  {
    CutChangedOnly(p, s, script, at, n);
  }

  lemma ReadFresh(id: Id, s: State, o: Oracle)
    requires !o.fault.StaleRead? && id in s.insts
    ensures GetInstance(s, id, o).Got? ==> GetInstance(s, id, o).value == s.insts[id]
    ensures SameSubject(Subject(id, s), Begin(id, s.insts[id], o.now).pass)
  {
  }

  lemma RunSubject(id: Id, s: State, script: Script, at: nat, n: nat)
    requires Fresh(script) && id in s.insts && Current(Run(id, s, script, at, n).proc).Some?
    ensures SameSubject(Subject(id, s), Current(Run(id, s, script, at, n).proc).value)
  {
    RunFromBegin(id, s, script, at, n);
    CutChangedOnly(Begin(id, GetInstance(s, id, script(at)).value, script(at).now), s, script, at + 1, n - 1);
  }

  // ----- A series of attempts -----

  datatype Try = Try(script: Script, at: nat, requests: nat)

  function After(id: Id, s: State, tries: seq<Try>): State
    decreases |tries|
  {
    if tries == [] then s
    else After(id, Run(id, s, tries[0].script, tries[0].at, tries[0].requests).state, tries[1..])
  }

  lemma {:induction false} AfterBetween(id: Id, s0: State, s: State, tries: seq<Try>)
    requires id in s0.insts && id in s.insts && SameSubject(Subject(id, s0), Subject(id, s))
    requires forall i :: 0 <= i < |tries| ==> Fresh(tries[i].script)
    requires AllBetween(Subject(id, s0), s0, s)
    ensures var s' := After(id, s, tries);
            && id in s'.insts && SameSubject(Subject(id, s0), Subject(id, s'))
            && AllBetween(Subject(id, s0), s0, s')
    decreases |tries|
  {
    if tries != [] {
      TryBetween(id, s0, s, tries[0].script, tries[0].at, tries[0].requests);
      AfterBetween(id, s0, Run(id, s, tries[0].script, tries[0].at, tries[0].requests).state, tries[1..]);
    }
  }

  // ----- The end does not depend on the way -----

  /** Equal up to what the server or the random source chose for an object that was not there before. */
  ghost predicate Alike(x0: Option<Object>, x: Option<Object>, y: Option<Object>) {
    || x == y
    || (&& x.Some? && y.Some?
        && x.value.applied == y.value.applied && x.value.others == y.value.others
        && x.value.readyReplicas == y.value.readyReplicas
        && (x0.Some? ==> x.value.uid == y.value.uid && x.value.content == y.value.content)
        && (x.value.content == y.value.content
            || (x.value.content.SecretContent? && y.value.content.SecretContent?
                && x.value.content.labels == y.value.content.labels
                && x.value.content.data.Keys == y.value.content.data.Keys)))
  }

  lemma GoalsAlike(pass: Pass, j: nat, s0: State, a: State, b: State)
    requires j < Length(pass.inst.spec) && !Plan(pass.inst.spec, j).ExternalDbItem?
    requires Between(pass, j, s0, a) && Between(pass, j, s0, b) && Done(pass, j, a) && Done(pass, j, b)
    ensures var k := KeyOf(pass.id, pass.inst.spec, Plan(pass.inst.spec, j));
            Alike(Find(s0, k), Find(a, k), Find(b, k))
  {
    var item := Plan(pass.inst.spec, j);
    var k := KeyOf(pass.id, pass.inst.spec, item);
  }

  lemma EndsAlike(pass: Pass, s0: State, a: State, b: State, k: Key)
    requires AllBetween(pass, s0, a) && AllBetween(pass, s0, b)
    requires DoneBefore(pass, 0, Length(pass.inst.spec), a) && DoneBefore(pass, 0, Length(pass.inst.spec), b)
    ensures Alike(Find(s0, k), Find(a, k), Find(b, k))
  {
    if Find(a, k) != Find(s0, k) || Find(b, k) != Find(s0, k) {
      assert WritesTo(pass, k);
      var j :| 0 <= j < Length(pass.inst.spec) && !Plan(pass.inst.spec, j).ExternalDbItem?
               && k == KeyOf(pass.id, pass.inst.spec, Plan(pass.inst.spec, j));
      assert Between(pass, j, s0, a) && Between(pass, j, s0, b) && Done(pass, j, a) && Done(pass, j, b);
      GoalsAlike(pass, j, s0, a, b);
    }
  }

  // ----- A clean pass goes through -----

  /** Nothing about the spec or the server stands in the way of a full pass. */
  ghost predicate Completable(pass: Pass, s: State) {
    var id, spec := pass.id, pass.inst.spec;
    && (forall g :: Generates(g, spec) && GeneratedKey(id, g) !in s.objs ==>
        Names.ValidName(Names.DerivedName(id.name, PartOf(g))))
    && (var k := KeyOf(id, spec, ExternalDbItem);
        if spec.database.IsExternal() then k in s.objs && HasCredentials(s.objs[k]) else Installable(id, s))
    && (forall j :: 0 <= j < Length(spec) ==> Unopposed(pass, j, s))
  }

  lemma CompletableIsUnblocked(pass: Pass, j: nat, s: State)
    requires Completable(pass, s) && j < Length(pass.inst.spec)
    ensures !Blocked(pass, j, s)
  {
    assert Unopposed(pass, j, s);
    if Plan(pass.inst.spec, j).SecretItem? {
      var g := Plan(pass.inst.spec, j).g;
      assert KeyOf(pass.id, pass.inst.spec, Plan(pass.inst.spec, j)) == GeneratedKey(pass.id, g);
    }
  }

  lemma CompletableStays(pass: Pass, s0: State, s: State)
    requires Completable(pass, s0) && AllBetween(pass, s0, s)
    ensures Completable(pass, s)
  {
    forall j | 0 <= j < Length(pass.inst.spec) ensures Unopposed(pass, j, s) {
      assert Unopposed(pass, j, s0) && Between(pass, j, s0, s);
    }
    var k := KeyOf(pass.id, pass.inst.spec, ExternalDbItem);
    assert k in s0.objs ==> Kept(k, s0.objs[k], s.objs[k]);
    assert CRD_KEY in s0.objs ==> CRD_KEY in s.objs;
  }

  /** No request fails, and the random source delivers. */
  ghost predicate Smooth(script: Script) {
    forall n: nat :: script(n).fault.NoFault? && Delivers(script(n))
  }

  lemma SmoothStep(p: Proc, s: State, o: Oracle)
    requires p.Working? && Steady(p, s) && Completable(p.pass, s) && o.fault.NoFault? && Delivers(o)
    ensures Through(p, Step(p, s, o).0, Step(p, s, o).1)
  {
    CompletableIsUnblocked(p.pass, p.pos, s);
    UnblockedStep(p, s, o);
  }

  lemma SmoothNext(p: Proc, s0: State, s: State, o: Oracle)
    requires p.Working? && Justified(p, s) && Steady(p, s) && AllBetween(p.pass, s0, s) && Completable(p.pass, s0)
    requires o.fault.NoFault? && Delivers(o)
    ensures var (p', s') := Step(p, s, o);
            && (p'.Working? || p'.Finishing?) && SameRun(p'.pass, p.pass)
            && (if p'.Working?
                then Justified(p', s') && Steady(p', s') && AllBetween(p'.pass, s0, s') && Completable(p'.pass, s0)
                else p'.pos == Length(p.pass.inst.spec))
  {
    var (p', s') := Step(p, s, o);
    CompletableStays(p.pass, s0, s);
    SmoothStep(p, s, o);
    StepBetween(p, s0, s, o);
    JustifiedNext(p, s, o);
    if p'.Working? {
      AllBetweenFor(p.pass, p'.pass, s0, s', s');
      CompletableFor(p.pass, p'.pass, s0);
    }
  }

  lemma {:induction false} SmoothRest(p: Proc, s0: State, s: State, script: Script, at: nat)
    requires p.Working? && Smooth(script)
    requires Justified(p, s) && Steady(p, s) && AllBetween(p.pass, s0, s) && Completable(p.pass, s0)
    ensures var r := Rest(p, s, script, at).proc;
            r.last.Some? && SameRun(r.last.value, p.pass) && r.pos == Length(p.pass.inst.spec)
    decreases Remaining(p)
  {
    var (p', s') := Step(p, s, script(at));
    RestStep(p, s, script, at);
    SmoothNext(p, s0, s, script(at));
    if p'.Working? {
      SmoothRest(p', s0, s', script, at + 1);
    } else {
      FinishingEnds(p', s', script, at + 1);
    }
  }

  lemma CompletableFor(a: Pass, b: Pass, s: State)
    requires Completable(a, s) && SameSubject(a, b)
    ensures Completable(b, s)
  {
    forall j | 0 <= j < Length(b.inst.spec) ensures Unopposed(b, j, s) {
      assert Unopposed(a, j, s);
    }
  }

  lemma FinishingEnds(p: Proc, s: State, script: Script, at: nat)
    requires p.Finishing?
    ensures var r := Rest(p, s, script, at).proc; r.last == Some(p.pass) && r.pos == p.pos
  {
    RestStep(p, s, script, at);
  }

  lemma ReconciledBegins(id: Id, s: State, script: Script, at: nat)
    requires script(at).fault.NoFault? && id in s.insts
    ensures Reconciled(id, s, script, at) == Rest(Begin(id, s.insts[id], script(at).now), s, script, at + 1)
  {
    assert Step(Starting(id), s, script(at)) == (Begin(id, s.insts[id], script(at).now), s);
  }

  /** From a completable state a pass in which nothing fails acknowledges every item. */
  lemma SmoothPassCompletes(id: Id, s: State, script: Script, at: nat)
    requires Smooth(script) && id in s.insts && Completable(Subject(id, s), s)
    ensures var r := Reconciled(id, s, script, at).proc;
            r.last.Some? && SameRun(r.last.value, Subject(id, s)) && r.pos == Length(s.insts[id].spec)
  {
    var b := Begin(id, s.insts[id], script(at).now);
    ReconciledBegins(id, s, script, at);
    AllBetweenSelf(b.pass, s);
    CompletableFor(Subject(id, s), b.pass, s);
    SmoothRest(b, s, s, script, at + 1);
  }

  /** What a pass in which nothing fails makes of a completable state. */
  lemma SmoothPassReachesGoals(id: Id, s0: State, s: State, script: Script, at: nat)
    requires Smooth(script) && id in s0.insts && id in s.insts && SameSubject(Subject(id, s0), Subject(id, s))
    requires AllBetween(Subject(id, s0), s0, s) && Completable(Subject(id, s0), s0)
    ensures var r := Reconciled(id, s, script, at);
            && r.proc.last.Some? && r.proc.pos == Length(r.proc.last.value.inst.spec)
            && AllBetween(Subject(id, s0), s0, r.state)
            && DoneBefore(Subject(id, s0), 0, Length(s0.insts[id].spec), r.state)
  {
    CompletableStays(Subject(id, s0), s0, s);
    CompletableFor(Subject(id, s0), Subject(id, s), s);
    SmoothPassCompletes(id, s, script, at);
    ReconciledIsRun(id, s, script, at);
    TryBetween(id, s0, s, script, at, Remaining(Starting(id)));
    PassWritesPrefix(id, s, script, at, 0);
    var r := Reconciled(id, s, script, at);
    forall j | 0 <= j < Length(s0.insts[id].spec) ensures Done(Subject(id, s0), j, r.state) {
      assert Done(r.proc.last.value, j, r.state);
    }
  }

  /**
   * Any series of attempts, each failing or crashing at any request, followed by one pass in which
   * nothing fails, leaves the objects that a single such pass leaves, up to what is chosen afresh
   * for an object that was not there; and what an attempt has once stored in a Secret stays.
   */
  lemma FaultsDoNotMatter(id: Id, s0: State, tries: seq<Try>, script: Script, at: nat, alone: Script, at': nat, k: Key)
    requires id in s0.insts && Completable(Subject(id, s0), s0)
    requires forall i :: 0 <= i < |tries| ==> Fresh(tries[i].script)
    requires Smooth(script) && Smooth(alone)
    ensures var s1 := After(id, s0, tries);
            var a, b := Reconciled(id, s1, script, at), Reconciled(id, s0, alone, at');
            && a.proc.last.Some? && a.proc.pos == Length(s0.insts[id].spec)
            && b.proc.last.Some? && b.proc.pos == Length(s0.insts[id].spec)
            && Alike(Find(s0, k), Find(a.state, k), Find(b.state, k))
            && (k in s1.objs ==> k in a.state.objs && Kept(k, s1.objs[k], a.state.objs[k]))
  {
    var s1 := After(id, s0, tries);
    AllBetweenSelf(Subject(id, s0), s0);
    AfterBetween(id, s0, s0, tries);
    SmoothPassReachesGoals(id, s0, s1, script, at);
    SmoothPassReachesGoals(id, s0, s0, alone, at');
    var a, b := Reconciled(id, s1, script, at), Reconciled(id, s0, alone, at');
    EndsAlike(Subject(id, s0), s0, a.state, b.state, k);
    ReconciledIsRun(id, s1, script, at);
    CutAllKept(Starting(id), s1, script, at, Remaining(Starting(id)));
    SmoothPassCompletes(id, s0, alone, at');
    CompletableStays(Subject(id, s0), s0, s1);
    CompletableFor(Subject(id, s0), Subject(id, s1), s1);
    SmoothPassCompletes(id, s1, script, at);
  }

  lemma {:induction false} AfterAllKept(id: Id, s: State, tries: seq<Try>)
    ensures AllKept(s, After(id, s, tries))
    decreases |tries|
  {
    if tries != [] {
      var s' := Run(id, s, tries[0].script, tries[0].at, tries[0].requests).state;
      CutAllKept(Starting(id), s, tries[0].script, tries[0].at, tries[0].requests);
      AfterAllKept(id, s', tries[1..]);
    }
  }

  /** What is stored in a Secret after the first i attempts, the value of its one Create, is there after all of them. */
  lemma {:induction false} StoredValueStays(id: Id, s: State, tries: seq<Try>, i: nat)
    requires i <= |tries|
    ensures AllKept(After(id, s, tries[..i]), After(id, s, tries))
    decreases |tries|
  {
    if i == 0 {
      AfterAllKept(id, s, tries);
    } else {
      var s' := Run(id, s, tries[0].script, tries[0].at, tries[0].requests).state;
      StoredValueStays(id, s', tries[1..], i - 1);
      assert tries[..i][1..] == tries[1..][..i - 1];
    }
  }
}
