// Two independent passes interleaved request by request, in any order.
module Interleave {
  import opened Api
  import opened Server
  import opened Protocol
  import opened Steps
  import opened Passes
  import opened Promises
  import opened Convergence
  import opened Commute

  /** Where both passes stand, and the server, after these turns: true is the first one's. */
  function Weave(p: Proc, q: Proc, s: State, script: Script, at: nat, script': Script, at': nat, turns: seq<bool>)
    : (Proc, Proc, State)
    decreases |turns|
  {
    if turns == [] then (p, q, s)
    else if turns[0] then
      var (p', s') := Step(p, s, script(at));
      Weave(p', q, s', script, at + 1, script', at', turns[1..])
    else
      var (q', s') := Step(q, s, script'(at'));
      Weave(p, q', s', script, at, script', at' + 1, turns[1..])
  }

  /** The process is one for this subject. */
  predicate For(subject: Pass, p: Proc) {
    match p
    case Starting(id) => id == subject.id
    case Working(pass, _, _) => pass.id == subject.id && pass.inst.spec == subject.inst.spec
    case Finishing(pass, _, _) => pass.id == subject.id && pass.inst.spec == subject.inst.spec
    case Finished(_, _, _) => true
  }

  /** The subject's instance is there with its spec. */
  predicate Stands(subject: Pass, s: State) {
    subject.id in s.insts && s.insts[subject.id].spec == subject.inst.spec
  }

  lemma StepStands(subject: Pass, p: Proc, s: State, o: Oracle)
    requires Stands(subject, s)
    ensures Stands(subject, Step(p, s, o).1)
  {
    StepInstances(p, s, o, subject.id);
  }

  lemma StepFor(subject: Pass, p: Proc, s: State, o: Oracle)
    requires For(subject, p) && Stands(subject, s) && !o.fault.StaleRead?
    ensures For(subject, Step(p, s, o).0)
  {
    if p.Working? {
      StepGoes(p, s, o);
    }
  }

  /** A request changes nothing outside its own subject's footprint. */
  lemma StepOutsideFor(subject: Pass, p: Proc, s: State, o: Oracle)
    requires For(subject, p)
    ensures Outside(subject, s, Step(p, s, o).1)
  {
    if p.Working? || p.Finishing? {
      StepOutside(p, s, o);
      OutsideFor(p.pass, subject, s, Step(p, s, o).1);
    }
  }

  lemma AgreeTrans(subject: Pass, s: State, t: State, u: State)
    requires Agree(subject, s, t) && Agree(subject, t, u)
    ensures Agree(subject, s, u)
  {
    forall k | ReadsOrWrites(subject, k) ensures Find(s, k) == Find(u, k) {
      assert Find(s, k) == Find(t, k) && Find(t, k) == Find(u, k);
    }
  }

  /** From states that look the same to it a process goes the same way. */
  lemma ProcAgrees(subject: Pass, p: Proc, s: State, t: State, script: Script, at: nat)
    requires For(subject, p) && Stands(subject, s) && Agree(subject, s, t) && Fresh(script)
    ensures Rest(p, s, script, at).proc == Rest(p, t, script, at).proc
    ensures Agree(subject, Rest(p, s, script, at).state, Rest(p, t, script, at).state)
  {
    if p.Starting? {
      AgreeFor(subject, Subject(p.id, s), s, t);
      ReconciledAgrees(p.id, s, t, script, at);
      AgreeFor(Subject(p.id, s), subject, Rest(p, s, script, at).state, Rest(p, t, script, at).state);
    } else if !p.Finished? {
      AgreeFor(subject, p.pass, s, t);
      RestAgrees(p, s, t, script, at);
      AgreeFor(p.pass, subject, Rest(p, s, script, at).state, Rest(p, t, script, at).state);
    }
  }

  /** The process is on its way to the end it would reach alone. */
  ghost predicate OnCourse(subject: Pass, p: Proc, s: State, script: Script, at: nat, end: Outcome) {
    && For(subject, p) && Stands(subject, s)
    && Rest(p, s, script, at).proc == end.proc
    && Agree(subject, Rest(p, s, script, at).state, end.state)
  }

  lemma RestAfterStep(p: Proc, s: State, script: Script, at: nat)
    ensures var (p', s') := Step(p, s, script(at));
            && Rest(p', s', script, at + 1).proc == Rest(p, s, script, at).proc
            && Rest(p', s', script, at + 1).state == Rest(p, s, script, at).state
  {
    if !p.Finished? {
      RestStep(p, s, script, at);
    }
  }

  /** Its own request keeps it on course. */
  lemma OwnRequest(subject: Pass, p: Proc, s: State, script: Script, at: nat, end: Outcome)
    requires OnCourse(subject, p, s, script, at, end) && Fresh(script)
    ensures OnCourse(subject, Step(p, s, script(at)).0, Step(p, s, script(at)).1, script, at + 1, end)
  {
    RestAfterStep(p, s, script, at);
    StepFor(subject, p, s, script(at));
    StepStands(subject, p, s, script(at));
  }

  /** And so does a request of the other one. */
  lemma OthersRequest(
    subject: Pass, other: Pass, p: Proc, q: Proc, s: State, script: Script, at: nat, o: Oracle, end: Outcome)
    requires OnCourse(subject, p, s, script, at, end) && Fresh(script)
    requires For(other, q) && Independent(other, subject)
    ensures OnCourse(subject, p, Step(q, s, o).1, script, at, end)
  {
    var s' := Step(q, s, o).1;
    StepOutsideFor(other, q, s, o);
    AgreeAfterOther(other, subject, s, s');
    StepStands(subject, q, s, o);
    ProcAgrees(subject, p, s, s', script, at);
    AgreeFlips(subject, Rest(p, s, script, at).state, Rest(p, s', script, at).state);
    AgreeTrans(subject, Rest(p, s', script, at).state, Rest(p, s, script, at).state, end.state);
  }

  lemma AgreeFlips(subject: Pass, s: State, t: State)
    requires Agree(subject, s, t)
    ensures Agree(subject, t, s)
  {
  }

  lemma IndependentFlips(a: Pass, b: Pass)
    requires Independent(a, b)
    ensures Independent(b, a)
  {
  }

  /** Nothing outside either footprint has changed. */
  ghost predicate OutsideBoth(a: Pass, b: Pass, s: State, t: State) {
    && (forall k :: WritesTo(a, k) || WritesTo(b, k) || Find(t, k) == Find(s, k))
    && t.insts.Keys == s.insts.Keys
    && (forall id :: id in s.insts && id != a.id && id != b.id ==> t.insts[id] == s.insts[id])
    && t.live == s.live
  }

  lemma OutsideBothNext(a: Pass, b: Pass, s: State, t: State, u: State)
    requires OutsideBoth(a, b, s, t) && (Outside(a, t, u) || Outside(b, t, u))
    ensures OutsideBoth(a, b, s, u)
  {
    forall k | !WritesTo(a, k) && !WritesTo(b, k) ensures Find(u, k) == Find(s, k) {
      assert Find(t, k) == Find(s, k);
    }
  }

  /** Both ends are reached whatever the order of the turns. */
  lemma {:induction false} WeaveEnds(
    a: Pass, b: Pass, p: Proc, q: Proc, s: State, t: State, script: Script, at: nat, script': Script, at': nat,
    turns: seq<bool>, endA: Outcome, endB: Outcome)
    requires Independent(a, b) && Fresh(script) && Fresh(script')
    requires OnCourse(a, p, t, script, at, endA) && OnCourse(b, q, t, script', at', endB) && OutsideBoth(a, b, s, t)
    requires var w := Weave(p, q, t, script, at, script', at', turns); w.0.Finished? && w.1.Finished?
    ensures var w := Weave(p, q, t, script, at, script', at', turns);
            && w.0 == endA.proc && w.1 == endB.proc
            && Agree(a, w.2, endA.state) && Agree(b, w.2, endB.state) && OutsideBoth(a, b, s, w.2)
    decreases |turns|
  {
    if turns != [] {
      IndependentFlips(a, b);
      if turns[0] {
        var (p', t') := Step(p, t, script(at));
        OwnRequest(a, p, t, script, at, endA);
        OthersRequest(b, a, q, p, t, script', at', script(at), endB);
        StepOutsideFor(a, p, t, script(at));
        OutsideBothNext(a, b, s, t, t');
        WeaveEnds(a, b, p', q, s, t', script, at + 1, script', at', turns[1..], endA, endB);
      } else {
        var (q', t') := Step(q, t, script'(at'));
        OwnRequest(b, q, t, script', at', endB);
        OthersRequest(a, b, p, q, t, script, at, script'(at'), endA);
        StepOutsideFor(b, q, t, script'(at'));
        OutsideBothNext(a, b, s, t, t');
        WeaveEnds(a, b, p, q', s, t', script, at, script', at' + 1, turns[1..], endA, endB);
      }
    }
  }

  /** The ends of both and what was there before determine the state. */
  lemma Determined(a: Pass, b: Pass, s: State, sa: State, sb: State, t: State, u: State)
    requires Independent(a, b) && a.id in s.insts && b.id in s.insts
    requires Agree(a, t, sa) && Agree(b, t, sb) && OutsideBoth(a, b, s, t)
    requires Outside(a, s, sa) && Outside(b, sa, u) && Agree(b, sb, u)
    ensures t == u
  {
    forall k ensures Find(t, k) == Find(u, k) {
      if WritesTo(a, k) {
        WritesAreRead(a, k);
        assert !WritesTo(b, k);
      } else if WritesTo(b, k) {
        WritesAreRead(b, k);
      }
    }
    forall k ensures k in t.objs <==> k in u.objs {
      assert Find(t, k) == Find(u, k);
    }
    forall k | k in t.objs ensures t.objs[k] == u.objs[k] {
      assert Find(t, k) == Find(u, k);
    }
    assert t.objs == u.objs;
    assert t.insts == u.insts;
  }

  /**
   * The passes of two independent instances, interleaved request by request in any order until both
   * have ended, leave the state that one after the other leaves, and each ends as it would alone.
   */
  lemma PassesInterleave(
    a: Id, b: Id, s: State, script: Script, at: nat, script': Script, at': nat, turns: seq<bool>)
    requires Fresh(script) && Fresh(script') && a in s.insts && b in s.insts
    requires Independent(Subject(a, s), Subject(b, s))
    requires var w := Weave(Starting(a), Starting(b), s, script, at, script', at', turns);
             w.0.Finished? && w.1.Finished?
    ensures var w := Weave(Starting(a), Starting(b), s, script, at, script', at', turns);
            var first, second := Reconciled(a, s, script, at), Reconciled(b, s, script', at');
            && w.0 == first.proc && w.1 == second.proc
            && w.2 == Reconciled(b, first.state, script', at').state
  {
    var pa, pb := Subject(a, s), Subject(b, s);
    var endA, endB := Reconciled(a, s, script, at), Reconciled(b, s, script', at');
    WeaveEnds(pa, pb, Starting(a), Starting(b), s, s, script, at, script', at', turns, endA, endB);
    var w := Weave(Starting(a), Starting(b), s, script, at, script', at', turns);
    var u := Reconciled(b, endA.state, script', at').state;
    ReconciledOutside(a, s, script, at);
    AgreeAfterOther(pa, pb, s, endA.state);
    ReconciledAgrees(b, s, endA.state, script', at');
    ReconciledOutside(b, endA.state, script', at');
    OutsideFor(Subject(b, endA.state), pb, endA.state, u);
    Determined(pa, pb, s, endA.state, endB.state, w.2, u);
  }
}
