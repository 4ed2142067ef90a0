// Where the value of a generated Secret comes from: the random bytes given to one request of the run,
// byte by byte, and every value equally likely.
module Minting {
  import opened Base
  import opened Api
  import opened Names
  import opened Resources
  import opened Server
  import opened Protocol
  import opened Steps
  import opened World
  import RandomKey

  /** 50 characters for Django's secret key, 32 for the password of the local account. */
  function ValueLength(g: Generated): nat {
    if g == SecretKey then 50 else 32
  }

  /** The spec leaves the value to the operator. */
  predicate LeftToOperator(g: Generated, spec: Spec) {
    if g == SecretKey then spec.secretKeySecretRef.None?
    else spec.admin.enabled != Some(false) && spec.admin.passwordSecretRef.None?
  }

  function LowSix(b: bv8): (i: nat)
    ensures i < 64
  {
    assert (b & 0x3F) < 64;
    (b & 0x3F) as nat
  }

  /** Each character is the one its byte's low six bits select. */
  predicate ReadOff(raw: seq<bv8>, n: nat, value: string) {
    |value| == n <= |raw| && forall i :: 0 <= i < n ==> value[i] == RandomKey.ALPHABET[LowSix(raw[i])]
  }

  // ----- One request -----

  /** The process comes to a generated Secret that the spec leaves to it, under a name the server takes. */
  predicate ComesToMint(p: Proc, g: Generated) {
    && p.Working? && p.sub.First? && Plan(p.pass.inst.spec, p.pos) == SecretItem(g)
    && LeftToOperator(g, p.pass.inst.spec) && ValidName(Target(p).name)
  }

  /**
   * A request that finds no Secret goes on to create one with value t for exactly those random bytes, of
   * the 50 or 32 asked for, that are t's preimages: 4^n for each t over the alphabet and none for any
   * other text.
   */
  lemma UniformlyMinted(p: Proc, s: State, o: Oracle, g: Generated, t: string)
    requires ComesToMint(p, g) && GetObject(s, Target(p), o).Absent?
    ensures forall raw: seq<bv8> :: |raw| == ValueLength(g) ==>
              (Step(p, s, o.(raw := Some(raw))).0 == Working(p.pass, p.pos, ToCreate(t)) <==>
               raw in RandomKey.Preimages(t))
    ensures |RandomKey.Preimages(t)| == if RandomKey.OverAlphabet(t) then RandomKey.Pow4(|t|) else 0
  {
    RandomKey.UniformKeys(t);
    forall raw: seq<bv8> | |raw| == ValueLength(g)
      ensures Step(p, s, o.(raw := Some(raw))).0 == Working(p.pass, p.pos, ToCreate(t)) <==>
              raw in RandomKey.Preimages(t)
    {
      RandomKey.PreimagesExact(t, raw);
      MintsKeyOf(p, s, o.(raw := Some(raw)), g, raw);
    }
  }

  lemma MintsKeyOf(p: Proc, s: State, o: Oracle, g: Generated, raw: seq<bv8>)
    requires ComesToMint(p, g) && GetObject(s, Target(p), o).Absent?
    requires o.raw == Some(raw) && |raw| == ValueLength(g)
    ensures Step(p, s, o).0 == Working(p.pass, p.pos, ToCreate(RandomKey.KeyOf(raw)))
  {
    assert raw[..ValueLength(g)] == raw;
    assert Step(p, s, o) == StepSecret(p.pass, p.pos, p.sub, s, o);
  }

  /** The request mints the value of the Secret at k, which the spec leaves to the operator. */
  ghost predicate Mints(p: Proc, s: State, o: Oracle, k: Key, value: string) {
    && p.Working? && Plan(p.pass.inst.spec, p.pos).SecretItem? && Target(p) == k
    && LeftToOperator(Plan(p.pass.inst.spec, p.pos).g, p.pass.inst.spec) && ValidName(k.name)
    && Step(p, s, o).0 == Working(p.pass, p.pos, ToCreate(value))
    && o.raw.Some? && ReadOff(o.raw.value, ValueLength(Plan(p.pass.inst.spec, p.pos).g), value)
  }

  /** Nothing but such a request leaves a process about to create a Secret. */
  lemma AboutToCreate(p: Proc, s: State, o: Oracle)
    requires var p' := Step(p, s, o).0; p'.Working? && p'.sub.ToCreate? && !p.Finished?
    ensures var p' := Step(p, s, o).0; Mints(p, s, o, Target(p'), p'.sub.value)
  {
    if p.Working? {
      StepGoes(p, s, o);
      assert Plan(p.pass.inst.spec, p.pos).SecretItem?;
      assert Step(p, s, o) == StepSecret(p.pass, p.pos, p.sub, s, o);
      MintReadsOff(Plan(p.pass.inst.spec, p.pos).g, p.pass.id, p.pass.inst.spec, o.raw);
    }
  }

  lemma MintReadsOff(g: Generated, id: Id, spec: Spec, raw: Option<seq<bv8>>)
    requires Mint(g, id, spec, raw).Value?
    ensures raw.Some? && ReadOff(raw.value, ValueLength(g), Mint(g, id, spec, raw).value)
  {
    var n := ValueLength(g);
    forall i | 0 <= i < n ensures Mint(g, id, spec, raw).value[i] == RandomKey.ALPHABET[LowSix(raw.value[i])] {
      assert raw.value[..n][i] == raw.value[i];
    }
  }

  // ----- In whole runs -----

  /** Event i of the run mints the value of the Secret at k. */
  ghost predicate MintedBy(evs: seq<Event>, i: nat, k: Key, value: string) {
    && i < |evs| && Legal(EMPTY, evs[..i])
    && evs[i].Request?
    && var w := Exec(EMPTY, evs[..i]);
    && evs[i].pid in w.procs && Mints(w.procs[evs[i].pid], w.state, evs[i].o, k, value)
  }

  lemma MintedInFront(evs: seq<Event>, m: nat, i: nat, k: Key, value: string)
    requires i < m <= |evs|
    ensures MintedBy(evs[..m], i, k, value) <==> MintedBy(evs, i, k, value)
  {
    assert evs[..m][..i] == evs[..i];
  }

  /** The process is about to create a Secret at k with this value. */
  predicate Pending(w: World, pid: nat, k: Key, value: string) {
    && pid in w.procs && w.procs[pid].Working? && w.procs[pid].sub == ToCreate(value) && Target(w.procs[pid]) == k
  }

  lemma PendingCame(w: World, e: Event, pid: nat, k: Key, value: string)
    requires Enabled(w, e) && Pending(Next(w, e), pid, k, value)
    ensures if e.Request? && e.pid == pid then Mints(w.procs[pid], w.state, e.o, k, value)
            else !Concerns(e, pid) && Pending(w, pid, k, value)
  {
    if e.Request? && e.pid == pid {
      AboutToCreate(w.procs[pid], w.state, e.o);
    }
  }

  lemma MintedByLast(evs: seq<Event>, w: World, k: Key, value: string)
    requires evs != [] && Legal(EMPTY, evs[..|evs| - 1]) && w == Exec(EMPTY, evs[..|evs| - 1])
    requires var e := evs[|evs| - 1]; e.Request? && e.pid in w.procs && Mints(w.procs[e.pid], w.state, e.o, k, value)
    ensures MintedBy(evs, |evs| - 1, k, value)
  {
  }

  lemma MintedBefore(evs: seq<Event>, front: seq<Event>, i: nat, pid: nat, k: Key, value: string)
    requires |front| < |evs| && front == evs[..|evs| - 1] && !Concerns(evs[|evs| - 1], pid)
    requires LastRequest(front, i, pid) && MintedBy(front, i, k, value)
    ensures LastRequest(evs, i, pid) && MintedBy(evs, i, k, value)
  {
    MintedInFront(evs, |front|, i, k, value);
    LastBefore(evs, front, i, pid);
  }

  /** Where a pending value comes from, one event back. */
  lemma PendingBefore(evs: seq<Event>, pid: nat, k: Key, value: string) returns (front: seq<Event>)
    requires Legal(EMPTY, evs) && Pending(Exec(EMPTY, evs), pid, k, value)
    ensures evs != [] && front == evs[..|evs| - 1] && Legal(EMPTY, front)
    ensures || (LastRequest(evs, |evs| - 1, pid) && MintedBy(evs, |evs| - 1, k, value))
            || (!Concerns(evs[|evs| - 1], pid) && Pending(Exec(EMPTY, front), pid, k, value))
  {
    var w := UpToLast(evs);
    front := evs[..|evs| - 1];
    PendingCame(w, evs[|evs| - 1], pid, k, value);
    if evs[|evs| - 1].Request? && evs[|evs| - 1].pid == pid {
      MintedByLast(evs, w, k, value);
    }
  }

  /** A value on its way to the server was minted by the last request of its process. */
  lemma {:induction false} PendingWasMinted(evs: seq<Event>, pid: nat, k: Key, value: string) returns (i: nat)
    requires Legal(EMPTY, evs) && Pending(Exec(EMPTY, evs), pid, k, value)
    ensures LastRequest(evs, i, pid) && MintedBy(evs, i, k, value)
    decreases |evs|
  {
    var front := PendingBefore(evs, pid, k, value);
    if !Concerns(evs[|evs| - 1], pid) {
      i := PendingWasMinted(front, pid, k, value);
      MintedBefore(evs, front, i, pid, k, value);
    } else {
      i := |evs| - 1;
    }
  }

  /** The request is the Create of a generated value at k. */
  predicate CreatesAt(w: World, e: Event, k: Key) {
    && e.Request? && e.pid in w.procs
    && w.procs[e.pid].Working? && w.procs[e.pid].sub.ToCreate? && Target(w.procs[e.pid]) == k
  }

  /** What the Secret holds: the key alone, or the account's name and its password. */
  function Holds(g: Generated, id: Id, spec: Spec, value: string): Content {
    if g == SecretKey then SecretContent(Labels(id.name, "secret-key"), map["PAPERLESS_SECRET_KEY" := value])
    else SecretContent(Labels(id.name, "admin"), map["username" := spec.admin.username, "password" := value])
  }

  /** A request that brings a Secret into being is the Create of the value it carries. */
  lemma BroughtByCreate(p: Proc, s: State, o: Oracle, k: Key)
    requires k.kind.SecretKind? && k !in s.objs && k in Step(p, s, o).1.objs
    ensures p.Working? && p.sub.ToCreate? && Target(p) == k && Plan(p.pass.inst.spec, p.pos).SecretItem?
    ensures Step(p, s, o).1.objs[k].content ==
            Holds(Plan(p.pass.inst.spec, p.pos).g, p.pass.id, p.pass.inst.spec, p.sub.value)
  {
    StepWritesAt(p, s, o, k);
  }

  /**
   * After any run a Secret comes into being only by the Create of a value that the same process's last
   * request before it has read off the random bytes it was given.
   */
  lemma SecretsComeFromCreate(evs: seq<Event>, e: Event, k: Key)
    requires Legal(EMPTY, evs) && Enabled(Exec(EMPTY, evs), e)
    requires k.kind.SecretKind? && !(e.Put? && e.k == k)
    requires k !in Exec(EMPTY, evs).state.objs && k in Next(Exec(EMPTY, evs), e).state.objs
    ensures CreatesAt(Exec(EMPTY, evs), e, k)
    ensures var w := Exec(EMPTY, evs);
            var p := w.procs[e.pid];
            var g := Plan(p.pass.inst.spec, p.pos).g;
            && Next(w, e).state.objs[k].content == Holds(g, p.pass.id, p.pass.inst.spec, p.sub.value)
            && exists i: nat :: LastRequest(evs, i, e.pid) && MintedBy(evs, i, k, p.sub.value)
  {
    var w := Exec(EMPTY, evs);
    BroughtByCreate(w.procs[e.pid], w.state, e.o, k);
    var i := PendingWasMinted(evs, e.pid, k, w.procs[e.pid].sub.value);
  }

  predicate Carries(obj: Object, key: string) {
    obj.content.SecretContent? && key in obj.content.data
  }

  /** The Secret carries a value that an event before the m-th of the run has minted for it. */
  ghost predicate CarriesMinted(evs: seq<Event>, m: nat, id: Id, g: Generated, obj: Object) {
    && Carries(obj, ValueKey(g))
    && exists i: nat :: i < m && MintedBy(evs, i, GeneratedKey(id, g), obj.content.data[ValueKey(g)])
  }

  /** Whoever else writes at the derived name writes a value minted for it, as a relabelling or a restore does. */
  ghost predicate ValueRespected(evs: seq<Event>, id: Id, g: Generated) {
    forall j :: 0 <= j < |evs| ==> evs[j].Put? && evs[j].k == GeneratedKey(id, g) ==>
      CarriesMinted(evs, j, id, g, evs[j].obj)
  }

  lemma MintedEarlier(evs: seq<Event>, m: nat, j: nat, id: Id, g: Generated, obj: Object)
    requires j <= m <= |evs|
    ensures CarriesMinted(evs, j, id, g, obj) ==> CarriesMinted(evs[..m], j, id, g, obj)
    ensures CarriesMinted(evs[..m], j, id, g, obj) ==> CarriesMinted(evs, m, id, g, obj)
  {
    if Carries(obj, ValueKey(g)) {
      forall i: nat | i < j {
        MintedInFront(evs, m, i, GeneratedKey(id, g), obj.content.data[ValueKey(g)]);
      }
    }
  }

  /** What a request leaves at the derived name is what was there, or a value just created. */
  lemma StepLeavesValue(p: Proc, s: State, o: Oracle, id: Id, g: Generated)
    requires GeneratedKey(id, g) in Step(p, s, o).1.objs
    ensures var k := GeneratedKey(id, g);
            var after := Step(p, s, o).1.objs[k];
            if k in s.objs then after.content == s.objs[k].content
            else && p.Working? && p.sub.ToCreate? && Target(p) == k
                 && Carries(after, ValueKey(g)) && after.content.data[ValueKey(g)] == p.sub.value
  {
    var k := GeneratedKey(id, g);
    if k in s.objs {
      StepKeeps(p, s, o, k);
    } else {
      BroughtByCreate(p, s, o, k);
      GeneratedKeyIs(id, g, p.pass.id, p.pass.inst.spec, p.pos);
    }
  }

  /**
   * In every run, whatever stands at a derived Secret name carries a value read off the random bytes of
   * one request of the run: 50 characters under PAPERLESS_SECRET_KEY, or 32 under password.
   */
  lemma {:induction false} GeneratedValuesAreMinted(evs: seq<Event>, id: Id, g: Generated)
    requires Legal(EMPTY, evs) && ValueRespected(evs, id, g)
    requires GeneratedKey(id, g) in Exec(EMPTY, evs).state.objs
    ensures CarriesMinted(evs, |evs|, id, g, Exec(EMPTY, evs).state.objs[GeneratedKey(id, g)])
    decreases |evs|
  {
    var n, k := |evs| - 1, GeneratedKey(id, g);
    var w := UpToLast(evs);
    var obj := Exec(EMPTY, evs).state.objs[k];
    if evs[n].Put? && evs[n].k == k {
      MintedLater(evs, n, id, g, obj);
    } else if k in w.state.objs {
      RespectedInFront(evs, n, id, g);
      GeneratedValuesAreMinted(evs[..n], id, g);
      MintedEarlier(evs, n, n, id, g, w.state.objs[k]);
      ValueStays(w, evs[n], id, g);
      MintedLater(evs, n, id, g, obj);
    } else {
      CreatedIsMinted(evs, w, id, g);
    }
  }

  lemma MintedLater(evs: seq<Event>, n: nat, id: Id, g: Generated, obj: Object)
    requires n <= |evs| && CarriesMinted(evs, n, id, g, obj)
    ensures CarriesMinted(evs, |evs|, id, g, obj)
  {
  }

  lemma RespectedInFront(evs: seq<Event>, n: nat, id: Id, g: Generated)
    requires n <= |evs| && ValueRespected(evs, id, g)
    ensures ValueRespected(evs[..n], id, g)
  {
    forall j | 0 <= j < n && evs[..n][j].Put? && evs[..n][j].k == GeneratedKey(id, g)
      ensures CarriesMinted(evs[..n], j, id, g, evs[..n][j].obj)
    {
      assert CarriesMinted(evs, j, id, g, evs[j].obj);
      MintedEarlier(evs, n, j, id, g, evs[j].obj);
    }
  }

  lemma ValueStays(w: World, e: Event, id: Id, g: Generated)
    requires var k := GeneratedKey(id, g);
             Enabled(w, e) && k in w.state.objs && k in Next(w, e).state.objs && !(e.Put? && e.k == k)
    ensures Next(w, e).state.objs[GeneratedKey(id, g)].content == w.state.objs[GeneratedKey(id, g)].content
  {
    if e.Request? {
      StepLeavesValue(w.procs[e.pid], w.state, e.o, id, g);
    }
  }

  lemma ComesByCreate(w: World, e: Event, id: Id, g: Generated) returns (pid: nat, value: string)
    requires var k := GeneratedKey(id, g);
             Enabled(w, e) && k !in w.state.objs && k in Next(w, e).state.objs && !(e.Put? && e.k == k)
    ensures Pending(w, pid, GeneratedKey(id, g), value)
    ensures var after := Next(w, e).state.objs[GeneratedKey(id, g)];
            Carries(after, ValueKey(g)) && after.content.data[ValueKey(g)] == value
  {
    assert e.Request?;
    pid, value := e.pid, w.procs[e.pid].sub.value;
    StepLeavesValue(w.procs[pid], w.state, e.o, id, g);
  }

  lemma PendingIsMinted(evs: seq<Event>, front: seq<Event>, pid: nat, id: Id, g: Generated, value: string, obj: Object)
    requires |front| < |evs| && front == evs[..|evs| - 1] && Legal(EMPTY, front)
    requires Pending(Exec(EMPTY, front), pid, GeneratedKey(id, g), value)
    requires Carries(obj, ValueKey(g)) && obj.content.data[ValueKey(g)] == value
    ensures CarriesMinted(evs, |evs|, id, g, obj)
  {
    var i := PendingWasMinted(front, pid, GeneratedKey(id, g), value);
    FrontMinted(evs, front, i, GeneratedKey(id, g), value);
    CarriesNow(evs, i, id, g, obj);
  }

  lemma FrontMinted(evs: seq<Event>, front: seq<Event>, i: nat, k: Key, value: string)
    requires |front| < |evs| && front == evs[..|evs| - 1] && MintedBy(front, i, k, value)
    ensures i < |evs| && MintedBy(evs, i, k, value)
  {
    MintedInFront(evs, |front|, i, k, value);
  }

  lemma CarriesNow(evs: seq<Event>, i: nat, id: Id, g: Generated, obj: Object)
    requires i < |evs| && Carries(obj, ValueKey(g))
    requires MintedBy(evs, i, GeneratedKey(id, g), obj.content.data[ValueKey(g)])
    ensures CarriesMinted(evs, |evs|, id, g, obj)
  {
  }

  lemma CreatedIsMinted(evs: seq<Event>, w: World, id: Id, g: Generated)
    requires evs != [] && Legal(EMPTY, evs) && Legal(EMPTY, evs[..|evs| - 1]) && w == Exec(EMPTY, evs[..|evs| - 1])
    requires var e, k := evs[|evs| - 1], GeneratedKey(id, g);
             && Enabled(w, e) && Exec(EMPTY, evs) == Next(w, e)
             && k !in w.state.objs && k in Next(w, e).state.objs && !(e.Put? && e.k == k)
    ensures CarriesMinted(evs, |evs|, id, g, Exec(EMPTY, evs).state.objs[GeneratedKey(id, g)])
  {
    var pid, value := ComesByCreate(w, evs[|evs| - 1], id, g);
    PendingIsMinted(evs, evs[..|evs| - 1], pid, id, g, value, Next(w, evs[|evs| - 1]).state.objs[GeneratedKey(id, g)]);
  }
}
