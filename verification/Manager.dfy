/** The provider registry and its fork-join health check (pkg/providers/manager.go). */
module Providers {
  import opened Protocol

  /** A registered implementation; `id` tells implementations with one name apart. */
  datatype Provider = Provider(name: string, id: nat)

  /** The error of a ping, if it had one. */
  type PingResult = Option<string>

  /** Every provider is filed under its own name. */
  ghost predicate Filed(providers: map<string, Provider>) {
    forall n :: n in providers ==> providers[n].name == n
  }

  class Manager {
    var providers: map<string, Provider>

    ghost predicate Valid()
      reads this
    {
      Filed(providers)
    }

    constructor ()
      ensures Valid() && providers == map[]
    {
      providers := map[];
    }

    /** The first registration of a name wins; a later one is an error and changes nothing. */
    method RegisterProvider(p: Provider) returns (ok: bool)
      requires Valid()
      modifies this
      ensures Valid()
      ensures ok <==> p.name !in old(providers)
      ensures providers == if ok then old(providers)[p.name := p] else old(providers)
    {
      ok := p.name !in providers;
      if ok {
        providers := providers[p.name := p];
      }
    }

    /** The provider that a command names is the one that calls itself by that name. */
    method GetProvider(name: string) returns (found: Option<Provider>)
      requires Valid()
      ensures found.Some? <==> name in providers
      ensures found.Some? ==> found.value == providers[name] && found.value.name == name
    {
      found := if name in providers then Some(providers[name]) else None;
    }

    /** The copy that PingAll takes under the read lock, name by name. */
    method Snapshot() returns (copy: map<string, Provider>)
      ensures copy == providers
    {
      copy := map[];
      var left := providers.Keys;
      while left != {}
        invariant left <= providers.Keys
        invariant copy.Keys == providers.Keys - left
        invariant forall n :: n in copy ==> copy[n] == providers[n]
        decreases |left|
      {
        var name :| name in left;
        copy := copy[name := providers[name]];
        left := left - {name};
      }
    }
  }

  /** The loop of HealthCheck: the pointwise image of the ping results. */
  method HealthOf(results: map<string, PingResult>) returns (health: map<string, bool>)
    ensures health.Keys == results.Keys
    ensures forall n :: n in results ==> (health[n] <==> results[n].None?)
  {
    health := map[];
    var left := results.Keys;
    while left != {}
      invariant left <= results.Keys
      invariant health.Keys == results.Keys - left
      invariant forall n :: n in health ==> (health[n] <==> results[n].None?)
      decreases |left|
    {
      var name :| name in left;
      health := health[name := results[name].None?];
      left := left - {name};
    }
  }
}

/** PingAll as a transition system: one goroutine per provider, a wait group and a mutex-guarded result map. */
module PingAlls {
  import opened Protocol
  import opened Providers

  datatype Stage = Pinging | Storing(answer: PingResult) | Stored(answer: PingResult) | Gone(answer: PingResult)

  /** A ping goroutine with the arguments it was started with. */
  datatype Worker = Worker(provider: Provider, stage: Stage)

  datatype Ping = Ping(provider: Provider, answer: PingResult)

  datatype State = State(
    registry: map<string, Provider>,
    snapshot: Option<map<string, Provider>>,
    unstarted: set<string>,
    workers: map<string, Worker>,
    waitGroup: int,
    results: map<string, PingResult>,
    pings: seq<Ping>,
    returned: Option<map<string, PingResult>>)

  datatype Action =
    | Register(provider: Provider)
    | TakeSnapshot
    | Start(name: string)
    | Answer(name: string, answer: PingResult)
    | Store(name: string)
    | Finish(name: string)
    | Join

  function Init(registry: map<string, Provider>): State {
    State(registry, None, {}, map[], 0, map[], [], None)
  }

  predicate Enabled(s: State, a: Action) {
    match a
    case Register(p) => p.name !in s.registry
    case TakeSnapshot => s.snapshot.None?
    case Start(n) => s.snapshot.Some? && n in s.unstarted && n in s.snapshot.value
    case Answer(n, _) => n in s.workers && s.workers[n].stage.Pinging?
    case Store(n) => n in s.workers && s.workers[n].stage.Storing?
    case Finish(n) => n in s.workers && s.workers[n].stage.Stored?
    case Join => s.snapshot.Some? && s.unstarted == {} && s.waitGroup == 0 && s.returned.None?
  }

  function Next(s: State, a: Action): State
    requires Enabled(s, a)
  {
    match a
    case Register(p) => s.(registry := s.registry[p.name := p])
    case TakeSnapshot => s.(snapshot := Some(s.registry), unstarted := s.registry.Keys)
    case Start(n) =>
      s.(unstarted := s.unstarted - {n}, waitGroup := s.waitGroup + 1,
         workers := s.workers[n := Worker(s.snapshot.value[n], Pinging)])
    case Answer(n, answer) =>
      s.(workers := s.workers[n := s.workers[n].(stage := Storing(answer))],
         pings := s.pings + [Ping(s.workers[n].provider, answer)])
    case Store(n) =>
      s.(workers := s.workers[n := s.workers[n].(stage := Stored(s.workers[n].stage.answer))],
         results := s.results[n := s.workers[n].stage.answer])
    case Finish(n) =>
      s.(workers := s.workers[n := s.workers[n].(stage := Gone(s.workers[n].stage.answer))],
         waitGroup := s.waitGroup - 1)
    case Join => s.(returned := Some(s.results))
  }

  /** Goroutines that have not yet signalled the wait group. */
  function Live(workers: map<string, Worker>): set<string> {
    set n | n in workers && !workers[n].stage.Gone?
  }

  ghost predicate Counted(s: State) {
    s.waitGroup == |Live(s.workers)|
  }

  /** Started and unstarted names make up the snapshot, each with its own provider. */
  ghost predicate Covered(s: State) {
    match s.snapshot
    case None => s.unstarted == {} && s.workers == map[]
    case Some(m) =>
      && s.unstarted !! s.workers.Keys
      && s.unstarted + s.workers.Keys == m.Keys
      && forall n :: n in s.workers ==> s.workers[n].provider == m[n]
  }

  /** Results come only from goroutines that have stored, under their own name, what their provider answered. */
  ghost predicate Faithful(s: State) {
    && (forall n :: n in s.results <==> n in s.workers && (s.workers[n].stage.Stored? || s.workers[n].stage.Gone?))
    && (forall n :: n in s.results ==> s.results[n] == s.workers[n].stage.answer)
    && (forall n :: n in s.workers && !s.workers[n].stage.Pinging?
          ==> Ping(s.workers[n].provider, s.workers[n].stage.answer) in s.pings)
  }

  /** One ping per goroutine that is past its call. */
  function Pinged(workers: map<string, Worker>): set<string> {
    set n | n in workers && !workers[n].stage.Pinging?
  }

  ghost predicate PingedOnce(s: State) {
    |s.pings| == |Pinged(s.workers)|
  }

  /** What the caller gets. */
  ghost predicate Complete(s: State) {
    s.returned.Some? ==>
      && s.snapshot.Some?
      && s.returned.value.Keys == s.snapshot.value.Keys
      && |s.pings| == |s.snapshot.value|
      && forall n :: n in s.returned.value ==> Ping(s.snapshot.value[n], s.returned.value[n]) in s.pings
  }

  ghost predicate Inv(s: State) {
    Counted(s) && Covered(s) && Faithful(s) && PingedOnce(s) && Complete(s)
  }

  lemma StepKeepsCount(s: State, a: Action)
    requires Enabled(s, a) && Counted(s) && Covered(s)
    ensures Counted(Next(s, a))
  {
    var t := Next(s, a);
    match a
    case Start(n) => assert Live(t.workers) == Live(s.workers) + {n};
    case Answer(n, _) => assert Live(t.workers) == Live(s.workers);
    case Store(n) => assert Live(t.workers) == Live(s.workers);
    case Finish(n) =>
      assert n in Live(s.workers);
      assert Live(t.workers) == Live(s.workers) - {n};
    case _ =>
  }

  lemma StepKeepsCover(s: State, a: Action)
    requires Enabled(s, a) && Covered(s)
    ensures Covered(Next(s, a))
  {
  }

  lemma StepKeepsFaith(s: State, a: Action)
    requires Enabled(s, a) && Covered(s) && Faithful(s)
    ensures Faithful(Next(s, a))
  {
  }

  lemma StepKeepsPings(s: State, a: Action)
    requires Enabled(s, a) && Covered(s) && PingedOnce(s)
    ensures PingedOnce(Next(s, a))
  {
    var t := Next(s, a);
    match a
    case Start(n) => assert Pinged(t.workers) == Pinged(s.workers);
    case Answer(n, _) => assert Pinged(t.workers) == Pinged(s.workers) + {n};
    case Store(n) => assert Pinged(t.workers) == Pinged(s.workers);
    case Finish(n) => assert Pinged(t.workers) == Pinged(s.workers);
    case _ =>
  }

  lemma AllGone(s: State)
    requires Counted(s) && s.waitGroup == 0
    ensures forall n :: n in s.workers ==> s.workers[n].stage.Gone?
  {
    assert Live(s.workers) == {};
    forall n | n in s.workers
      ensures s.workers[n].stage.Gone?
    {
      assert n !in Live(s.workers);
    }
  }

  lemma GoneAreAll(s: State)
    requires Covered(s) && Faithful(s) && s.snapshot.Some? && s.unstarted == {}
    requires forall n :: n in s.workers ==> s.workers[n].stage.Gone?
    ensures s.results.Keys == s.snapshot.value.Keys == Pinged(s.workers)
  {
    assert s.workers.Keys == s.snapshot.value.Keys;
    assert Pinged(s.workers) == s.workers.Keys;
    assert s.results.Keys == s.workers.Keys;
  }

  lemma JoinIsComplete(s: State)
    requires Enabled(s, Join) && Counted(s) && Covered(s) && Faithful(s) && PingedOnce(s)
    ensures Complete(Next(s, Join))
  {
    AllGone(s);
    GoneAreAll(s);
    var m := s.snapshot.value;
    assert |m| == |m.Keys|;
    forall n | n in s.results
      ensures Ping(m[n], s.results[n]) in s.pings
    {
      assert n in s.workers && s.workers[n].provider == m[n];
    }
  }

  lemma StepKeepsComplete(s: State, a: Action)
    requires Enabled(s, a) && Inv(s)
    ensures Complete(Next(s, a))
  {
    match a
    case Join => JoinIsComplete(s);
    case Answer(n, _) => NoWorkAfterReturn(s, n);
    case _ =>
  }

  /** Nothing can be pending once the caller has its results. */
  lemma NoWorkAfterReturn(s: State, n: string)
    requires Inv(s) && n in s.workers && s.workers[n].stage.Pinging?
    ensures s.returned.None?
  {
    if s.returned.Some? {
      assert n !in Pinged(s.workers) && n in s.snapshot.value.Keys;
      assert Pinged(s.workers) <= s.snapshot.value.Keys - {n};
      SubsetCardinality(Pinged(s.workers), s.snapshot.value.Keys - {n});
      assert false;
    }
  }

  lemma {:induction false} SubsetCardinality(a: set<string>, b: set<string>)
    requires a <= b
    ensures |a| <= |b|
  {
    if a != {} {
      var x :| x in a;
      SubsetCardinality(a - {x}, b - {x});
    }
  }

  lemma StepKeepsInv(s: State, a: Action)
    requires Enabled(s, a) && Inv(s)
    ensures Inv(Next(s, a))
  {
    StepKeepsCount(s, a);
    StepKeepsCover(s, a);
    StepKeepsFaith(s, a);
    StepKeepsPings(s, a);
    StepKeepsComplete(s, a);
  }

  ghost predicate Runs(s: State, acts: seq<Action>)
    decreases |acts|
  {
    acts == [] || (Enabled(s, acts[0]) && Runs(Next(s, acts[0]), acts[1..]))
  }

  ghost function After(s: State, acts: seq<Action>): State
    requires Runs(s, acts)
    decreases |acts|
  {
    if acts == [] then s else After(Next(s, acts[0]), acts[1..])
  }

  lemma {:induction false} RunKeepsInv(s: State, acts: seq<Action>)
    requires Inv(s) && Runs(s, acts)
    ensures Inv(After(s, acts))
    decreases |acts|
  {
    if acts != [] {
      StepKeepsInv(s, acts[0]);
      RunKeepsInv(Next(s, acts[0]), acts[1..]);
    }
  }

  /**
   * Under every interleaving, registrations included: what PingAll returns has
   * exactly the names of its snapshot, each with its own provider's answer, and
   * every provider was pinged exactly once.
   */
  lemma PingAllReturnsEverything(registry: map<string, Provider>, acts: seq<Action>)
    requires Runs(Init(registry), acts)
    requires After(Init(registry), acts).returned.Some?
    ensures var s := After(Init(registry), acts);
            && s.snapshot.Some?
            && s.returned.value.Keys == s.snapshot.value.Keys
            && |s.pings| == |s.snapshot.value|
            && forall n :: n in s.returned.value ==> Ping(s.snapshot.value[n], s.returned.value[n]) in s.pings
  {
    assert Live(map[]) == {} && Pinged(map[]) == {};
    RunKeepsInv(Init(registry), acts);
  }

  // ---- Which providers, and what they answered ----

  /** p was registered at the start or by one of these actions. */
  ghost predicate Registered(registry: map<string, Provider>, acts: seq<Action>, p: Provider) {
    (p.name in registry && registry[p.name] == p) || Register(p) in acts
  }

  /** The registry holds the providers registered so far, and no others. */
  lemma {:induction false} RegistryHistory(s: State, acts: seq<Action>, p: Provider)
    requires Runs(s, acts) && Filed(s.registry)
    ensures var r := After(s, acts).registry;
            Filed(r) && ((p.name in r && r[p.name] == p) <==> Registered(s.registry, acts, p))
    decreases |acts|
  {
    if acts != [] {
      var t := Next(s, acts[0]);
      assert acts == [acts[0]] + acts[1..];
      RegistryHistory(t, acts[1..], p);
    }
  }

  lemma {:induction false} SnapshotStays(s: State, acts: seq<Action>)
    requires Runs(s, acts) && s.snapshot.Some?
    ensures After(s, acts).snapshot == s.snapshot
    decreases |acts|
  {
    if acts != [] {
      SnapshotStays(Next(s, acts[0]), acts[1..]);
    }
  }

  /** A snapshot is the registry at the moment at which it was taken. */
  lemma {:induction false} SnapshotHistory(s: State, acts: seq<Action>) returns (i: nat)
    requires Runs(s, acts) && s.snapshot.None? && After(s, acts).snapshot.Some?
    ensures i < |acts| && acts[i] == TakeSnapshot && Runs(s, acts[..i])
    ensures After(s, acts).snapshot == Some(After(s, acts[..i]).registry)
    decreases |acts|
  {
    var t := Next(s, acts[0]);
    if t.snapshot.Some? {
      i := 0;
      SnapshotStays(t, acts[1..]);
    } else {
      var j := SnapshotHistory(t, acts[1..]);
      i := j + 1;
      assert acts[..i][1..] == acts[1..][..j];
    }
  }

  /** The answers that providers gave in a run, by name. */
  function AnswersOf(acts: seq<Action>): seq<(string, PingResult)> {
    if acts == [] then []
    else (if acts[0].Answer? then [(acts[0].name, acts[0].answer)] else []) + AnswersOf(acts[1..])
  }

  function Heard(pings: seq<Ping>): (r: seq<(string, PingResult)>)
    ensures |r| == |pings|
  {
    seq(|pings|, i requires 0 <= i < |pings| => (pings[i].provider.name, pings[i].answer))
  }

  ghost predicate AllFiled(s: State) {
    Filed(s.registry) && (s.snapshot.Some? ==> Filed(s.snapshot.value))
  }

  lemma StepHears(s: State, a: Action)
    requires Enabled(s, a) && Covered(s) && AllFiled(s)
    ensures AllFiled(Next(s, a))
    ensures Heard(Next(s, a).pings) == Heard(s.pings) + AnswersOf([a])
  {
    if a.Answer? {
      assert s.workers[a.name].provider.name == a.name;
    }
  }

  /** The pings are the answers of the run, each by the provider of that name, in order. */
  lemma {:induction false} PingHistory(s: State, acts: seq<Action>)
    requires Runs(s, acts) && Covered(s) && AllFiled(s)
    ensures Heard(After(s, acts).pings) == Heard(s.pings) + AnswersOf(acts)
    decreases |acts|
  {
    if acts != [] {
      StepKeepsCover(s, acts[0]);
      StepHears(s, acts[0]);
      PingHistory(Next(s, acts[0]), acts[1..]);
      FirstAnswer(acts);
      Associative(Heard(s.pings), AnswersOf([acts[0]]), AnswersOf(acts[1..]));
    } else {
      assert Heard(s.pings) + [] == Heard(s.pings);
    }
  }

  lemma FirstAnswer(acts: seq<Action>)
    requires acts != []
    ensures AnswersOf(acts) == AnswersOf([acts[0]]) + AnswersOf(acts[1..])
  {
    assert [acts[0]][1..] == [];
  }

  lemma Associative(
    a: seq<(string, PingResult)>, b: seq<(string, PingResult)>, c: seq<(string, PingResult)>)
    ensures (a + b) + c == a + (b + c)
  {
  }

  /**
   * The end-to-end contract, in terms of the run alone: there is a moment at
   * which the snapshot is taken, and PingAll returns one entry for each
   * provider registered before it, initially or concurrently, and for no other;
   * the entry is what that provider answered, and every provider answered once.
   */
  lemma PingAllAnswersEveryProvider(registry: map<string, Provider>, acts: seq<Action>) returns (i: nat)
    requires Filed(registry) && Runs(Init(registry), acts)
    requires After(Init(registry), acts).returned.Some?
    ensures i < |acts| && acts[i] == TakeSnapshot
    ensures var s := After(Init(registry), acts);
            var result := s.returned.value;
            && (forall p :: Registered(registry, acts[..i], p)
                  ==> p.name in result && Ping(p, result[p.name]) in s.pings)
            && (forall n :: n in result ==> exists p: Provider :: p.name == n && Registered(registry, acts[..i], p))
            && Heard(s.pings) == AnswersOf(acts) && |AnswersOf(acts)| == |result|
  {
    var s := After(Init(registry), acts);
    PingAllReturnsEverything(registry, acts);
    i := SnapshotHistory(Init(registry), acts);
    var taken, result := s.snapshot.value, s.returned.value;
    forall p | Registered(registry, acts[..i], p)
      ensures p.name in result && Ping(p, result[p.name]) in s.pings
    {
      RegistryHistory(Init(registry), acts[..i], p);
      assert p.name in result.Keys;
    }
    forall n | n in result
      ensures exists p: Provider :: p.name == n && Registered(registry, acts[..i], p)
    {
      assert n in taken.Keys;
      RegistryHistory(Init(registry), acts[..i], taken[n]);
    }
    PingHistory(Init(registry), acts);
    assert Heard(s.pings) == AnswersOf(acts) by {
      assert Heard([]) == [];
    }
    SameSize(result, taken);
  }

  lemma SameSize(result: map<string, PingResult>, taken: map<string, Provider>)
    requires result.Keys == taken.Keys
    ensures |result| == |taken|
  {
    assert |result| == |result.Keys| && |taken| == |taken.Keys|;
  }

  /** So every provider registered before the call is in the result, with its own answer. */
  lemma PingAllCoversRegistry(registry: map<string, Provider>, acts: seq<Action>, n: string)
    requires Filed(registry) && n in registry && Runs(Init(registry), acts)
    requires After(Init(registry), acts).returned.Some?
    ensures var s := After(Init(registry), acts);
            n in s.returned.value && Ping(registry[n], s.returned.value[n]) in s.pings
  {
    var i := PingAllAnswersEveryProvider(registry, acts);
    assert Registered(registry, acts[..i], registry[n]);
  }

  /** PingAll is never deadlocked: until it has returned, one of its own steps can be taken. */
  lemma PingAllNeverStuck(s: State) returns (a: Action)
    requires Inv(s) && s.returned.None?
    ensures Enabled(s, a) && !a.Register?
  {
    if s.snapshot.None? {
      a := TakeSnapshot;
    } else if s.unstarted != {} {
      var n :| n in s.unstarted;
      assert n in s.unstarted + s.workers.Keys;
      a := Start(n);
    } else if n :| n in Live(s.workers) {
      a := match s.workers[n].stage
        case Pinging => Answer(n, None)
        case Storing(_) => Store(n)
        case _ => Finish(n);
    } else {
      assert Live(s.workers) == {};
      a := Join;
    }
  }
}
