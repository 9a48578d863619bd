/** The health sweep of internal/controller/health.go: one goroutine a route, a channel of eight
    tokens, and the shared health map, under every interleaving. */
module Health {
  import opened Domain
  import opened Listing

  const LIMIT: nat := 8

  /** A goroutine: not spawned, waiting at the channel, holding a token with its probe in flight,
      still holding it after recording, or ended. */
  datatype Worker = Unspawned | Waiting | Probing | Recorded | Ended

  /** `results` and `deleted` record history: what each probe returned, and the ids whose entry a
      DeleteRoute removed while the sweep ran. */
  datatype Sweep = Sweep(
    visited: nat,
    workers: seq<Worker>,
    tokens: nat,
    health: map<string, HealthStatus>,
    cancelled: bool,
    results: map<nat, HealthStatus>,
    deleted: set<string>)

  datatype Event =
    | Visit
    | Acquire(i: nat)
    | GiveUp(i: nat)
    | Record(i: nat, status: HealthStatus)
    | Release(i: nat)
    | Cancel
    | DeleteEntry(id: string)

  function Start(routes: seq<Route>, health: map<string, HealthStatus>): Sweep {
    Sweep(0, seq(|routes|, _ => Unspawned), 0, health, false, map[], {})
  }

  predicate Enabled(routes: seq<Route>, s: Sweep, e: Event)
    requires |s.workers| == |routes|
  {
    match e
    case Visit => s.visited < |routes|
    case Acquire(i) => i < |routes| && s.workers[i] == Waiting && s.tokens < LIMIT
    case GiveUp(i) => i < |routes| && s.workers[i] == Waiting && s.cancelled
    case Record(i, status) => i < |routes| && s.workers[i] == Probing && status != HealthUnknown
    case Release(i) => i < |routes| && s.workers[i] == Recorded && s.tokens > 0
    case Cancel => true
    case DeleteEntry(_) => true
  }

  /** One step: an event that cannot happen now leaves the sweep as it is. */
  function Next(routes: seq<Route>, s: Sweep, e: Event): (s': Sweep)
    requires |s.workers| == |routes|
    ensures |s'.workers| == |routes|
  {
    if !Enabled(routes, s, e) then s
    else
      match e
      case Visit =>
        var i := s.visited;
        if i >= |s.workers| then s
        else if routes[i].enabled then s.(visited := i + 1, workers := s.workers[i := Waiting])
        else s.(visited := i + 1, workers := s.workers[i := Ended], health := s.health[routes[i].id := HealthUnknown],
                deleted := s.deleted - {routes[i].id})
      case Acquire(i) => s.(workers := s.workers[i := Probing], tokens := s.tokens + 1)
      case GiveUp(i) => s.(workers := s.workers[i := Ended])
      case Record(i, status) =>
        s.(workers := s.workers[i := Recorded], health := s.health[routes[i].id := status],
           results := s.results[i := status], deleted := s.deleted - {routes[i].id})
      case Release(i) => s.(workers := s.workers[i := Ended], tokens := s.tokens - 1)
      case Cancel => s.(cancelled := true)
      case DeleteEntry(id) => s.(health := s.health - {id}, deleted := s.deleted + {id})
  }

  function Run(routes: seq<Route>, s: Sweep, events: seq<Event>): (s': Sweep)
    requires |s.workers| == |routes|
    ensures |s'.workers| == |routes|
  {
    if events == [] then s else Next(routes, Run(routes, s, events[..|events| - 1]), events[|events| - 1])
  }

  // ----- Sums over the workers -----

  function Sum(workers: seq<Worker>, weight: Worker -> nat): nat {
    if workers == [] then 0 else Sum(workers[..|workers| - 1], weight) + weight(workers[|workers| - 1])
  }

  lemma {:induction false} SumUpdate(workers: seq<Worker>, weight: Worker -> nat, i: nat, w: Worker)
    requires i < |workers|
    ensures Sum(workers[i := w], weight) + weight(workers[i]) == Sum(workers, weight) + weight(w)
  {
    var n := |workers| - 1;
    var after := workers[i := w];
    if i < n {
      SumUpdate(workers[..n], weight, i, w);
      assert after[..n] == workers[..n][i := w];
    } else {
      assert after[..n] == workers[..n];
    }
  }

  lemma {:induction false} SumZero(workers: seq<Worker>, weight: Worker -> nat)
    requires forall i :: 0 <= i < |workers| ==> weight(workers[i]) == 0
    ensures Sum(workers, weight) == 0
  {
    if workers != [] {
      SumZero(workers[..|workers| - 1], weight);
    }
  }

  lemma {:induction false} SumBounded(workers: seq<Worker>, weight: Worker -> nat, bound: nat)
    requires forall i :: 0 <= i < |workers| ==> weight(workers[i]) <= bound
    ensures Sum(workers, weight) <= bound * |workers|
  {
    if workers != [] {
      SumBounded(workers[..|workers| - 1], weight, bound);
    }
  }

  function HoldsToken(w: Worker): nat {
    if w == Probing || w == Recorded then 1 else 0
  }

  function StepsLeft(w: Worker): nat {
    match w
    case Unspawned => 4
    case Waiting => 3
    case Probing => 2
    case Recorded => 1
    case Ended => 0
  }

  function Holders(s: Sweep): nat {
    Sum(s.workers, HoldsToken)
  }

  function Remaining(s: Sweep): nat {
    Sum(s.workers, StepsLeft)
  }

  // ----- The invariant -----

  /** What is settled about the route at `i`. */
  ghost predicate Settled(routes: seq<Route>, s: Sweep, i: nat)
    requires |s.workers| == |routes| && i < |routes|
  {
    var id, w := routes[i].id, s.workers[i];
    && (w == Unspawned <==> i >= s.visited)
    && (i < s.visited && !routes[i].enabled ==>
          w == Ended && (id in s.deleted || (id in s.health && s.health[id] == HealthUnknown)))
    && (i in s.results
        ==> s.results[i] != HealthUnknown && (id in s.deleted || (id in s.health && s.health[id] == s.results[i])))
    && (routes[i].enabled && w == Recorded ==> i in s.results)
    && (routes[i].enabled && w == Ended && !s.cancelled ==> i in s.results)
    && (i in s.results ==> routes[i].enabled && (w == Recorded || w == Ended))
  }

  ghost predicate SweepInvariant(routes: seq<Route>, s: Sweep) {
    && |s.workers| == |routes| && s.visited <= |routes|
    && s.tokens == Holders(s) && s.tokens <= LIMIT
    && (forall i {:trigger Settled(routes, s, i)} :: 0 <= i < |routes| ==> Settled(routes, s, i))
  }

  lemma StartSettled(routes: seq<Route>, health: map<string, HealthStatus>)
    ensures SweepInvariant(routes, Start(routes, health))
  {
    SumZero(Start(routes, health).workers, HoldsToken);
  }

  /** The worker at `i` moves: the tokens follow the holders, and the others are untouched. */
  lemma WorkerMoves(routes: seq<Route>, s: Sweep, e: Event)
    requires SweepInvariant(routes, s) && DistinctIds(routes)
    requires e.Visit? || e.Acquire? || e.GiveUp? || e.Record? || e.Release?
    ensures SweepInvariant(routes, Next(routes, s, e))
  {
    var s' := Next(routes, s, e);
    if Enabled(routes, s, e) {
      var at := if e.Visit? then s.visited else e.i;
      assert Settled(routes, s, at);
      SumUpdate(s.workers, HoldsToken, at, s'.workers[at]);
      assert s'.workers == s.workers[at := s'.workers[at]];
      forall i | 0 <= i < |routes| ensures Settled(routes, s', i) {
        assert Settled(routes, s, i);
        assert i != at ==> routes[i].id != routes[at].id;
      }
    }
  }

  lemma StepSettles(routes: seq<Route>, s: Sweep, e: Event)
    requires SweepInvariant(routes, s) && DistinctIds(routes)
    ensures SweepInvariant(routes, Next(routes, s, e))
  {
    var s' := Next(routes, s, e);
    if e.Cancel? || e.DeleteEntry? {
      forall i | 0 <= i < |routes| ensures Settled(routes, s', i) {
        assert Settled(routes, s, i);
      }
    } else {
      WorkerMoves(routes, s, e);
    }
  }

  lemma {:induction false} RunSettles(routes: seq<Route>, s: Sweep, events: seq<Event>)
    requires SweepInvariant(routes, s) && DistinctIds(routes)
    ensures SweepInvariant(routes, Run(routes, s, events))
  {
    if events != [] {
      var front := events[..|events| - 1];
      RunSettles(routes, s, front);
      StepSettles(routes, Run(routes, s, front), events[|events| - 1]);
    }
  }

  /** Under every interleaving at most eight probes are in flight: whoever probes holds a token. */
  lemma AtMostEightProbes(routes: seq<Route>, health: map<string, HealthStatus>, events: seq<Event>)
    requires DistinctIds(routes)
    ensures var s := Run(routes, Start(routes, health), events);
            s.tokens == Holders(s) && Holders(s) <= 8
  {
    StartSettled(routes, health);
    RunSettles(routes, Start(routes, health), events);
  }

  // ----- The sweep ends, and what it leaves -----

  predicate IsOver(s: Sweep) {
    forall i :: 0 <= i < |s.workers| ==> s.workers[i] == Ended
  }

  predicate IsSweepStep(e: Event) {
    !e.Cancel? && !e.DeleteEntry?
  }

  /** Each step of the sweep uses up one of finitely many. */
  lemma StepConsumes(routes: seq<Route>, s: Sweep, e: Event)
    requires SweepInvariant(routes, s)
    ensures IsSweepStep(e) && Enabled(routes, s, e) ==> Remaining(Next(routes, s, e)) < Remaining(s)
    ensures !(IsSweepStep(e) && Enabled(routes, s, e)) ==> Remaining(Next(routes, s, e)) == Remaining(s)
  {
    var s' := Next(routes, s, e);
    if IsSweepStep(e) && Enabled(routes, s, e) {
      var at := if e.Visit? then s.visited else e.i;
      assert Settled(routes, s, at);
      SumUpdate(s.workers, StepsLeft, at, s'.workers[at]);
      assert s'.workers == s.workers[at := s'.workers[at]];
    }
  }

  /** The number of steps of a run that were steps of the sweep. */
  function StepsTaken(routes: seq<Route>, s: Sweep, events: seq<Event>): nat
    requires |s.workers| == |routes|
  {
    if events == [] then 0
    else
      var front, last := events[..|events| - 1], events[|events| - 1];
      StepsTaken(routes, s, front) + if IsSweepStep(last) && Enabled(routes, Run(routes, s, front), last) then 1 else 0
  }

  /** No run takes more than four steps a route. */
  lemma {:induction false} SweepIsBounded(routes: seq<Route>, health: map<string, HealthStatus>, events: seq<Event>)
    requires DistinctIds(routes)
    ensures StepsTaken(routes, Start(routes, health), events)
              + Remaining(Run(routes, Start(routes, health), events)) <= 4 * |routes|
  {
    var s := Start(routes, health);
    if events == [] {
      SumBounded(s.workers, StepsLeft, 4);
    } else {
      var front := events[..|events| - 1];
      SweepIsBounded(routes, health, front);
      StartSettled(routes, health);
      RunSettles(routes, s, front);
      StepConsumes(routes, Run(routes, s, front), events[|events| - 1]);
    }
  }

  /** As long as it is not over, some step of the sweep can be taken: the channel never blocks all. */
  lemma SweepIsNeverStuck(routes: seq<Route>, s: Sweep)
    requires SweepInvariant(routes, s) && !IsOver(s)
    ensures exists e :: IsSweepStep(e) && Enabled(routes, s, e)
  {
    if s.visited < |routes| {
      assert Enabled(routes, s, Visit);
    } else if i :| 0 <= i < |routes| && s.workers[i] == Probing {
      assert Enabled(routes, s, Record(i, HealthReachable));
    } else if i :| 0 <= i < |routes| && s.workers[i] == Recorded {
      SumUpdate(s.workers, HoldsToken, i, Ended);
      assert Enabled(routes, s, Release(i));
    } else {
      SumZero(s.workers, HoldsToken);
      var i :| 0 <= i < |routes| && s.workers[i] != Ended;
      assert Settled(routes, s, i);
      assert Enabled(routes, s, Acquire(i));
    }
  }

  /** A sweep that ends uncancelled has recorded a probe result for every enabled route and unknown
      for every disabled one, except where a delete removed the entry afterwards. */
  lemma SweepCoversAll(routes: seq<Route>, health: map<string, HealthStatus>, events: seq<Event>, i: nat)
    requires DistinctIds(routes) && i < |routes|
    requires var s := Run(routes, Start(routes, health), events);
             IsOver(s) && !s.cancelled && routes[i].id !in s.deleted
    ensures var s := Run(routes, Start(routes, health), events);
            && routes[i].id in s.health
            && (if routes[i].enabled then i in s.results && s.health[routes[i].id] == s.results[i] != HealthUnknown
                else s.health[routes[i].id] == HealthUnknown)
  {
    StartSettled(routes, health);
    RunSettles(routes, Start(routes, health), events);
    var s := Run(routes, Start(routes, health), events);
    assert Settled(routes, s, i);
  }

  // ----- Deletes during a sweep -----

  /** The sweep has yet to write an entry for this worker's route. */
  predicate IsPending(w: Worker) {
    w == Unspawned || w == Waiting || w == Probing
  }

  /** No event of the schedule deletes this entry. */
  predicate NeverDeletes(events: seq<Event>, id: string) {
    forall k :: 0 <= k < |events| ==> events[k] != DeleteEntry(id)
  }

  /** What becomes of the entry of a route whose worker was pending when it was deleted, or was not. */
  ghost predicate Returns(routes: seq<Route>, s: Sweep, i: nat, pending: bool)
    requires |s.workers| == |routes| && i < |routes|
  {
    if pending then IsPending(s.workers[i]) || routes[i].id in s.health || s.cancelled
    else !IsPending(s.workers[i]) && routes[i].id !in s.health
  }

  lemma ReturnsStep(routes: seq<Route>, s: Sweep, e: Event, i: nat, pending: bool)
    requires SweepInvariant(routes, s) && DistinctIds(routes) && i < |routes|
    requires Returns(routes, s, i, pending) && e != DeleteEntry(routes[i].id)
    ensures Returns(routes, Next(routes, s, e), i, pending)
  {
    assert Settled(routes, s, i);
    if e.Visit? || e.Record? {
      var at := if e.Visit? then s.visited else e.i;
      assert at < |routes| && at != i ==> routes[at].id != routes[i].id;
    }
  }

  lemma {:induction false} ReturnsLater(routes: seq<Route>, s: Sweep, later: seq<Event>, i: nat, pending: bool)
    requires SweepInvariant(routes, s) && DistinctIds(routes) && i < |routes|
    requires Returns(routes, s, i, pending) && NeverDeletes(later, routes[i].id)
    ensures Returns(routes, Run(routes, s, later), i, pending)
  {
    if later != [] {
      var front := later[..|later| - 1];
      assert forall k :: 0 <= k < |front| ==> front[k] == later[k];
      ReturnsLater(routes, s, front, i, pending);
      RunSettles(routes, s, front);
      ReturnsStep(routes, Run(routes, s, front), later[|later| - 1], i, pending);
    }
  }

  /** The entry of a deleted route is back when an uncancelled sweep is over exactly when the delete
      came before the sweep had written it: its worker was not spawned, waiting or probing. */
  lemma EntryReturnsExactly(routes: seq<Route>, s: Sweep, i: nat, later: seq<Event>)
    requires SweepInvariant(routes, s) && DistinctIds(routes) && i < |routes|
    requires NeverDeletes(later, routes[i].id)
    requires var end := Run(routes, Next(routes, s, DeleteEntry(routes[i].id)), later); IsOver(end) && !end.cancelled
    ensures var end := Run(routes, Next(routes, s, DeleteEntry(routes[i].id)), later);
            routes[i].id in end.health <==> IsPending(s.workers[i])
  {
    hide Run, Settled;
    var deleted := Next(routes, s, DeleteEntry(routes[i].id));
    StepSettles(routes, s, DeleteEntry(routes[i].id));
    ReturnsLater(routes, deleted, later, i, IsPending(s.workers[i]));
  }

  /** A delete that comes before the probe ends leaves an entry behind: the keys of the health map
      are not always stored ids. */
  lemma HealthOutlivesRoute(route: Route)
    requires route.enabled
    ensures var s := Run([route], Start([route], map[]),
                         [Visit, Acquire(0), DeleteEntry(route.id), Record(0, HealthReachable), Release(0)]);
            IsOver(s) && route.id in s.health
  {
    var routes, s0 := [route], Start([route], map[]);
    var e0, e1, e2, e3, e4 := Visit, Acquire(0), DeleteEntry(route.id), Record(0, HealthReachable), Release(0);
    assert [e0, e1, e2, e3, e4][..4] == [e0, e1, e2, e3] && [e0, e1, e2, e3][..3] == [e0, e1, e2];
    assert [e0, e1, e2][..2] == [e0, e1] && [e0, e1][..1] == [e0] && [e0][..0] == [];
    assert Run(routes, s0, []) == s0;
    var s1 := Run(routes, s0, [e0]);
    assert s1.workers == [Waiting];
    var s2 := Run(routes, s0, [e0, e1]);
    assert s2.workers == [Probing] && s2.tokens == 1;
    var s3 := Run(routes, s0, [e0, e1, e2]);
    assert s3.workers == [Probing];
    var s4 := Run(routes, s0, [e0, e1, e2, e3]);
    assert s4.workers == [Recorded] && s4.tokens == 1;
  }
}
