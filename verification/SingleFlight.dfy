/** withCache's single-flight map (src/shared/utils/cache.js:16-66). A call runs in segments
    between its awaits: after a cache miss it joins or starts a flight, a flight settles, and
    the finally block of a waiter runs once its flight has settled. */
module SingleFlight {
  import opened Data

  /** A promise: its key, the caller that started the fetch, its outcome once settled. */
  datatype Flight = Flight(key: nat, starter: nat, outcome: Option<nat>)

  datatype Caller = Waiting(flight: nat) | Returned(flight: nat, outcome: nat)

  datatype State = State(inFlight: map<nat, nat>, flights: seq<Flight>, callers: map<nat, Caller>)

  datatype Event = Miss(pid: nat, key: nat) | Settle(flight: nat, outcome: nat) | Finally(pid: nat)

  function Without(m: map<nat, nat>, key: nat): map<nat, nat> {
    m - {key}
  }

  function Step(s: State, e: Event): State {
    match e
    case Miss(pid, key) =>
      if pid in s.callers then s
      else if key in s.inFlight then s.(callers := s.callers[pid := Waiting(s.inFlight[key])])
      else State(s.inFlight[key := |s.flights|], s.flights + [Flight(key, pid, None)],
          s.callers[pid := Waiting(|s.flights|)])
    case Settle(f, outcome) =>
      if f < |s.flights| && s.flights[f].outcome.None?
      then s.(flights := s.flights[f := s.flights[f].(outcome := Some(outcome))]) else s
    case Finally(pid) =>
      if pid in s.callers && s.callers[pid].Waiting? && s.callers[pid].flight < |s.flights|
         && s.flights[s.callers[pid].flight].outcome.Some? then
        var f := s.callers[pid].flight;
        var key := s.flights[f].key;
        State(if key in s.inFlight && s.inFlight[key] == f then Without(s.inFlight, key) else s.inFlight,
              s.flights, s.callers[pid := Returned(f, s.flights[f].outcome.value)])
      else s
  }

  /** A map entry leads to a flight of its key whose starter still waits. */
  ghost predicate EntriesOk(s: State) {
    forall k :: k in s.inFlight ==>
      && s.inFlight[k] < |s.flights|
      && s.flights[s.inFlight[k]].key == k
      && s.flights[s.inFlight[k]].starter in s.callers
      && s.callers[s.flights[s.inFlight[k]].starter] == Waiting(s.inFlight[k])
  }

  /** A flight that has not settled is the one in the map. */
  ghost predicate UnsettledOk(s: State) {
    forall f :: 0 <= f < |s.flights| && s.flights[f].outcome.None? ==>
      s.flights[f].key in s.inFlight && s.inFlight[s.flights[f].key] == f
  }

  /** Whoever waits for a flight, or has returned from one, does so on a real one. */
  ghost predicate CallersOk(s: State) {
    forall p :: p in s.callers ==>
      && s.callers[p].flight < |s.flights|
      && (s.callers[p].Returned? ==> s.flights[s.callers[p].flight].outcome == Some(s.callers[p].outcome))
  }

  ghost predicate Inv(s: State) {
    EntriesOk(s) && UnsettledOk(s) && CallersOk(s)
  }

  function Run(s: State, es: seq<Event>): State
    decreases |es|
  {
    if es == [] then s else Run(Step(s, es[0]), es[1..])
  }

  lemma StepKeepsEntries(s: State, e: Event)
    requires EntriesOk(s) && CallersOk(s)
    ensures EntriesOk(Step(s, e))
  {
  }

  lemma StepKeepsUnsettled(s: State, e: Event)
    requires EntriesOk(s) && UnsettledOk(s)
    ensures UnsettledOk(Step(s, e))
  {
  }

  lemma StepKeepsCallers(s: State, e: Event)
    requires EntriesOk(s) && CallersOk(s)
    ensures CallersOk(Step(s, e))
  {
  }

  lemma StepKeepsInv(s: State, e: Event)
    requires Inv(s)
    ensures Inv(Step(s, e))
  {
    hide EntriesOk, UnsettledOk, CallersOk, Step;
    StepKeepsEntries(s, e);
    StepKeepsUnsettled(s, e);
    StepKeepsCallers(s, e);
  }

  lemma {:induction false} RunKeepsInv(s: State, es: seq<Event>)
    requires Inv(s)
    ensures Inv(Run(s, es))
    decreases |es|
  {
    if es != [] {
      StepKeepsInv(s, es[0]);
      RunKeepsInv(Step(s, es[0]), es[1..]);
    }
  }

  const IDLE := State(map[], [], map[])

  ghost predicate OneUnsettledPerKey(flights: seq<Flight>) {
    forall f, g :: 0 <= f < g < |flights| && flights[f].key == flights[g].key ==>
      flights[f].outcome.Some? || flights[g].outcome.Some?
  }

  ghost predicate SameResult(callers: map<nat, Caller>) {
    forall p, q ::
      p in callers && q in callers && callers[p].Returned? && callers[q].Returned? &&
          callers[p].flight == callers[q].flight ==>
      callers[p].outcome == callers[q].outcome
  }

  predicate NobodyWaits(callers: map<nat, Caller>) {
    forall p :: p in callers ==> callers[p].Returned?
  }

  /** Over any interleaving: at most one fetch per key is unsettled; two callers back from the
      same flight have the same result; and once nobody waits the map is empty. */
  lemma RunIsSingleFlight(es: seq<Event>)
    ensures var s := Run(IDLE, es);
            && OneUnsettledPerKey(s.flights)
            && SameResult(s.callers)
            && (NobodyWaits(s.callers) ==> s.inFlight == map[])
  {
    RunKeepsInv(IDLE, es);
  }

  lemma {:induction false} OutcomeStays(s: State, es: seq<Event>, f: nat)
    requires f < |s.flights| && s.flights[f].outcome.Some?
    ensures f < |Run(s, es).flights| && Run(s, es).flights[f] == s.flights[f]
    decreases |es|
  {
    if es != [] {
      OutcomeStays(Step(s, es[0]), es[1..], f);
    }
  }

  /** Whoever comes back from a flight, however late, has what the flight settled with. */
  lemma CallersGetTheOutcome(s: State, f: nat, outcome: nat, es: seq<Event>, pid: nat)
    requires Inv(s) && f < |s.flights| && s.flights[f].outcome.None?
    ensures var s' := Run(Step(s, Settle(f, outcome)), es);
            pid in s'.callers && s'.callers[pid].Returned? && s'.callers[pid].flight == f ==>
              s'.callers[pid].outcome == outcome
  {
    var settled := Step(s, Settle(f, outcome));
    StepKeepsInv(s, Settle(f, outcome));
    RunKeepsInv(settled, es);
    OutcomeStays(settled, es, f);
  }

  /** A waiter whose flight has settled comes back with its outcome; one whose flight has not waits. */
  lemma ReturnsIff(s: State, pid: nat)
    requires Inv(s) && pid in s.callers && s.callers[pid].Waiting?
    ensures pid in Step(s, Finally(pid)).callers
    ensures Step(s, Finally(pid)).callers[pid].Returned? <==> s.flights[s.callers[pid].flight].outcome.Some?
  {
  }

  /** An entry leaves the map only after its own flight has settled, in the finally block of one
      of that flight's waiters: a late waiter never removes a newer flight. */
  lemma RemovedOnlyWhenSettled(s: State, e: Event, key: nat)
    requires Inv(s) && key in s.inFlight
    requires key !in Step(s, e).inFlight || Step(s, e).inFlight[key] != s.inFlight[key]
    ensures e.Finally? && e.pid in s.callers && s.callers[e.pid] == Waiting(s.inFlight[key])
    ensures s.flights[s.inFlight[key]].outcome.Some? && key !in Step(s, e).inFlight
  {
  }

  /** A call that misses the cache fetches exactly when no flight of its key is in the map, so
      never while one is unsettled. */
  lemma FetchesOnlyWhenAlone(s: State, pid: nat, key: nat)
    requires Inv(s) && pid !in s.callers
    ensures |Step(s, Miss(pid, key)).flights| > |s.flights| <==> key !in s.inFlight
    ensures key !in s.inFlight ==> forall f :: 0 <= f < |s.flights| && s.flights[f].key == key ==>
        s.flights[f].outcome.Some?
    ensures key in s.inFlight ==> Step(s, Miss(pid, key)).callers[pid] == Waiting(s.inFlight[key])
  {
  }

  /** The module's map and promises, updated in place by each segment. */
  class Cache {
    var inFlight: map<nat, nat>
    var flights: seq<Flight>
    var callers: map<nat, Caller>

    function Value(): State
      reads this
    {
      State(inFlight, flights, callers)
    }

    constructor ()
      ensures Value() == IDLE && Inv(Value())
    {
      inFlight, flights, callers := map[], [], map[];
    }

    /** From the cache miss to the await. */
    method Enter(pid: nat, key: nat)
      requires Inv(Value()) && pid !in callers
      modifies this
      ensures Value() == Step(old(Value()), Miss(pid, key)) && Inv(Value())
    {
      StepKeepsInv(Value(), Miss(pid, key));
      var flight: nat;
      if key in inFlight {
        flight := inFlight[key];
      } else {
        flight := |flights|;
        flights := flights + [Flight(key, pid, None)];
        inFlight := inFlight[key := flight];
      }
      callers := callers[pid := Waiting(flight)];
    }

    method SettleFlight(flight: nat, outcome: nat)
      requires Inv(Value()) && flight < |flights| && flights[flight].outcome.None?
      modifies this
      ensures Value() == Step(old(Value()), Settle(flight, outcome)) && Inv(Value())
    {
      StepKeepsInv(Value(), Settle(flight, outcome));
      flights := flights[flight := flights[flight].(outcome := Some(outcome))];
    }

    /** After the await: the guarded delete, then the result. */
    method Leave(pid: nat) returns (outcome: nat)
      requires Inv(Value()) && pid in callers && callers[pid].Waiting?
      requires callers[pid].flight < |flights| && flights[callers[pid].flight].outcome.Some?
      modifies this
      ensures Value() == Step(old(Value()), Finally(pid)) && Inv(Value())
      ensures callers[pid] == Returned(old(callers)[pid].flight, outcome)
    {
      StepKeepsInv(Value(), Finally(pid));
      var flight := callers[pid].flight;
      var key := flights[flight].key;
      if key in inFlight && inFlight[key] == flight {
        inFlight := Without(inFlight, key);
      }
      outcome := flights[flight].outcome.value;
      callers := callers[pid := Returned(flight, outcome)];
    }
  }
}
