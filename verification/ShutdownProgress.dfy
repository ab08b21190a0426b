/** The server always comes to its end: once it tears down, handlers returning, launchers
    returning and processes ending is all that Wait waits for (internal/server/server.go). */
module ShutdownProgress {
  import opened Wrappers
  import G = Gate
  import GP = GateProgress
  import E = Execution
  import ER = ExecutionRuns
  import EP = ExecutionProgress
  import opened Shutdown

  ghost predicate Good(s: Server) {
    Inv(s) && E.Linked(s.machine.manager, s.machine.processes) && EP.Led(s.machine.manager.entries, s.machine.stops)
  }

  lemma StepKeepsGood(s: Server, step: Step, t: Server)
    requires Good(s) && Steps(s, step, t)
    ensures Good(t)
  {
    StepKeepsInv(s, step, t);
    ER.InvIsLinked(t.machine);
    match step
    case Register(_) =>
    case Execution(move) => EP.StepKeepsLed(s.machine, move, t.machine);
    case TearDown(_, close, stops) =>
      if s.teardown.StoppingRequests? {
        EP.StepKeepsLed(s.machine, ER.CallClose(close, stops), t.machine);
      }
  }

  lemma {:induction false} AlwaysGood(states: seq<Server>, steps: seq<Step>, n: nat)
    requires Run(states, steps) && n < |states|
    ensures Good(states[n])
    decreases n
  {
    if n > 0 {
      AlwaysGood(states, steps, n - 1);
      assert Steps(states[n - 1], steps[n - 1], states[n]);
      StepKeepsGood(states[n - 1], steps[n - 1], states[n]);
    }
  }

  /** serve and those inside go on, launchers return and processes end. */
  predicate Helps(step: Step) {
    match step
    case Register(pass) => GP.Helps(pass)
    case TearDown(_, _, _) => true
    case Execution(move) => EP.Helps(move) || move.CloseReturns?
  }

  ghost predicate HelpsTo(s: Server, step: Step, t: Server) {
    Helps(step) && Steps(s, step, t)
  }

  /** Such steps, and the states they lead through. */
  datatype Trace = Trace(begin: Server, steps: seq<Step>, passed: seq<Server>, at: Server) {
    ghost predicate Valid() {
      && |passed| == |steps| + 1
      && passed[0] == begin && passed[|steps|] == at
      && forall i, j {:trigger HelpsTo(passed[i], steps[i], passed[j])} ::
        0 <= i < |steps| && j == i + 1 ==> HelpsTo(passed[i], steps[i], passed[j])
    }
  }

  /** The trace u goes on where t stands. */
  ghost predicate GoesOn(t: Trace, u: Trace) {
    u.Valid() && u.begin == t.begin && Good(u.at)
  }

  lemma Extend(t: Trace, step: Step, s: Server) returns (u: Trace)
    requires t.Valid() && HelpsTo(t.at, step, s)
    ensures u.Valid() && u.begin == t.begin && u.at == s
  {
    u := Trace(t.begin, t.steps + [step], t.passed + [s], s);
    forall i, j | 0 <= i < |u.steps| && j == i + 1
      ensures HelpsTo(u.passed[i], u.steps[i], u.passed[j])
    {
      if i < |t.steps| {
        assert HelpsTo(t.passed[i], t.steps[i], t.passed[j]);
      }
    }
  }

  lemma Take(t: Trace, step: Step) returns (u: Trace)
    requires t.Valid() && Good(t.at) && Allowed(t.at, step) && Helps(step)
    ensures GoesOn(t, u) && u.at == After(t.at, step)
  {
    StepKeepsGood(t.at, step, After(t.at, step));
    u := Extend(t, step, After(t.at, step));
  }

  // The parts go on.

  lemma {:induction false} GateRuns(t: Trace, e: GP.Trace, k: nat) returns (u: Trace)
    requires t.Valid() && Good(t.at) && e.Valid() && e.begin == t.at.gate && k <= |e.steps|
    ensures GoesOn(t, u) && u.at == t.at.(gate := e.passed[k])
    decreases k
  {
    u := t;
    if k > 0 {
      var v := GateRuns(t, e, k - 1);
      assert GP.HelpsTo(e.passed[k - 1], e.steps[k - 1], e.passed[k]);
      u := Take(v, Register(e.steps[k - 1]));
    }
  }

  lemma {:induction false} MachineRuns(t: Trace, e: EP.Trace, k: nat) returns (u: Trace)
    requires t.Valid() && Good(t.at) && e.Valid() && e.begin == t.at.machine && k <= |e.steps|
    ensures GoesOn(t, u) && u.at == t.at.(machine := e.passed[k])
    decreases k
  {
    u := t;
    if k > 0 {
      var v := MachineRuns(t, e, k - 1);
      assert EP.HelpsTo(e.passed[k - 1], e.steps[k - 1], e.passed[k]);
      u := Take(v, Execution(e.steps[k - 1]));
    }
  }

  // The tear-down, phase by phase.

  function Phase(teardown: Teardown): nat {
    match teardown
    case Listening => 7
    case StoppingRequests(_) => 6
    case ClosingExecutions(_, _) => 5
    case WaitingForRequests(_, _) => 4
    case Closing(_, _, Projects) => 3
    case Closing(_, _, Store) => 2
    case Closing(_, _, WorkspaceLock) => 1
    case Finished(_, _) => 0
  }

  lemma TearsDown(t: Trace, k: nat, close: nat, stops: map<E.Key, nat>) returns (u: Trace)
    requires t.Valid() && Good(t.at) && MayTearDown(t.at, k, close, stops)
    ensures GoesOn(t, u) && Phase(u.at.teardown) < Phase(t.at.teardown)
  {
    u := Take(t, TearDown(k, close, stops));
  }

  lemma Listens(t: Trace) returns (u: Trace)
    requires t.Valid() && Good(t.at) && t.at.teardown.Listening?
    ensures GoesOn(t, u) && Phase(u.at.teardown) < Phase(t.at.teardown)
  {
    var k := FreshNumber(t.at.gate.stoppers.Keys);
    u := TearsDown(t, k, 0, map[]);
  }

  /** Numbers for the Stop calls of a Close call. */
  lemma {:induction false} FreshCalls(keys: set<E.Key>, used: set<nat>) returns (stops: map<E.Key, nat>)
    ensures stops.Keys == keys && ER.Injective(stops)
    ensures forall key <- stops :: stops[key] !in used
    decreases |keys|
  {
    stops := map[];
    if keys != {} {
      var key :| key in keys;
      var call := FreshNumber(used);
      var rest := FreshCalls(keys - {key}, used + {call});
      stops := rest[key := call];
    }
  }

  lemma StopsRequests(t: Trace) returns (u: Trace)
    requires t.Valid() && Good(t.at) && t.at.teardown.StoppingRequests?
    ensures GoesOn(t, u) && Phase(u.at.teardown) < Phase(t.at.teardown)
  {
    var gate := t.at.gate;
    var e := GP.StopperGoesThrough(GP.Trace(gate, [], [gate], gate), t.at.teardown.k);
    u := GateRuns(t, e, |e.steps|);
    var close := FreshNumber(u.at.machine.closes.Keys);
    var stops := FreshCalls(u.at.machine.manager.states.Keys, u.at.machine.stops.Keys);
    u := TearsDown(u, 0, close, stops);
  }

  lemma ExecutionsClose(t: Trace, close: nat) returns (u: Trace)
    requires t.Valid() && Good(t.at) && close in t.at.machine.closes
    ensures GoesOn(t, u) && u.at == t.at.(machine := u.at.machine)
    ensures close in u.at.machine.closes && u.at.machine.closes[close].outcome.Some?
  {
    var e := EP.CloseReturnsFrom(t.at.machine, close);
    u := MachineRuns(t, e, |e.steps|);
    if u.at.machine.closes[close].outcome.None? {
      u := Take(u, Execution(ER.CloseReturns(close)));
    }
  }

  lemma ClosesExecutions(t: Trace) returns (u: Trace)
    requires t.Valid() && Good(t.at) && t.at.teardown.ClosingExecutions?
    ensures GoesOn(t, u) && Phase(u.at.teardown) < Phase(t.at.teardown)
  {
    var closed := ExecutionsClose(t, t.at.teardown.close);
    u := TearsDown(closed, 0, 0, map[]);
  }

  lemma WaitsForRequests(t: Trace) returns (u: Trace)
    requires t.Valid() && Good(t.at) && t.at.teardown.WaitingForRequests?
    ensures GoesOn(t, u) && Phase(u.at.teardown) < Phase(t.at.teardown)
  {
    var gate := t.at.gate;
    var e := GP.AllLeave(GP.Trace(gate, [], [gate], gate));
    var empty := GateRuns(t, e, |e.steps|);
    u := TearsDown(empty, 0, 0, map[]);
  }

  lemma {:induction false} FinishesFrom(t: Trace) returns (u: Trace)
    requires t.Valid() && Good(t.at)
    ensures GoesOn(t, u) && u.at.teardown.Finished?
    decreases Phase(t.at.teardown)
  {
    var v := t;
    match t.at.teardown
    case Listening =>
      v := Listens(t);
      u := FinishesFrom(v);
    case StoppingRequests(_) =>
      v := StopsRequests(t);
      u := FinishesFrom(v);
    case ClosingExecutions(_, _) =>
      v := ClosesExecutions(t);
      u := FinishesFrom(v);
    case WaitingForRequests(_, _) =>
      v := WaitsForRequests(t);
      u := FinishesFrom(v);
    case Closing(_, _, _) =>
      v := TearsDown(t, 0, 0, map[]);
      u := FinishesFrom(v);
    case Finished(_, _) => u := t;
  }

  /** Wait does not wait in vain: from every reachable state serve can come to its end, with
      everything closed in order, and all it takes is that handlers and launchers return and
      processes end. */
  lemma ServerCanFinish(states: seq<Server>, steps: seq<Step>, n: nat) returns (t: Trace)
    requires Run(states, steps) && n < |states|
    ensures t.Valid() && t.begin == states[n]
    ensures t.at.teardown.Finished? && t.at.closed == [Projects, Store, WorkspaceLock]
  {
    AlwaysGood(states, steps, n);
    t := FinishesFrom(Trace(states[n], [], [states[n]], states[n]));
  }
}
