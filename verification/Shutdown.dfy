/** The end of the server: it stops requests, closes the executions, waits for the handlers
    and then closes what it owns (internal/server/server.go). */
module Shutdown {
  import G = Gate
  import E = Execution
  import ER = ExecutionRuns
  import ES = ExecutionSafety

  datatype Resource = Projects | Store | WorkspaceLock

  /** Where the deferred part of serve stands: k is its stopRequests call, close its Close. */
  datatype Teardown =
    | Listening
    | StoppingRequests(k: nat)
    | ClosingExecutions(k: nat, close: nat)
    | WaitingForRequests(k: nat, close: nat)
    | Closing(k: nat, close: nat, resource: Resource)
    | Finished(k: nat, close: nat)

  /** closed lists the resources as they are closed. */
  datatype Server = Server(gate: G.Gate, teardown: Teardown, closed: seq<Resource>, machine: ER.Machine)

  datatype Step =
    | Register(pass: G.Step)
    | TearDown(k: nat, close: nat, stops: map<E.Key, nat>)
    | Execution(move: ER.Step)

  const RESOURCES := [Projects, Store, WorkspaceLock]

  const FRESH := Server(G.OPEN, Listening, [], ER.IDLE)

  /** Waits for stopRequests to return, for Close to return, and for the requests to end. */
  ghost predicate MayTearDown(s: Server, k: nat, close: nat, stops: map<E.Key, nat>) {
    match s.teardown
    case Listening => G.Allowed(s.gate, G.CallStop(k))
    case StoppingRequests(called) =>
      called in s.gate.stoppers && s.gate.stoppers[called].Stopped? && ER.Allowed(s.machine, ER.CallClose(close, stops))
    case ClosingExecutions(_, called) => called in s.machine.closes && s.machine.closes[called].outcome.Some?
    case WaitingForRequests(_, _) => s.gate.count == 0
    case Closing(_, _, _) => true
    case Finished(_, _) => false
  }

  ghost predicate Allowed(s: Server, step: Step) {
    match step
    case Register(pass) => G.Allowed(s.gate, pass)
    case TearDown(k, close, stops) => MayTearDown(s, k, close, stops)
    case Execution(move) => ER.Allowed(s.machine, move)
  }

  function AfterResource(k: nat, close: nat, resource: Resource): Teardown {
    match resource
    case Projects => Closing(k, close, Store)
    case Store => Closing(k, close, WorkspaceLock)
    case WorkspaceLock => Finished(k, close)
  }

  ghost function AfterTearDown(s: Server, k: nat, close: nat, stops: map<E.Key, nat>): Server
    requires MayTearDown(s, k, close, stops)
  {
    match s.teardown
    case Listening => s.(teardown := StoppingRequests(k), gate := G.After(s.gate, G.CallStop(k)))
    case StoppingRequests(called) =>
      s.(teardown := ClosingExecutions(called, close), machine := ER.AfterCallClose(s.machine, close, stops))
    case ClosingExecutions(called, c) => s.(teardown := WaitingForRequests(called, c))
    case WaitingForRequests(called, c) => s.(teardown := Closing(called, c, Projects))
    case Closing(called, c, resource) =>
      s.(closed := s.closed + [resource], teardown := AfterResource(called, c, resource))
  }

  ghost function After(s: Server, step: Step): Server
    requires E.Linked(s.machine.manager, s.machine.processes) && Allowed(s, step)
  {
    match step
    case Register(pass) => s.(gate := G.After(s.gate, pass))
    case TearDown(k, close, stops) => AfterTearDown(s, k, close, stops)
    case Execution(move) => s.(machine := ER.After(s.machine, move))
  }

  ghost predicate Steps(s: Server, step: Step, t: Server) {
    E.Linked(s.machine.manager, s.machine.processes) && Allowed(s, step) && t == After(s, step)
  }

  /** A run: requests, Shutdown calls, cancellation and executions interleaved freely with
      serve. */
  ghost predicate Run(states: seq<Server>, steps: seq<Step>) {
    && |states| == |steps| + 1
    && states[0] == FRESH
    && forall i, j {:trigger Steps(states[i], steps[i], states[j])} ::
      0 <= i < |steps| && j == i + 1 ==> Steps(states[i], steps[i], states[j])
  }

  // The invariant.

  predicate PastRequests(teardown: Teardown) {
    teardown.Closing? || teardown.Finished?
  }

  predicate PastExecutions(teardown: Teardown) {
    teardown.WaitingForRequests? || PastRequests(teardown)
  }

  ghost predicate GateGood(teardown: Teardown, gate: G.Gate) {
    && (teardown.StoppingRequests? ==> teardown.k in gate.stoppers)
    && (teardown.ClosingExecutions? || PastExecutions(teardown) ==> G.HasShut(gate.stoppers, teardown.k))
    && (PastRequests(teardown) ==> G.Counted(gate.handlers) == {})
  }

  ghost predicate ExecutionsGood(teardown: Teardown, machine: ER.Machine) {
    && (teardown.ClosingExecutions? || PastExecutions(teardown) ==> teardown.close in machine.closes)
    && (PastExecutions(teardown) ==> machine.closes[teardown.close].outcome.Some?)
  }

  ghost predicate ClosedGood(teardown: Teardown, closed: seq<Resource>) {
    match teardown
    case Closing(_, _, Projects) => closed == []
    case Closing(_, _, Store) => closed == [Projects]
    case Closing(_, _, WorkspaceLock) => closed == [Projects, Store]
    case Finished(_, _) => closed == RESOURCES
    case _ => closed == []
  }

  ghost predicate Inv(s: Server) {
    && G.Inv(s.gate) && ER.Inv(s.machine)
    && GateGood(s.teardown, s.gate) && ExecutionsGood(s.teardown, s.machine) && ClosedGood(s.teardown, s.closed)
  }

  lemma RegisterKeepsInv(s: Server, pass: G.Step)
    requires Inv(s) && G.Allowed(s.gate, pass)
    ensures Inv(s.(gate := G.After(s.gate, pass)))
  {
    G.StepKeepsInv(s.gate, pass, G.After(s.gate, pass));
    if s.teardown.ClosingExecutions? || PastExecutions(s.teardown) {
      G.ShutForGood(s.gate, pass, G.After(s.gate, pass), s.teardown.k);
    }
  }

  lemma ExecutionKeepsInv(s: Server, move: ER.Step)
    requires Inv(s) && E.Linked(s.machine.manager, s.machine.processes) && ER.Allowed(s.machine, move)
    ensures Inv(s.(machine := ER.After(s.machine, move)))
  {
    ER.StepKeepsInv(s.machine, move, ER.After(s.machine, move));
    if s.teardown.ClosingExecutions? || PastExecutions(s.teardown) {
      ES.CloseStays(s.machine, move, ER.After(s.machine, move), s.teardown.close);
    }
    if PastExecutions(s.teardown) {
      ES.OutcomeStays(s.machine, move, ER.After(s.machine, move), s.teardown.close);
    }
  }

  lemma TearDownKeepsInv(s: Server, k: nat, close: nat, stops: map<E.Key, nat>)
    requires Inv(s) && E.Linked(s.machine.manager, s.machine.processes) && MayTearDown(s, k, close, stops)
    ensures Inv(AfterTearDown(s, k, close, stops))
  {
    match s.teardown
    case Listening => G.StepKeepsInv(s.gate, G.CallStop(k), G.After(s.gate, G.CallStop(k)));
    case StoppingRequests(_) => ER.CallCloseKeepsInv(s.machine, close, stops);
    case ClosingExecutions(_, _) =>
    case WaitingForRequests(_, _) =>
    case Closing(_, _, _) =>
  }

  lemma StepKeepsInv(s: Server, step: Step, t: Server)
    requires Inv(s) && Steps(s, step, t)
    ensures Inv(t)
  {
    match step
    case Register(pass) => RegisterKeepsInv(s, pass);
    case TearDown(k, close, stops) => TearDownKeepsInv(s, k, close, stops);
    case Execution(move) => ExecutionKeepsInv(s, move);
  }

  lemma {:induction false} AlwaysGood(states: seq<Server>, steps: seq<Step>, n: nat)
    requires Run(states, steps) && n < |states|
    ensures Inv(states[n]) && E.Linked(states[n].machine.manager, states[n].machine.processes)
    decreases n
  {
    if n > 0 {
      AlwaysGood(states, steps, n - 1);
      assert Steps(states[n - 1], steps[n - 1], states[n]);
      StepKeepsInv(states[n - 1], steps[n - 1], states[n]);
    }
    ER.InvIsLinked(states[n].machine);
  }

  // What a run guarantees.

  /** Nothing is left that could use what the server owns, and nothing is about to be. */
  ghost predicate Quiescent(s: Server) {
    && s.gate.shut && s.gate.count == 0
    && (forall h <- s.gate.handlers :: s.gate.handlers[h] in {G.Arriving, G.Checking, G.Refusing, G.Gone})
    && s.machine.launches == map[]
    && (forall p <- s.machine.processes :: s.machine.processes[p].done)
  }

  /** The manager, the store and the workspace lock are closed in this order, once each. */
  lemma ClosedInOrder(states: seq<Server>, steps: seq<Step>, n: nat)
    requires Run(states, steps) && n < |states|
    ensures states[n].closed <= RESOURCES
    ensures states[n].teardown.Finished? <==> states[n].closed == RESOURCES
  {
    AlwaysGood(states, steps, n);
  }

  /** From the first close on, no request is handled or counted, no launcher runs and every
      process that was ever started is over; and it stays like this. */
  lemma ClosesWhenQuiescent(states: seq<Server>, steps: seq<Step>, m: nat, n: nat)
    requires Run(states, steps) && m < n < |states| && states[m].closed != states[m + 1].closed
    ensures Quiescent(states[m]) && Quiescent(states[n])
  {
    assert Steps(states[m], steps[m], states[m + 1]);
    OnlyTeardownCloses(states[m], steps[m], states[m + 1]);
    StaysPastRequests(states, steps, m, n);
    PastRequestsIsQuiescent(states, steps, m);
    PastRequestsIsQuiescent(states, steps, n);
  }

  lemma OnlyTeardownCloses(s: Server, step: Step, t: Server)
    requires Steps(s, step, t) && s.closed != t.closed
    ensures s.teardown.Closing? && step.TearDown?
  {
  }

  lemma {:induction false} StaysPastRequests(states: seq<Server>, steps: seq<Step>, m: nat, n: nat)
    requires Run(states, steps) && m <= n < |states| && PastRequests(states[m].teardown)
    ensures PastRequests(states[n].teardown)
    decreases n
  {
    if m < n {
      StaysPastRequests(states, steps, m, n - 1);
      assert Steps(states[n - 1], steps[n - 1], states[n]);
    }
  }

  lemma PastRequestsIsQuiescent(states: seq<Server>, steps: seq<Step>, n: nat)
    requires Run(states, steps) && n < |states| && PastRequests(states[n].teardown)
    ensures Quiescent(states[n])
  {
    AlwaysGood(states, steps, n);
    var s := states[n];
    forall h <- s.gate.handlers
      ensures s.gate.handlers[h] in {G.Arriving, G.Checking, G.Refusing, G.Gone}
    {
      assert h !in G.Counted(s.gate.handlers);
    }
    ES.ClosedIsQuiet(s.machine, s.teardown.close);
  }

  /** The wait group never counts below zero, and nothing is added once it is waited for. */
  lemma WaitGroupIsSafe(states: seq<Server>, steps: seq<Step>, n: nat)
    requires Run(states, steps) && n < |states|
    ensures states[n].gate.count >= 0
    ensures PastExecutions(states[n].teardown) ==> states[n].gate.shut && G.NoneRegisters(states[n].gate.handlers)
  {
    AlwaysGood(states, steps, n);
  }
}
