/** The end of the wrapper: after the last output it lets attached browsers drain, and it
    returns only when everything it started is joined (internal/wrapper/server.go). */
module WrapperShutdown {
  import opened Wrappers
  import G = Gate
  import H = HarnessOutput

  /** Where serve stands: k is a section under socketsMu that it has begun, setting draining
      or stopSockets. The last six phases are the deferred part. */
  datatype Phase =
    | Listening
    | MarkingDraining(k: nat)
    | Draining(k: nat)
    | StoppingDrain(k: nat, stop: nat)
    | DrainStopped(k: nat)
    | ShuttingDown(k: nat)
    | Leaving
    | StoppingSockets(k: nat)
    | ShuttingHarness(k: nat)
    | JoiningHarness(k: nat)
    | JoiningOutput(k: nat)
    | JoiningSockets(k: nat)
    | Done(k: nat)

  /** Why serve leaves a wait: what it waits for, a deadline or the end of its context, or the
      end of the HTTP server. */
  datatype Cause = Awaited | Expired | Stopped

  datatype Wrapper = Wrapper(gate: G.Gate, output: H.Copying, phase: Phase)

  datatype Step =
    | Register(pass: G.Step)
    | Copy(move: H.Step)
    | Serve(cause: Cause, k: nat)

  const FRESH := Wrapper(G.OPEN, H.FRESH, Listening)

  predicate Passed(w: Wrapper, k: nat) {
    k in w.gate.stoppers && w.gate.stoppers[k].Stopped?
  }

  /** k numbers the section under socketsMu that the step begins, if it begins one. */
  predicate MayServe(w: Wrapper, cause: Cause, k: nat) {
    match w.phase
    case Listening =>
      (match cause
       case Awaited => w.output.harnessDone && k !in w.gate.stoppers
       case Expired => k !in w.gate.stoppers
       case Stopped => true)
    case MarkingDraining(called) => Passed(w, called)
    case Draining(_) => if cause.Awaited? then w.gate.count == 0 else k !in w.gate.stoppers
    case StoppingDrain(_, stop) => Passed(w, stop)
    case DrainStopped(_) => w.gate.count == 0
    case ShuttingDown(called) => Passed(w, called)
    case Leaving => k !in w.gate.stoppers
    case StoppingSockets(called) => Passed(w, called)
    case ShuttingHarness(_) => true
    case JoiningHarness(_) => w.output.exited
    case JoiningOutput(_) => w.output.owner.Over?
    case JoiningSockets(_) => w.gate.count == 0
    case Done(_) => false
  }

  predicate Allowed(w: Wrapper, step: Step) {
    match step
    case Register(pass) => G.Allowed(w.gate, pass)
    case Copy(move) => H.Allowed(w.output, move)
    case Serve(cause, k) => MayServe(w, cause, k)
  }

  /** Begins a section under socketsMu. */
  function Call(w: Wrapper, k: nat, phase: Phase): Wrapper
    requires k !in w.gate.stoppers
  {
    w.(gate := G.After(w.gate, G.CallStop(k)), phase := phase)
  }

  function AfterServe(w: Wrapper, cause: Cause, k: nat): Wrapper
    requires MayServe(w, cause, k)
  {
    match w.phase
    case Listening =>
      (match cause
       case Awaited => Call(w, k, MarkingDraining(k))
       case Expired => Call(w, k, ShuttingDown(k))
       case Stopped => w.(phase := Leaving))
    case MarkingDraining(called) => w.(phase := Draining(called))
    case Draining(called) => if cause.Awaited? then w.(phase := Leaving) else Call(w, k, StoppingDrain(called, k))
    case StoppingDrain(called, _) => w.(phase := DrainStopped(called))
    case DrainStopped(_) => w.(phase := Leaving)
    case ShuttingDown(_) => w.(phase := Leaving)
    case Leaving => Call(w, k, StoppingSockets(k))
    case StoppingSockets(called) => w.(phase := ShuttingHarness(called))
    case ShuttingHarness(called) => w.(phase := JoiningHarness(called))
    case JoiningHarness(called) => w.(phase := JoiningOutput(called))
    case JoiningOutput(called) => w.(phase := JoiningSockets(called))
    case JoiningSockets(called) => w.(phase := Done(called))
  }

  function After(w: Wrapper, step: Step): Wrapper
    requires Allowed(w, step)
  {
    match step
    case Register(pass) => w.(gate := G.After(w.gate, pass))
    case Copy(move) => w.(output := H.After(w.output, move))
    case Serve(cause, k) => AfterServe(w, cause, k)
  }

  ghost predicate Steps(w: Wrapper, step: Step, v: Wrapper) {
    Allowed(w, step) && v == After(w, step)
  }

  /** A run: connections, Shutdown calls, cancellation and output interleaved with serve. */
  ghost predicate Run(states: seq<Wrapper>, steps: seq<Step>) {
    && |states| == |steps| + 1
    && states[0] == FRESH
    && forall i, j {:trigger Steps(states[i], steps[i], states[j])} ::
      0 <= i < |steps| && j == i + 1 ==> Steps(states[i], steps[i], states[j])
  }

  // The invariant.

  /** Phases in which somebody waits for the socket handlers, or has. */
  predicate Waits(phase: Phase) {
    phase.Draining? || phase.StoppingDrain? || phase.DrainStopped? || phase.ShuttingHarness?
    || phase.JoiningHarness? || phase.JoiningOutput? || phase.JoiningSockets? || phase.Done?
  }

  predicate Drains(phase: Phase) {
    phase.MarkingDraining? || phase.Draining? || phase.StoppingDrain? || phase.DrainStopped?
  }

  /** The section under socketsMu that serve is in. */
  function Section(phase: Phase): Option<nat> {
    match phase
    case MarkingDraining(k) => Some(k)
    case StoppingDrain(_, stop) => Some(stop)
    case ShuttingDown(k) => Some(k)
    case StoppingSockets(k) => Some(k)
    case _ => None
  }

  ghost predicate PhaseGood(phase: Phase, gate: G.Gate, output: H.Copying) {
    && (Section(phase).Some? ==> Section(phase).value in gate.stoppers)
    && (Waits(phase) ==> G.HasShut(gate.stoppers, phase.k))
    && (Drains(phase) ==> output.harnessDone)
    && (phase.JoiningSockets? || phase.Done? ==> output.harnessDone)
    && (phase.Done? ==> G.Counted(gate.handlers) == {})
  }

  ghost predicate Inv(w: Wrapper) {
    G.Inv(w.gate) && H.Inv(w.output) && PhaseGood(w.phase, w.gate, w.output)
  }

  lemma RegisterKeepsInv(w: Wrapper, pass: G.Step)
    requires Inv(w) && G.Allowed(w.gate, pass)
    ensures Inv(w.(gate := G.After(w.gate, pass)))
  {
    G.StepKeepsInv(w.gate, pass, G.After(w.gate, pass));
    if Waits(w.phase) {
      G.ShutForGood(w.gate, pass, G.After(w.gate, pass), w.phase.k);
    }
  }

  lemma CallKeepsInv(w: Wrapper, k: nat, phase: Phase)
    requires Inv(w) && k !in w.gate.stoppers
    requires PhaseGood(phase, G.After(w.gate, G.CallStop(k)), w.output)
    ensures Inv(Call(w, k, phase))
  {
    G.StepKeepsInv(w.gate, G.CallStop(k), G.After(w.gate, G.CallStop(k)));
  }

  lemma ServeKeepsInv(w: Wrapper, cause: Cause, k: nat)
    requires Inv(w) && MayServe(w, cause, k)
    ensures Inv(AfterServe(w, cause, k))
  {
    match w.phase
    case Listening =>
      if cause.Awaited? {
        CallKeepsInv(w, k, MarkingDraining(k));
      } else if cause.Expired? {
        CallKeepsInv(w, k, ShuttingDown(k));
      }
    case Draining(called) =>
      if !cause.Awaited? {
        CallKeepsInv(w, k, StoppingDrain(called, k));
      }
    case Leaving => CallKeepsInv(w, k, StoppingSockets(k));
    case MarkingDraining(_) =>
    case StoppingDrain(_, _) =>
    case DrainStopped(_) =>
    case ShuttingDown(_) =>
    case StoppingSockets(_) =>
    case ShuttingHarness(_) =>
    case JoiningHarness(_) =>
    case JoiningOutput(_) =>
    case JoiningSockets(_) =>
  }

  lemma StepKeepsInv(w: Wrapper, step: Step, v: Wrapper)
    requires Inv(w) && Steps(w, step, v)
    ensures Inv(v)
  {
    match step
    case Register(pass) => RegisterKeepsInv(w, pass);
    case Copy(move) => H.StepKeepsInv(w.output, move);
    case Serve(cause, k) => ServeKeepsInv(w, cause, k);
  }

  lemma {:induction false} AlwaysGood(states: seq<Wrapper>, steps: seq<Step>, n: nat)
    requires Run(states, steps) && n < |states|
    ensures Inv(states[n])
    decreases n
  {
    if n > 0 {
      AlwaysGood(states, steps, n - 1);
      assert Steps(states[n - 1], steps[n - 1], states[n]);
      StepKeepsInv(states[n - 1], steps[n - 1], states[n]);
    }
  }

  // What a run guarantees.

  /** Attachments are turned away for draining only when the harness has exited and all that
      was read of its output is in the terminal; all of it, unless the reader was cut off. */
  lemma DrainsCompleteOutput(states: seq<Wrapper>, steps: seq<Step>, n: nat)
    requires Run(states, steps) && n < |states| && Drains(states[n].phase)
    ensures H.Complete(states[n].output)
  {
    AlwaysGood(states, steps, n);
    H.DoneIsComplete(states[n].output);
  }

  /** serve sees the published exit and drains. */
  predicate SeesExit(phase: Phase, step: Step) {
    phase.Listening? && step.Serve? && step.cause.Awaited?
  }

  /** From the published exit on serve drains, and it gets past that only when every registered
      handler has returned. It cancels them meanwhile only at a deadline or the end of its
      context. */
  lemma DrainEndsEmpty(states: seq<Wrapper>, steps: seq<Step>, n: nat)
    requires Run(states, steps) && n < |steps|
    requires Drains(states[n].phase) || SeesExit(states[n].phase, steps[n])
    ensures Drains(states[n + 1].phase) || (states[n].gate.count == 0 && G.Counted(states[n].gate.handlers) == {})
    ensures states[n + 1].phase.StoppingDrain? && !states[n].phase.StoppingDrain? ==>
              steps[n].Serve? && !steps[n].cause.Awaited?
  {
    AlwaysGood(states, steps, n);
    assert Steps(states[n], steps[n], states[n + 1]);
  }

  /** When serve is done, in that state and in every later one, no socket handler is left or
      can start, the harness has exited, and its output was copied. */
  lemma DoneJoinsEverything(states: seq<Wrapper>, steps: seq<Step>, m: nat, n: nat)
    requires Run(states, steps) && m <= n < |states| && states[m].phase.Done?
    ensures var w := states[n];
            && w.gate.shut && w.gate.count == 0
            && (forall h <- w.gate.handlers :: w.gate.handlers[h] in {G.Arriving, G.Checking, G.Refusing, G.Gone})
            && w.output.owner.Over? && H.Complete(w.output)
  {
    StaysDone(states, steps, m, n);
    AlwaysGood(states, steps, n);
    var w := states[n];
    forall h <- w.gate.handlers
      ensures w.gate.handlers[h] in {G.Arriving, G.Checking, G.Refusing, G.Gone}
    {
      assert h !in G.Counted(w.gate.handlers);
    }
    H.DoneIsComplete(w.output);
  }

  lemma {:induction false} StaysDone(states: seq<Wrapper>, steps: seq<Step>, m: nat, n: nat)
    requires Run(states, steps) && m <= n < |states| && states[m].phase.Done?
    ensures states[n].phase.Done?
    decreases n
  {
    if m < n {
      StaysDone(states, steps, m, n - 1);
      assert Steps(states[n - 1], steps[n - 1], states[n]);
    }
  }

  /** No handler registers once somebody waits for the handlers. */
  lemma WaitGroupIsSafe(states: seq<Wrapper>, steps: seq<Step>, n: nat)
    requires Run(states, steps) && n < |states|
    ensures states[n].gate.count >= 0
    ensures Waits(states[n].phase) ==> states[n].gate.shut && G.NoneRegisters(states[n].gate.handlers)
  {
    AlwaysGood(states, steps, n);
  }
}
