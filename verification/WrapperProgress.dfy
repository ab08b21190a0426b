/** The wrapper ends by itself: once its harness has exited, serve gets to its end when the
    attached browsers have drained, without any deadline (internal/wrapper/server.go). */
module WrapperProgress {
  import opened Wrappers
  import G = Gate
  import GP = GateProgress
  import H = HarnessOutput
  import opened WrapperShutdown

  /** Nobody new comes, no deadline passes and nobody stops the wrapper: serve, the two copying
      goroutines and those inside go on. */
  predicate Helps(step: Step) {
    match step
    case Register(pass) => GP.Helps(pass)
    case Copy(move) => H.Own(move)
    case Serve(cause, _) => cause.Awaited?
  }

  ghost predicate HelpsTo(w: Wrapper, step: Step, v: Wrapper) {
    Helps(step) && Steps(w, step, v)
  }

  /** Such steps, and the states they lead through. */
  datatype Trace = Trace(begin: Wrapper, steps: seq<Step>, passed: seq<Wrapper>, at: Wrapper) {
    ghost predicate Valid() {
      && |passed| == |steps| + 1
      && passed[0] == begin && passed[|steps|] == at
      && forall i, j {:trigger HelpsTo(passed[i], steps[i], passed[j])} ::
        0 <= i < |steps| && j == i + 1 ==> HelpsTo(passed[i], steps[i], passed[j])
    }
  }

  /** The trace u goes on where t stands, after the exit of the harness. */
  ghost predicate GoesOn(t: Trace, u: Trace) {
    u.Valid() && u.begin == t.begin && Inv(u.at) && u.at.output.exited
  }

  /** The harness has exited. */
  ghost predicate Ready(t: Trace) {
    t.Valid() && Inv(t.at) && t.at.output.exited
  }

  lemma Extend(t: Trace, step: Step, w: Wrapper) returns (u: Trace)
    requires t.Valid() && HelpsTo(t.at, step, w)
    ensures u.Valid() && u.begin == t.begin && u.at == w
  {
    u := Trace(t.begin, t.steps + [step], t.passed + [w], w);
    forall i, j | 0 <= i < |u.steps| && j == i + 1
      ensures HelpsTo(u.passed[i], u.steps[i], u.passed[j])
    {
      if i < |t.steps| {
        assert HelpsTo(t.passed[i], t.steps[i], t.passed[j]);
      }
    }
  }

  lemma Take(t: Trace, step: Step) returns (u: Trace)
    requires Ready(t) && Allowed(t.at, step) && Helps(step)
    ensures GoesOn(t, u) && u.at == After(t.at, step)
  {
    StepKeepsInv(t.at, step, After(t.at, step));
    u := Extend(t, step, After(t.at, step));
  }

  // The parts go on.

  lemma {:induction false} GateRuns(t: Trace, e: GP.Trace, k: nat) returns (u: Trace)
    requires Ready(t) && e.Valid() && e.begin == t.at.gate && k <= |e.steps|
    ensures GoesOn(t, u) && u.at == t.at.(gate := e.passed[k])
    decreases k
  {
    u := t;
    if k > 0 {
      var v := GateRuns(t, e, k - 1);
      assert GP.HelpsTo(e.passed[k - 1], e.steps[k - 1], e.passed[k]);
      u := Take(v, Register(e.steps[k - 1]));
    }
  }

  lemma {:induction false} OutputRuns(t: Trace, path: seq<H.Step>, end: H.Copying) returns (u: Trace)
    requires Ready(t) && H.OwnPath(t.at.output, path, end)
    ensures GoesOn(t, u) && u.at == t.at.(output := end)
    decreases |path|
  {
    u := t;
    if path != [] {
      var v := Take(t, Copy(path[0]));
      u := OutputRuns(v, path[1..], end);
    }
  }

  lemma OutputEnds(t: Trace) returns (u: Trace)
    requires Ready(t)
    ensures GoesOn(t, u) && u.at == t.at.(output := u.at.output) && u.at.output.owner.Over?
  {
    var path, end := H.EndFrom(t.at.output);
    u := OutputRuns(t, path, end);
  }

  lemma SectionPasses(t: Trace, k: nat) returns (u: Trace)
    requires Ready(t) && k in t.at.gate.stoppers
    ensures GoesOn(t, u) && u.at == t.at.(gate := u.at.gate) && Passed(u.at, k)
  {
    var gate := t.at.gate;
    var e := GP.StopperGoesThrough(GP.Trace(gate, [], [gate], gate), k);
    u := GateRuns(t, e, |e.steps|);
  }

  lemma SocketsLeave(t: Trace) returns (u: Trace)
    requires Ready(t)
    ensures GoesOn(t, u) && u.at == t.at.(gate := u.at.gate) && u.at.gate.count == 0
  {
    var gate := t.at.gate;
    var e := GP.AllLeave(GP.Trace(gate, [], [gate], gate));
    u := GateRuns(t, e, |e.steps|);
  }

  // serve goes on, phase by phase.

  function Ahead(phase: Phase): nat {
    match phase
    case Listening => 12
    case MarkingDraining(_) => 11
    case Draining(_) => 10
    case StoppingDrain(_, _) => 9
    case DrainStopped(_) => 8
    case ShuttingDown(_) => 7
    case Leaving => 6
    case StoppingSockets(_) => 5
    case ShuttingHarness(_) => 4
    case JoiningHarness(_) => 3
    case JoiningOutput(_) => 2
    case JoiningSockets(_) => 1
    case Done(_) => 0
  }

  /** What serve waits for in its phase comes. */
  lemma WaitEnds(t: Trace) returns (u: Trace)
    requires Ready(t)
    ensures GoesOn(t, u) && u.at.phase == t.at.phase
    ensures Section(t.at.phase).Some? ==> Passed(u.at, Section(t.at.phase).value)
    ensures Section(t.at.phase).None? ==> u.at.output.owner.Over? && u.at.gate.count == 0
  {
    if Section(t.at.phase).Some? {
      u := SectionPasses(t, Section(t.at.phase).value);
    } else {
      var v := OutputEnds(t);
      u := SocketsLeave(v);
    }
  }

  lemma MayGoOn(w: Wrapper, k: nat)
    requires Inv(w) && !w.phase.Done? && w.output.exited && k !in w.gate.stoppers
    requires Section(w.phase).Some? ==> Passed(w, Section(w.phase).value)
    requires Section(w.phase).None? ==> w.output.owner.Over? && w.gate.count == 0
    ensures MayServe(w, Awaited, k) && Ahead(AfterServe(w, Awaited, k).phase) < Ahead(w.phase)
  {
  }

  lemma {:induction false} DoneFrom(t: Trace) returns (u: Trace)
    requires Ready(t)
    ensures GoesOn(t, u) && u.at.phase.Done?
    decreases Ahead(t.at.phase)
  {
    u := t;
    if !t.at.phase.Done? {
      var waited := WaitEnds(t);
      var k := FreshNumber(waited.at.gate.stoppers.Keys);
      MayGoOn(waited.at, k);
      var v := Take(waited, Serve(Awaited, k));
      u := DoneFrom(v);
    }
  }

  /** From every reachable state in which the harness has exited, serve can come to its end: the
      output is finished, the browsers that are attached drain and leave, and everything is
      joined, with no deadline passing and nobody stopping the wrapper. */
  lemma WrapperCanFinish(states: seq<Wrapper>, steps: seq<Step>, n: nat) returns (t: Trace)
    requires Run(states, steps) && n < |states| && states[n].output.exited
    ensures t.Valid() && t.begin == states[n]
    ensures t.at.phase.Done? && t.at.gate.count == 0 && H.Complete(t.at.output)
  {
    AlwaysGood(states, steps, n);
    t := DoneFrom(Trace(states[n], [], [states[n]], states[n]));
    H.DoneIsComplete(t.at.output);
  }
}
