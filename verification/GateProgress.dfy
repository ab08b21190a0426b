/** Shutting a gate and emptying it takes nothing but that those inside go on. */
module GateProgress {
  import opened Wrappers
  import opened Gate

  /** Nobody new comes; handlers and stoppers go on. */
  predicate Helps(step: Step) {
    step.Handle? || step.Stop?
  }

  ghost predicate HelpsTo(g: Gate, step: Step, f: Gate) {
    Helps(step) && Steps(g, step, f)
  }

  /** Such steps, and the states they lead through. */
  datatype Trace = Trace(begin: Gate, steps: seq<Step>, passed: seq<Gate>, at: Gate) {
    ghost predicate Valid() {
      && |passed| == |steps| + 1
      && passed[0] == begin && passed[|steps|] == at
      && forall i, j {:trigger HelpsTo(passed[i], steps[i], passed[j])} ::
        0 <= i < |steps| && j == i + 1 ==> HelpsTo(passed[i], steps[i], passed[j])
    }
  }

  /** The trace u goes on where t stands. */
  ghost predicate GoesOn(t: Trace, u: Trace) {
    u.Valid() && u.begin == t.begin && Inv(u.at)
  }

  lemma Take(t: Trace, step: Step) returns (u: Trace)
    requires t.Valid() && Inv(t.at) && Allowed(t.at, step) && Helps(step)
    ensures GoesOn(t, u) && u.at == After(t.at, step)
  {
    var f := After(t.at, step);
    StepKeepsInv(t.at, step, f);
    u := Trace(t.begin, t.steps + [step], t.passed + [f], f);
    forall i, j | 0 <= i < |u.steps| && j == i + 1
      ensures HelpsTo(u.passed[i], u.steps[i], u.passed[j])
    {
      if i < |t.steps| {
        assert HelpsTo(t.passed[i], t.steps[i], t.passed[j]);
      }
    }
  }

  // The mutex is let go of.

  function HandlerWork(handler: Handler): nat {
    match handler
    case Checking => 3
    case Adding => 2
    case Added => 1
    case Refusing => 1
    case _ => 0
  }

  function StopperWork(stopper: Stopper): nat {
    match stopper
    case Shutting => 2
    case Unlocking => 1
    case _ => 0
  }

  /** How far the holder of the mutex is from letting go of it. */
  function HolderWork(g: Gate): nat {
    match g.mutex
    case None => 0
    case Some(HandlerHolds(h)) => if h in g.handlers then HandlerWork(g.handlers[h]) else 0
    case Some(StopperHolds(k)) => if k in g.stoppers then StopperWork(g.stoppers[k]) else 0
  }

  lemma HolderGoesOn(t: Trace) returns (u: Trace)
    requires t.Valid() && Inv(t.at) && t.at.mutex.Some?
    ensures GoesOn(t, u) && HolderWork(u.at) < HolderWork(t.at)
    ensures u.at.stoppers.Keys == t.at.stoppers.Keys && u.at.handlers.Keys == t.at.handlers.Keys
  {
    match t.at.mutex
    case Some(HandlerHolds(h)) => u := Take(t, Handle(h));
    case Some(StopperHolds(k)) => u := Take(t, Stop(k));
  }

  lemma {:induction false} MutexIsFreed(t: Trace) returns (u: Trace)
    requires t.Valid() && Inv(t.at)
    ensures GoesOn(t, u) && u.at.mutex.None?
    ensures u.at.stoppers.Keys == t.at.stoppers.Keys && u.at.handlers.Keys == t.at.handlers.Keys
    decreases HolderWork(t.at)
  {
    u := t;
    if t.at.mutex.Some? {
      var v := HolderGoesOn(t);
      u := MutexIsFreed(v);
    }
  }

  lemma LockedGoesThrough(t: Trace, k: nat) returns (u: Trace)
    requires t.Valid() && Inv(t.at) && k in t.at.stoppers && t.at.mutex.None? && t.at.stoppers[k].Locking?
    ensures GoesOn(t, u) && k in u.at.stoppers && u.at.stoppers[k].Stopped?
    ensures u.at.stoppers.Keys == t.at.stoppers.Keys && u.at.handlers == t.at.handlers
  {
    u := Take(t, Stop(k));
    u := Take(u, Stop(k));
    u := Take(u, Stop(k));
  }

  /** A call that shuts the gate gets through. */
  lemma StopperGoesThrough(t: Trace, k: nat) returns (u: Trace)
    requires t.Valid() && Inv(t.at) && k in t.at.stoppers
    ensures GoesOn(t, u) && k in u.at.stoppers && u.at.stoppers[k].Stopped?
    ensures u.at.stoppers.Keys == t.at.stoppers.Keys && u.at.handlers.Keys == t.at.handlers.Keys
  {
    u := MutexIsFreed(t);
    if !u.at.stoppers[k].Stopped? {
      u := LockedGoesThrough(u, k);
    }
  }

  // The handlers leave.

  lemma ServedLeaves(t: Trace, h: nat) returns (u: Trace)
    requires t.Valid() && Inv(t.at) && h in t.at.handlers && t.at.handlers[h].Serving?
    ensures GoesOn(t, u) && Counted(u.at.handlers) == Counted(t.at.handlers) - {h} && u.at.stoppers == t.at.stoppers
  {
    u := Take(t, Handle(h));
    CountedAfter(t.at.handlers, h, Gone);
  }

  lemma CountedLeaves(t: Trace, h: nat) returns (u: Trace)
    requires t.Valid() && Inv(t.at) && h in Counted(t.at.handlers)
    ensures GoesOn(t, u) && Counted(u.at.handlers) == Counted(t.at.handlers) - {h} && u.at.stoppers == t.at.stoppers
  {
    u := t;
    if t.at.handlers[h].Added? {
      u := Take(t, Handle(h));
      CountedAfter(t.at.handlers, h, Serving);
    }
    u := ServedLeaves(u, h);
  }

  /** Once nobody new comes, the gate empties when those inside return. */
  lemma {:induction false} AllLeave(t: Trace) returns (u: Trace)
    requires t.Valid() && Inv(t.at)
    ensures GoesOn(t, u) && u.at.count == 0 && u.at.stoppers == t.at.stoppers
    decreases |Counted(t.at.handlers)|
  {
    u := t;
    if Counted(t.at.handlers) != {} {
      var h :| h in Counted(t.at.handlers);
      var v := CountedLeaves(t, h);
      u := AllLeave(v);
    }
  }
}
