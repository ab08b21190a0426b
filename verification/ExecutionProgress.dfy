/** Stop and Close never wait in vain: whatever has happened, launchers returning and processes
    ending is all it takes for every call under way to return (internal/server/execution_manager.go). */
module ExecutionProgress {
  import opened Wrappers
  import opened Execution
  import opened ExecutionRuns
  import opened ExecutionSafety

  // A stop under way has its leader.

  ghost predicate HasLeader(stops: map<nat, StopCall>, i: nat) {
    exists c <- stops :: LeadsAt(stops[c].place, i)
  }

  /** Joiners wait only for a stop that somebody leads. */
  ghost predicate Led(entries: map<nat, Entry>, stops: map<nat, StopCall>) {
    forall i <- entries :: entries[i].stopDone.Open? ==> HasLeader(stops, i)
  }

  /** Calls may be added, and no stop begins. */
  ghost predicate OnlyCallsAdded(s: Machine, t: Machine) {
    && (forall c <- s.stops :: c in t.stops && t.stops[c] == s.stops[c])
    && (forall i <- t.manager.entries :: t.manager.entries[i].stopDone.Open? ==>
          i in s.manager.entries && s.manager.entries[i].stopDone.Open?)
  }

  lemma OtherStepsAddCalls(s: Machine, step: Step, t: Machine)
    requires Steps(s, step, t) && !step.StopMoves?
    ensures OnlyCallsAdded(s, t)
  {
    match step
    case CallClose(close, stops) => CloseAddsCalls(s, close, stops);
    case CallStop(_, _) =>
    case Start(_, _, _) =>
    case Publish(_) =>
    case Spawn(_, _) =>
    case LaunchReturns(_, _, _) =>
    case ProcessExits(_, _) =>
    case CloseReturns(_) =>
  }

  lemma CloseAddsCalls(s: Machine, close: nat, stops: map<Key, nat>)
    requires Allowed(s, CallClose(close, stops))
    ensures OnlyCallsAdded(s, AfterCallClose(s, close, stops))
  {
    forall c <- s.stops
      ensures c !in stops.Values
    {
    }
  }

  lemma CallsKeepLed(s: Machine, t: Machine)
    requires Led(s.manager.entries, s.stops) && OnlyCallsAdded(s, t)
    ensures Led(t.manager.entries, t.stops)
  {
    forall i <- t.manager.entries | t.manager.entries[i].stopDone.Open?
      ensures HasLeader(t.stops, i)
    {
      var c :| c in s.stops && LeadsAt(s.stops[c].place, i);
      assert LeadsAt(t.stops[c].place, i);
    }
  }

  lemma MoveKeepsLed(entries: map<nat, Entry>, stops: map<nat, StopCall>, call: nat, place: Place,
                     later: map<nat, Entry>)
    requires Led(entries, stops) && call in stops && MarksMove(entries, stops[call].place, place, later)
    ensures Led(later, stops[call := stops[call].(place := place)])
  {
    var more := stops[call := stops[call].(place := place)];
    forall i <- later | later[i].stopDone.Open?
      ensures HasLeader(more, i)
    {
      if LeadsAt(place, i) {
        assert LeadsAt(more[call].place, i);
      } else {
        var c :| c in stops && LeadsAt(stops[c].place, i);
        assert c != call && LeadsAt(more[c].place, i);
      }
    }
  }

  lemma StepKeepsLed(s: Machine, step: Step, t: Machine)
    requires Steps(s, step, t) && Led(s.manager.entries, s.stops)
    ensures Led(t.manager.entries, t.stops)
  {
    if step.StopMoves? {
      var place := StopMovesOneCall(s, step.call);
      MoveKeepsLed(s.manager.entries, s.stops, step.call, place, t.manager.entries);
    } else {
      OtherStepsAddCalls(s, step, t);
      CallsKeepLed(s, t);
    }
  }

  lemma {:induction false} AlwaysLed(states: seq<Machine>, steps: seq<Step>, n: nat)
    requires Run(states, steps) && n < |states|
    ensures Led(states[n].manager.entries, states[n].stops)
    decreases n
  {
    if n > 0 {
      AlwaysLed(states, steps, n - 1);
      assert Steps(states[n - 1], steps[n - 1], states[n]);
      StepKeepsLed(states[n - 1], steps[n - 1], states[n]);
    }
  }

  // What it takes for a call to return.

  ghost predicate Good(s: Machine) {
    Inv(s) && Linked(s.manager, s.processes) && Led(s.manager.entries, s.stops)
  }

  /** Launchers return, their outcome is published, processes end, and Stop calls go on. */
  predicate Helps(step: Step) {
    step.LaunchReturns? || step.Publish? || step.ProcessExits? || step.StopMoves?
  }

  /** The process ended without a result, and its invocation has it or is about to. */
  ghost predicate Doubts(s: Machine, p: nat, key: Key) {
    && p in s.processes && s.processes[p].done && s.processes[p].result.None?
    && var i := s.processes[p].owner;
       && i in s.manager.entries && s.manager.entries[i].key == key
       && (s.manager.entries[i].process == Some(p) ||
           (i in s.launches && s.launches[i].Returned? && s.launches[i].process == Some(p)))
  }

  ghost predicate Doubtful(s: Machine, key: Key) {
    exists p :: Doubts(s, p, key)
  }

  /** No further exit goes unconfirmed. */
  ghost predicate Calm(s: Machine, t: Machine) {
    forall p, key :: Doubts(t, p, key) ==> Doubts(s, p, key)
  }

  ghost predicate HelpsTo(s: Machine, step: Step, t: Machine) {
    Helps(step) && Steps(s, step, t) && Calm(s, t)
  }

  /** Such steps, and the states they lead through. */
  datatype Trace = Trace(begin: Machine, steps: seq<Step>, passed: seq<Machine>, at: Machine) {
    ghost predicate Valid() {
      && |passed| == |steps| + 1
      && passed[0] == begin && passed[|steps|] == at
      && forall i, j {:trigger HelpsTo(passed[i], steps[i], passed[j])} ::
        0 <= i < |steps| && j == i + 1 ==> HelpsTo(passed[i], steps[i], passed[j])
    }
  }

  lemma Take(t: Trace, step: Step, s: Machine) returns (u: Trace)
    requires t.Valid() && HelpsTo(t.at, step, s)
    ensures u.Valid() && u.begin == t.begin && u.at == s
  {
    u := Trace(t.begin, t.steps + [step], t.passed + [s], s);
    forall i, j | 0 <= i < |u.steps| && j == i + 1
      ensures HelpsTo(u.passed[i], u.steps[i], u.passed[j])
    {
      if i < |t.steps| {
        assert HelpsTo(t.passed[i], t.steps[i], t.passed[j]);
      }
    }
  }

  lemma StepKeepsGood(s: Machine, step: Step, t: Machine)
    requires Good(s) && Steps(s, step, t)
    ensures Good(t)
  {
    StepKeepsInv(s, step, t);
    StepKeepsLed(s, step, t);
    InvIsLinked(t);
  }

  /** Only the place of one call has changed, and no Close call has. */
  ghost predicate OnlyPlace(s: Machine, t: Machine, c: nat, place: Place) {
    c in s.stops && t.stops == s.stops[c := s.stops[c].(place := place)] && t.closes == s.closes
  }

  // A leader.

  /** How far a leader has to go. */
  function LeaderWork(s: Machine, place: Place): nat {
    match place
    case AwaitingLaunch(i) => if i !in s.launches then 5 else if s.launches[i].Returned? then 6 else 7
    case Reading(_) => 4
    case AwaitingExit(_, process) =>
      if process.Some? && process.value in s.processes && !s.processes[process.value].done then 3 else 2
    case Publishing(_, _) => 1
    case _ => 0
  }

  /** What a launcher with this child may return: nothing if the child is done already. */
  function Returning(s: Machine, child: Option<nat>): Option<nat> {
    if child.Some? && child.value in s.processes && s.processes[child.value].done then None else child
  }

  /** What the leader waits for, or its own next move. */
  function LeaderStep(s: Machine, c: nat): Step
    requires c in s.stops
  {
    match s.stops[c].place
    case AwaitingLaunch(i) =>
      if i !in s.launches then StopMoves(c)
      else if s.launches[i].Returned? then Publish(i)
      else LaunchReturns(i, Returning(s, s.launches[i].child), Returning(s, s.launches[i].child).None?)
    case AwaitingExit(_, process) =>
      if process.Some? && process.value in s.processes && !s.processes[process.value].done then
        ProcessExits(process.value, Some(0))
      else StopMoves(c)
    case _ => StopMoves(c)
  }

  lemma LeaderMayStep(s: Machine, c: nat)
    requires Good(s) && c in s.stops && Leads(s.stops[c].place)
    ensures Helps(LeaderStep(s, c)) && Allowed(s, LeaderStep(s, c))
  {
    assert StopGood(s.manager.entries, s.processes, s.stops[c]);
    if s.stops[c].place.AwaitingLaunch? {
      LaunchMayGoOn(s, c, s.stops[c].place.i);
    }
  }

  lemma LaunchMayGoOn(s: Machine, c: nat, i: nat)
    requires EntriesGood(s.manager, s.processes, s.launches)
    requires c in s.stops && s.stops[c].place == AwaitingLaunch(i) && i in s.manager.entries
    ensures Allowed(s, LeaderStep(s, c))
  {
    assert EntryGood(s.manager.states, s.manager.entries[i], s.processes, i in s.launches, i);
  }

  lemma LeaderAdvances(s: Machine, c: nat) returns (t: Machine, place: Place)
    requires Good(s) && c in s.stops && Leads(s.stops[c].place)
    ensures HelpsTo(s, LeaderStep(s, c), t) && OnlyPlace(s, t, c, place)
    ensures LeaderWork(t, place) < LeaderWork(s, s.stops[c].place)
    ensures Invocation(place) == Invocation(s.stops[c].place) && (Leads(place) || place.Done?)
  {
    LeaderMayStep(s, c);
    if LeaderStep(s, c).StopMoves? {
      place := LeaderMoves(s, c);
      t := AfterMove(s, c);
    } else {
      place := s.stops[c].place;
      t := OthersHelp(s, c);
    }
  }

  lemma OthersHelp(s: Machine, c: nat) returns (t: Machine)
    requires Linked(s.manager, s.processes) && c in s.stops && Leads(s.stops[c].place)
    requires Allowed(s, LeaderStep(s, c)) && !LeaderStep(s, c).StopMoves?
    ensures HelpsTo(s, LeaderStep(s, c), t) && OnlyPlace(s, t, c, s.stops[c].place)
    ensures LeaderWork(t, s.stops[c].place) < LeaderWork(s, s.stops[c].place)
  {
    assert s.stops[c := s.stops[c].(place := s.stops[c].place)] == s.stops;
    match LeaderStep(s, c)
    case Publish(i) => t := AfterPublication(s, i);
    case LaunchReturns(i, process, failed) => t := s.(launches := s.launches[i := Returned(process, failed)]);
    case ProcessExits(p, result) => t := AfterExit(s, p, result);
  }

  lemma OneMoveIsCalm(s: Machine, c: nat, place: Place, t: Machine)
    requires OnlyMoves(s, c, place, t)
    requires MarksMove(s.manager.entries, s.stops[c].place, place, t.manager.entries)
    ensures Calm(s, t)
  {
  }

  /** A Stop call that goes on loses no process. */
  lemma MovesAreCalm(s: Machine, c: nat)
    requires Linked(s.manager, s.processes) && Allowed(s, StopMoves(c))
    ensures Calm(s, AfterMove(s, c))
  {
    var place := StopMovesOneCall(s, c);
    OneMoveIsCalm(s, c, place, AfterMove(s, c));
  }

  lemma LeaderMoves(s: Machine, c: nat) returns (place: Place)
    requires Linked(s.manager, s.processes) && c in s.stops && Leads(s.stops[c].place) && Allowed(s, StopMoves(c))
    requires LeaderStep(s, c) == StopMoves(c)
    ensures HelpsTo(s, StopMoves(c), AfterMove(s, c))
    ensures OnlyPlace(s, AfterMove(s, c), c, place)
    ensures LeaderWork(AfterMove(s, c), place) < LeaderWork(s, s.stops[c].place)
    ensures Invocation(place) == Invocation(s.stops[c].place) && (Leads(place) || place.Done?)
  {
    MovesAreCalm(s, c);
    match s.stops[c].place
    case AwaitingLaunch(i) => place := Reading(i);
    case Reading(i) => place := AwaitingExit(i, s.manager.entries[i].process);
    case AwaitingExit(i, process) => place := Publishing(i, Unconfirmed(process, s.processes));
    case Publishing(i, err) => place := Done(Some(i), err);
  }

  lemma LeaderGoesOn(t: Trace, c: nat) returns (u: Trace, place: Place)
    requires t.Valid() && Good(t.at) && c in t.at.stops && Leads(t.at.stops[c].place)
    ensures u.Valid() && u.begin == t.begin && Good(u.at) && OnlyPlace(t.at, u.at, c, place)
    ensures LeaderWork(u.at, place) < LeaderWork(t.at, t.at.stops[c].place)
    ensures Invocation(place) == Invocation(t.at.stops[c].place) && (Leads(place) || place.Done?)
  {
    var s;
    s, place := LeaderAdvances(t.at, c);
    StepKeepsGood(t.at, LeaderStep(t.at, c), s);
    u := Take(t, LeaderStep(t.at, c), s);
  }

  lemma PlacesFollow(s: Machine, t: Machine, u: Machine, c: nat, first: Place, second: Place)
    requires OnlyPlace(s, t, c, first) && OnlyPlace(t, u, c, second)
    ensures OnlyPlace(s, u, c, second)
  {
  }

  /** A leader can always get to its end. */
  lemma {:induction false} LeaderReturns(t: Trace, c: nat) returns (u: Trace, place: Place)
    requires t.Valid() && Good(t.at) && c in t.at.stops && Leads(t.at.stops[c].place)
    ensures u.Valid() && u.begin == t.begin && Good(u.at) && OnlyPlace(t.at, u.at, c, place)
    ensures place.Done? && place.stopped == Invocation(t.at.stops[c].place)
    decreases LeaderWork(t.at, t.at.stops[c].place)
  {
    var v, next := LeaderGoesOn(t, c);
    u, place := v, next;
    if !next.Done? {
      u, place := LeaderReturns(v, c);
      PlacesFollow(t.at, v.at, u.at, c, next, place);
    }
  }

  // Any call.

  /** Stop calls that have returned stay as they are, and Close calls too. */
  ghost predicate Keeps(s: Machine, t: Machine) {
    && t.closes == s.closes && t.stops.Keys == s.stops.Keys
    && (forall c <- s.stops :: s.stops[c].place.Done? ==> t.stops[c] == s.stops[c])
  }

  /** The call takes one step of its own. */
  lemma CallMoves(t: Trace, c: nat) returns (u: Trace, place: Place)
    requires t.Valid() && Good(t.at) && c in t.at.stops && MayMove(t.at, t.at.stops[c].place)
    ensures u.Valid() && u.begin == t.begin && Good(u.at) && OnlyPlace(t.at, u.at, c, place)
    ensures !place.Entering? && (t.at.stops[c].place.Joining? ==> place.Done?)
  {
    var s := AfterMove(t.at, c);
    place := StopMovesOneCall(t.at, c);
    assert t.at.stops[c].place.Joining? ==> s.stops[c].place.Done?;
    MovesAreCalm(t.at, c);
    StepKeepsGood(t.at, StopMoves(c), s);
    u := Take(t, StopMoves(c), s);
  }

  lemma JoinedIsStopped(s: Machine, c: nat, i: nat)
    requires StopsGood(s.manager.entries, s.processes, s.stops)
    requires c in s.stops && Invocation(s.stops[c].place) == Some(i)
    ensures i in s.manager.entries && !s.manager.entries[i].stopDone.Absent?
    ensures s.stops[c].place.Done? ==> s.manager.entries[i].stopDone.Closed?
  {
    assert StopGood(s.manager.entries, s.processes, s.stops[c]);
  }

  lemma LeaderEndsStop(t: Trace, d: nat, i: nat) returns (u: Trace, place: Place)
    requires t.Valid() && Good(t.at) && d in t.at.stops && LeadsAt(t.at.stops[d].place, i)
    ensures u.Valid() && u.begin == t.begin && Good(u.at) && OnlyPlace(t.at, u.at, d, place)
    ensures MayMove(u.at, Joining(i))
  {
    u, place := LeaderReturns(t, d);
    JoinedIsStopped(u.at, d, i);
  }

  lemma LeaderKeepsOthers(s: Machine, t: Machine, d: nat, place: Place, c: nat)
    requires OnlyPlace(s, t, d, place) && Leads(s.stops[d].place) && c in s.stops && !Leads(s.stops[c].place)
    ensures Keeps(s, t) && t.stops[c] == s.stops[c]
  {
  }

  /** The stop that a joiner waits for has a leader, and that one returns. */
  lemma StopEnds(t: Trace, c: nat, i: nat) returns (u: Trace)
    requires t.Valid() && Good(t.at) && c in t.at.stops && t.at.stops[c].place == Joining(i)
    ensures u.Valid() && u.begin == t.begin && Good(u.at) && Keeps(t.at, u.at)
    ensures c in u.at.stops && u.at.stops[c].place == Joining(i) && MayMove(u.at, Joining(i))
  {
    JoinedIsStopped(t.at, c, i);
    u := t;
    if !MayMove(t.at, Joining(i)) {
      assert HasLeader(t.at.stops, i);
      var d :| d in t.at.stops && LeadsAt(t.at.stops[d].place, i);
      var place;
      u, place := LeaderEndsStop(t, d, i);
      LeaderKeepsOthers(t.at, u.at, d, place, c);
    }
  }

  /** So a joiner can return. */
  lemma JoinerReturns(t: Trace, c: nat, i: nat) returns (u: Trace)
    requires t.Valid() && Good(t.at) && c in t.at.stops && t.at.stops[c].place == Joining(i)
    ensures u.Valid() && u.begin == t.begin && Good(u.at) && Keeps(t.at, u.at) && Returns(u.at.stops, c)
  {
    var ended := StopEnds(t, c, i);
    var place;
    u, place := CallMoves(ended, c);
  }

  lemma CallReturns(t: Trace, c: nat) returns (u: Trace)
    requires t.Valid() && Good(t.at) && c in t.at.stops
    ensures u.Valid() && u.begin == t.begin && Good(u.at) && Keeps(t.at, u.at) && Returns(u.at.stops, c)
    decreases t.at.stops[c].place.Entering?
  {
    var place := t.at.stops[c].place;
    if place.Done? {
      u := t;
    } else if place.Entering? {
      u, place := CallMoves(t, c);
      u := CallReturns(u, c);
    } else if place.Joining? {
      u := JoinerReturns(t, c, place.i);
    } else {
      u, place := LeaderReturns(t, c);
    }
  }

  lemma {:induction false} TraceIsCalm(t: Trace, k: nat)
    requires t.Valid() && k <= |t.steps|
    ensures Calm(t.begin, t.passed[k])
    decreases k
  {
    if k > 0 {
      TraceIsCalm(t, k - 1);
      assert HelpsTo(t.passed[k - 1], t.steps[k - 1], t.passed[k]);
    }
  }

  lemma {:induction false} TraceKeepsKey(t: Trace, k: nat, c: nat)
    requires t.Valid() && k <= |t.steps| && c in t.begin.stops
    ensures c in t.passed[k].stops && t.passed[k].stops[c].key == t.begin.stops[c].key
    decreases k
  {
    if k > 0 {
      TraceKeepsKey(t, k - 1, c);
      var s, step := t.passed[k - 1], t.steps[k - 1];
      assert HelpsTo(s, step, t.passed[k]);
      if step.StopMoves? {
        var _ := StopMovesOneCall(s, step.call);
      }
    }
  }

  /** A Stop call fails only for an exit without a result. */
  lemma FailureIsDoubt(s: Machine, call: nat)
    requires Good(s) && Fails(s.stops, call)
    ensures Doubtful(s, s.stops[call].key)
  {
    assert StopGood(s.manager.entries, s.processes, s.stops[call]);
    var i := s.stops[call].place.stopped.value;
    assert EntryGood(s.manager.states, s.manager.entries[i], s.processes, i in s.launches, i);
    assert Doubts(s, s.manager.entries[i].process.value, s.stops[call].key);
  }

  /** From a good state a Stop call can return, without an error unless one is due already. */
  lemma ReturnsFrom(s: Machine, call: nat) returns (t: Trace)
    requires Good(s) && call in s.stops
    ensures t.Valid() && t.begin == s && Good(t.at) && Returns(t.at.stops, call)
    ensures t.at.stops.Keys == s.stops.Keys && t.at.stops[call].key == s.stops[call].key
    ensures Fails(t.at.stops, call) ==> Doubtful(s, s.stops[call].key)
  {
    t := CallReturns(Trace(s, [], [s], s), call);
    TraceKeepsKey(t, |t.steps|, call);
    if Fails(t.at.stops, call) {
      FailureIsDoubt(t.at, call);
      TraceIsCalm(t, |t.steps|);
    }
  }

  /** No Stop waits in vain: from every reachable state every Stop call under way can return,
      and all it takes is that launchers return, processes end with a result and other Stop
      calls go on. It then reports no error, unless an exit was lost before. */
  lemma StopCanReturn(states: seq<Machine>, steps: seq<Step>, n: nat, call: nat) returns (t: Trace)
    requires Run(states, steps) && n < |states| && call in states[n].stops
    ensures t.Valid() && t.begin == states[n] && Returns(t.at.stops, call)
    ensures Fails(t.at.stops, call) ==> Doubtful(states[n], states[n].stops[call].key)
  {
    AlwaysGood(states, steps, n);
    AlwaysLed(states, steps, n);
    t := ReturnsFrom(states[n], call);
  }

  /** One after another the Stop calls of a Close call return. */
  lemma {:induction false} AllReturn(t: Trace, calls: set<nat>) returns (u: Trace)
    requires t.Valid() && Good(t.at) && calls <= t.at.stops.Keys
    ensures u.Valid() && u.begin == t.begin && Good(u.at) && Keeps(t.at, u.at)
    ensures forall c <- calls :: Returns(u.at.stops, c)
    decreases calls
  {
    u := t;
    if calls != {} {
      var c :| c in calls;
      var most := AllReturn(t, calls - {c});
      u := CallReturns(most, c);
      forall d <- calls
        ensures Returns(u.at.stops, d)
      {
        assert d != c ==> d in calls - {c} && Returns(most.at.stops, d);
      }
    }
  }

  lemma CloseReturnsFrom(s: Machine, close: nat) returns (t: Trace)
    requires Good(s) && close in s.closes
    ensures t.Valid() && t.begin == s && Good(t.at) && t.at.closes == s.closes
    ensures t.at.closes[close].outcome.None? ==> Allowed(t.at, CloseReturns(close))
  {
    assert CloseGood(s.manager.states, s.manager.closed, s.stops, s.closes[close]);
    var calls := s.closes[close].stops;
    forall key <- calls
      ensures calls[key] in s.stops
    {
      assert ClosingGood(s.manager.states, s.stops, key, calls[key]);
    }
    t := AllReturn(Trace(s, [], [s], s), calls.Values);
    assert forall key <- calls :: calls[key] in calls.Values;
  }

  /** Nor does Close: it can always come to where all its Stop calls have returned, so that it
      returns itself. */
  lemma CloseCanReturn(states: seq<Machine>, steps: seq<Step>, n: nat, close: nat) returns (t: Trace)
    requires Run(states, steps) && n < |states| && close in states[n].closes
    ensures t.Valid() && t.begin == states[n] && close in t.at.closes
    ensures t.at.closes[close].outcome.None? ==> Allowed(t.at, CloseReturns(close))
  {
    AlwaysGood(states, steps, n);
    AlwaysLed(states, steps, n);
    t := CloseReturnsFrom(states[n], close);
  }

  // A lost exit.

  lemma PublishKeepsDoubt(s: Machine, i: nat, p: nat, key: Key)
    requires Linked(s.manager, s.processes) && Allowed(s, Publish(i)) && Doubts(s, p, key)
    requires EntriesGood(s.manager, s.processes, s.launches)
    ensures Doubts(AfterPublication(s, i), p, key)
  {
    assert EntryGood(s.manager.states, s.manager.entries[i], s.processes, true, i);
  }

  lemma StartKeepsDoubt(s: Machine, key: Key, canceled: bool, next: nat, p: nat, lost: Key)
    requires Linked(s.manager, s.processes) && Allowed(s, Start(key, canceled, next)) && Doubts(s, p, lost)
    ensures Doubts(AfterStart(s, key, canceled, next), p, lost)
  {
  }

  lemma MoveKeepsDoubt(s: Machine, call: nat, p: nat, key: Key)
    requires Linked(s.manager, s.processes) && Allowed(s, StopMoves(call)) && Doubts(s, p, key)
    ensures Doubts(AfterMove(s, call), p, key)
  {
    var _ := StopMovesOneCall(s, call);
  }

  lemma LauncherKeepsDoubt(s: Machine, step: Step, p: nat, key: Key)
    requires Linked(s.manager, s.processes) && Allowed(s, step) && Doubts(s, p, key)
    requires step.Spawn? || step.LaunchReturns? || step.ProcessExits?
    ensures Doubts(After(s, step), p, key)
  {
  }

  /** A lost exit stays lost. */
  lemma DoubtStays(s: Machine, step: Step, t: Machine, p: nat, key: Key)
    requires EntriesGood(s.manager, s.processes, s.launches) && Steps(s, step, t) && Doubts(s, p, key)
    ensures Doubts(t, p, key)
  {
    match step
    case Start(started, canceled, next) => StartKeepsDoubt(s, started, canceled, next, p, key);
    case Publish(i) => PublishKeepsDoubt(s, i, p, key);
    case StopMoves(call) => MoveKeepsDoubt(s, call, p, key);
    case Spawn(_, _) => LauncherKeepsDoubt(s, step, p, key);
    case LaunchReturns(_, _, _) => LauncherKeepsDoubt(s, step, p, key);
    case ProcessExits(_, _) => LauncherKeepsDoubt(s, step, p, key);
    case CallStop(_, _) =>
    case CallClose(_, _) =>
    case CloseReturns(_) =>
  }

  lemma DoubtIsUnsettled(s: Machine, p: nat, key: Key)
    requires Doubts(s, p, key)
    ensures !Settled(s, key)
  {
    assert Occupies(s, p, key) || LaunchesFor(s, s.processes[p].owner, key);
  }
}
