/** The execution manager with everything that runs around it: launchers, processes, and any
    number of concurrent Start, Stop and Close calls (internal/server/execution_manager.go,
    with internal/server/wrapper.go as the environment). */
module ExecutionRuns {
  import opened Wrappers
  import opened Execution

  /** A launcher between its start and the publication of what it returned. */
  datatype Launch = Launching(child: Option<nat>) | Returned(process: Option<nat>, failed: bool)

  /** Where a Stop call stands. Leaders wait for the launcher, read its process, wait for it
      to exit and publish; joiners wait for the leader. */
  datatype Place =
    | Entering
    | Joining(i: nat)
    | AwaitingLaunch(i: nat)
    | Reading(i: nat)
    | AwaitingExit(i: nat, process: Option<nat>)
    | Publishing(i: nat, err: bool)
    | Done(stopped: Option<nat>, err: bool)

  datatype StopCall = StopCall(key: Key, place: Place)

  /** A Close call has one Stop call for every key, and an outcome once all have returned. */
  datatype CloseCall = CloseCall(stops: map<Key, nat>, outcome: Option<bool>)

  datatype Machine = Machine(
    manager: Manager, processes: map<nat, Process>, launches: map<nat, Launch>,
    stops: map<nat, StopCall>, closes: map<nat, CloseCall>)

  datatype Step =
    | Start(key: Key, canceled: bool, next: nat)
    | Spawn(i: nat, child: nat)
    | LaunchReturns(i: nat, process: Option<nat>, failed: bool)
    | Publish(i: nat)
    | ProcessExits(p: nat, result: Option<int>)
    | CallStop(call: nat, key: Key)
    | StopMoves(call: nat)
    | CallClose(close: nat, stops: map<Key, nat>)
    | CloseReturns(close: nat)

  const IDLE := Machine(EMPTY, map[], map[], map[], map[])

  /** The outcomes of the launcher contract: nothing and an error, with any child already
      gone; its child and an error; or its child. */
  predicate MayReturn(s: Machine, child: Option<nat>, process: Option<nat>, failed: bool) {
    if process.None? then failed && (child.Some? ==> child.value in s.processes && s.processes[child.value].done)
    else process == child
  }

  function Invocation(place: Place): Option<nat> {
    match place
    case Entering => None
    case Joining(i) => Some(i)
    case AwaitingLaunch(i) => Some(i)
    case Reading(i) => Some(i)
    case AwaitingExit(i, _) => Some(i)
    case Publishing(i, _) => Some(i)
    case Done(stopped, _) => stopped
  }

  predicate Leads(place: Place) {
    place.AwaitingLaunch? || place.Reading? || place.AwaitingExit? || place.Publishing?
  }

  predicate Injective(m: map<Key, nat>) {
    forall a <- m.Keys, b <- m.Keys :: m[a] == m[b] ==> a == b
  }

  /** Whether a Stop call can leave its place. */
  predicate MayMove(s: Machine, place: Place) {
    match place
    case Entering => true
    case Joining(i) => i in s.manager.entries && s.manager.entries[i].stopDone.Closed?
    case AwaitingLaunch(i) => i in s.manager.entries && !s.manager.entries[i].starting
    case Reading(i) => i in s.manager.entries
    case AwaitingExit(_, process) =>
      process.Some? ==> process.value in s.processes && s.processes[process.value].done
    case Publishing(i, _) => i in s.manager.entries
    case Done(_, _) => false
  }

  ghost predicate Allowed(s: Machine, step: Step) {
    match step
    case Start(_, _, next) => next !in s.manager.entries
    case Spawn(i, child) => i in s.launches && s.launches[i] == Launching(None) && child !in s.processes
    case LaunchReturns(i, process, failed) =>
      i in s.launches && s.launches[i].Launching? && MayReturn(s, s.launches[i].child, process, failed)
    case Publish(i) => i in s.launches && s.launches[i].Returned? && i in s.manager.entries
    case ProcessExits(p, _) => p in s.processes && !s.processes[p].done
    case CallStop(call, _) => call !in s.stops
    case StopMoves(call) => call in s.stops && MayMove(s, s.stops[call].place)
    case CallClose(close, stops) =>
      close !in s.closes && stops.Keys == s.manager.states.Keys && Injective(stops)
      && (forall key <- stops :: stops[key] !in s.stops)
    case CloseReturns(close) =>
      close in s.closes && s.closes[close].outcome.None?
      && forall key <- s.closes[close].stops :: Returns(s.stops, s.closes[close].stops[key])
  }

  predicate Returns(stops: map<nat, StopCall>, call: nat) {
    call in stops && stops[call].place.Done?
  }

  predicate Fails(stops: map<nat, StopCall>, call: nat) {
    call in stops && stops[call].place.Done? && stops[call].place.err
  }

  ghost function AfterStart(s: Machine, key: Key, canceled: bool, next: nat): Machine
    requires Linked(s.manager, s.processes)
  {
    if StartAnswer(s.manager, s.processes, key, canceled, next).Launched? then
      s.(manager := AfterLaunch(s.manager, key, next), launches := s.launches[next := Launching(None)])
    else s
  }

  function AfterSpawn(s: Machine, i: nat, child: nat): Machine {
    s.(launches := s.launches[i := Launching(Some(child))],
       processes := s.processes[child := Process(i, false, None)])
  }

  ghost function AfterPublication(s: Machine, i: nat): Machine
    requires i in s.launches && s.launches[i].Returned? && i in s.manager.entries
  {
    s.(manager := AfterPublish(s.manager, i, s.launches[i].process, s.launches[i].failed),
       launches := s.launches - {i})
  }

  function AfterExit(s: Machine, p: nat, result: Option<int>): Machine
    requires p in s.processes
  {
    s.(processes := s.processes[p := s.processes[p].(done := true, result := result)])
  }

  function Move(s: Machine, call: nat, place: Place): Machine
    requires call in s.stops
  {
    s.(stops := s.stops[call := s.stops[call].(place := place)])
  }

  ghost function AfterEntering(s: Machine, call: nat): Machine
    requires Linked(s.manager, s.processes) && call in s.stops
  {
    match StopAnswer(s.manager, s.stops[call].key)
    case NothingToStop => Move(s, call, Done(None, false))
    case Join(i) => Move(s, call, Joining(i))
    case Lead(i) => Move(s, call, AwaitingLaunch(i)).(manager := AfterBeginStop(s.manager, i))
  }

  ghost function AfterMove(s: Machine, call: nat): Machine
    requires Linked(s.manager, s.processes) && Allowed(s, StopMoves(call))
  {
    match s.stops[call].place
    case Entering => AfterEntering(s, call)
    case Joining(i) => Move(s, call, Done(Some(i), s.manager.entries[i].stopErr))
    case AwaitingLaunch(i) => Move(s, call, Reading(i))
    case Reading(i) => Move(s, call, AwaitingExit(i, s.manager.entries[i].process))
    case AwaitingExit(i, process) => Move(s, call, Publishing(i, Unconfirmed(process, s.processes)))
    case Publishing(i, err) =>
      Move(s, call, Done(Some(i), err)).(manager := AfterFinishStop(s.manager, i, err))
  }

  ghost function AfterCallClose(s: Machine, close: nat, stops: map<Key, nat>): Machine {
    s.(manager := s.manager.(closed := true),
       stops := s.stops + (map call <- stops.Values :: StopCall(KeyOf(stops, call), Entering)),
       closes := s.closes[close := CloseCall(stops, None)])
  }

  /** The key whose Stop call this is. */
  ghost function KeyOf(stops: map<Key, nat>, call: nat): Key
    requires call in stops.Values
  {
    var key :| key in stops && stops[key] == call; key
  }

  ghost function AfterClose(s: Machine, close: nat): Machine
    requires close in s.closes
  {
    var calls := s.closes[close].stops;
    s.(closes := s.closes[close := CloseCall(calls, Some(exists key <- calls :: Fails(s.stops, calls[key])))])
  }

  ghost function After(s: Machine, step: Step): Machine
    requires Linked(s.manager, s.processes) && Allowed(s, step)
  {
    match step
    case Start(key, canceled, next) => AfterStart(s, key, canceled, next)
    case Spawn(i, child) => AfterSpawn(s, i, child)
    case LaunchReturns(i, process, failed) => s.(launches := s.launches[i := Returned(process, failed)])
    case Publish(i) => AfterPublication(s, i)
    case ProcessExits(p, result) => AfterExit(s, p, result)
    case CallStop(call, key) => s.(stops := s.stops[call := StopCall(key, Entering)])
    case StopMoves(call) => AfterMove(s, call)
    case CallClose(close, stops) => AfterCallClose(s, close, stops)
    case CloseReturns(close) => AfterClose(s, close)
  }

  ghost predicate Steps(s: Machine, step: Step, t: Machine) {
    Linked(s.manager, s.processes) && Allowed(s, step) && t == After(s, step)
  }

  /** A run: any interleaving of calls, launchers and processes. */
  ghost predicate Run(states: seq<Machine>, steps: seq<Step>) {
    && |states| == |steps| + 1
    && states[0] == IDLE
    && forall i, j {:trigger Steps(states[i], steps[i], states[j])} ::
      0 <= i < |steps| && j == i + 1 ==> Steps(states[i], steps[i], states[j])
  }

  // The invariant, family by family. Each family names what it depends on.

  /** Only the current invocation of a key may be unfinished or unconfirmed. */
  ghost predicate EntryGood(states: map<Key, nat>, e: Entry, processes: map<nat, Process>, launching: bool, i: nat) {
    && e.key in states
    && e.starting == launching
    && (e.process.Some? ==> e.process.value in processes && processes[e.process.value].owner == i)
    && (e.starting ==> e.process.None? && !e.stopDone.Closed?)
    && (states[e.key] != i ==> !e.starting && Confirmed(e.process, processes))
    && (!e.stopDone.Absent? ==> e.canceled)
    && (e.stopDone.Closed? ==>
          && !e.starting
          && (e.process.Some? ==> processes[e.process.value].done)
          && (e.stopErr <==> Unconfirmed(e.process, processes)))
  }

  ghost predicate EntriesGood(m: Manager, processes: map<nat, Process>, launches: map<nat, Launch>) {
    forall i <- m.entries :: EntryGood(m.states, m.entries[i], processes, i in launches, i)
  }

  ghost predicate StatesGood(m: Manager) {
    forall key <- m.states :: m.states[key] in m.entries && m.entries[m.states[key]].key == key
  }

  function Held(launch: Launch): Option<nat> {
    if launch.Launching? then launch.child else launch.process
  }

  ghost predicate LaunchesGood(entries: set<nat>, processes: map<nat, Process>, launches: map<nat, Launch>) {
    forall i <- launches ::
      && i in entries
      && (Held(launches[i]).Some? ==>
            Held(launches[i]).value in processes && processes[Held(launches[i]).value].owner == i)
  }

  /** A live process is in the hands of its launcher or recorded in its invocation. */
  ghost predicate ProcessGood(entries: map<nat, Entry>, launches: map<nat, Launch>, p: nat, process: Process) {
    && process.owner in entries
    && (!process.done ==>
          || (process.owner in launches && Held(launches[process.owner]) == Some(p))
          || entries[process.owner].process == Some(p))
  }

  ghost predicate ProcessesGood(entries: map<nat, Entry>, processes: map<nat, Process>, launches: map<nat, Launch>) {
    forall p <- processes :: ProcessGood(entries, launches, p, processes[p])
  }

  /** What a Stop call that has found its invocation knows about it. */
  ghost predicate Attends(e: Entry, processes: map<nat, Process>, call: StopCall) {
    var place := call.place;
    && e.key == call.key
    && !e.stopDone.Absent?
    && (e.process.Some? ==> e.process.value in processes)
    && (Leads(place) ==> e.stopDone.Open?)
    && (place.Reading? || place.AwaitingExit? || place.Publishing? ==> !e.starting)
    && (place.AwaitingExit? ==> place.process == e.process)
    && (place.Publishing? ==>
          && (e.process.Some? ==> processes[e.process.value].done)
          && (place.err <==> Unconfirmed(e.process, processes)))
    && (place.Done? ==> e.stopDone.Closed? && place.err == e.stopErr)
  }

  ghost predicate StopGood(entries: map<nat, Entry>, processes: map<nat, Process>, call: StopCall) {
    var i := Invocation(call.place);
    && (i.Some? ==> i.value in entries && Attends(entries[i.value], processes, call))
    && (i.None? && call.place.Done? ==> !call.place.err)
  }

  ghost predicate StopsGood(entries: map<nat, Entry>, processes: map<nat, Process>, stops: map<nat, StopCall>) {
    forall c <- stops :: StopGood(entries, processes, stops[c])
  }

  ghost predicate OneLeader(stops: map<nat, StopCall>) {
    forall c <- stops, d <- stops ::
      c != d && Leads(stops[c].place) && Leads(stops[d].place) ==>
      Invocation(stops[c].place) != Invocation(stops[d].place)
  }

  /** After closing nothing is launched, so every Stop call of Close concerns the last
      invocation of its key. */
  ghost predicate ClosingGood(states: map<Key, nat>, stops: map<nat, StopCall>, key: Key, c: nat) {
    && key in states && c in stops && stops[c].key == key
    && (!stops[c].place.Entering? ==> Invocation(stops[c].place) == Some(states[key]))
  }

  ghost predicate CloseGood(states: map<Key, nat>, closed: bool, stops: map<nat, StopCall>, c: CloseCall) {
    && closed
    && c.stops.Keys == states.Keys
    && (forall key <- c.stops :: ClosingGood(states, stops, key, c.stops[key]))
    && (c.outcome.Some? ==>
          && (forall key <- c.stops :: Returns(stops, c.stops[key]))
          && (c.outcome.value <==> exists key <- c.stops :: Fails(stops, c.stops[key])))
  }

  ghost predicate ClosesGood(states: map<Key, nat>, closed: bool, stops: map<nat, StopCall>,
                             closes: map<nat, CloseCall>) {
    forall c <- closes :: CloseGood(states, closed, stops, closes[c])
  }

  ghost predicate Inv(s: Machine) {
    && StatesGood(s.manager)
    && EntriesGood(s.manager, s.processes, s.launches)
    && LaunchesGood(s.manager.entries.Keys, s.processes, s.launches)
    && ProcessesGood(s.manager.entries, s.processes, s.launches)
    && StopsGood(s.manager.entries, s.processes, s.stops)
    && OneLeader(s.stops)
    && ClosesGood(s.manager.states, s.manager.closed, s.stops, s.closes)
  }

  lemma InvIsLinked(s: Machine)
    requires StatesGood(s.manager) && EntriesGood(s.manager, s.processes, s.launches)
    ensures Linked(s.manager, s.processes)
  {
  }

  lemma StepKeepsInv(s: Machine, step: Step, t: Machine)
    requires Inv(s) && Steps(s, step, t)
    ensures Inv(t)
  {
    match step
    case Start(key, canceled, next) => StartKeepsInv(s, key, canceled, next);
    case Spawn(i, child) => SpawnKeepsInv(s, i, child);
    case LaunchReturns(i, process, failed) => LaunchReturnsKeepsInv(s, i, process, failed);
    case Publish(i) => PublishKeepsInv(s, i);
    case ProcessExits(p, result) => ProcessExitsKeepsInv(s, p, result);
    case CallStop(call, key) => CallStopKeepsInv(s, call, key);
    case StopMoves(call) => MoveKeepsInv(s, call);
    case CallClose(close, stops) => CallCloseKeepsInv(s, close, stops);
    case CloseReturns(close) => CloseReturnsKeepsInv(s, close);
  }

  /** Processes may appear and finish; a finished one never changes. */
  ghost predicate Later(before: map<nat, Process>, after: map<nat, Process>) {
    forall p <- before ::
      && p in after && after[p].owner == before[p].owner
      && (before[p].done ==> after[p] == before[p])
  }

  lemma LaterKeeps(m: Manager, launches: map<nat, Launch>, stops: map<nat, StopCall>,
                   before: map<nat, Process>, after: map<nat, Process>)
    requires Later(before, after)
    requires EntriesGood(m, before, launches) && StopsGood(m.entries, before, stops)
    requires LaunchesGood(m.entries.Keys, before, launches)
    ensures EntriesGood(m, after, launches) && StopsGood(m.entries, after, stops)
    ensures LaunchesGood(m.entries.Keys, after, launches)
  {
  }

  lemma StartKeepsInv(s: Machine, key: Key, canceled: bool, next: nat)
    requires Inv(s) && Linked(s.manager, s.processes) && Allowed(s, Start(key, canceled, next))
    ensures Inv(AfterStart(s, key, canceled, next))
  {
    if StartAnswer(s.manager, s.processes, key, canceled, next).Launched? {
      LaunchKeepsEntries(s, key, next);
      LaunchKeepsRest(s, key, next);
    }
  }

  /** The guards of Start: nothing of the key is left unfinished or unconfirmed. */
  ghost predicate MayLaunch(s: Machine, key: Key, next: nat) {
    && next !in s.manager.entries && !s.manager.closed
    && (key in s.manager.states ==>
          && s.manager.states[key] in s.manager.entries
          && var e := s.manager.entries[s.manager.states[key]];
             && !e.stopDone.Open? && !e.starting
             && (e.process.Some? ==> e.process.value in s.processes)
             && Confirmed(e.process, s.processes))
  }

  lemma LaunchKeepsEntries(s: Machine, key: Key, next: nat)
    requires StatesGood(s.manager) && EntriesGood(s.manager, s.processes, s.launches) && MayLaunch(s, key, next)
    ensures StatesGood(AfterLaunch(s.manager, key, next))
    ensures EntriesGood(AfterLaunch(s.manager, key, next), s.processes, s.launches[next := Launching(None)])
  {
  }

  lemma LaunchKeepsRest(s: Machine, key: Key, next: nat)
    requires Inv(s) && MayLaunch(s, key, next)
    ensures var n := AfterLaunch(s.manager, key, next);
            var launches := s.launches[next := Launching(None)];
            && LaunchesGood(n.entries.Keys, s.processes, launches)
            && ProcessesGood(n.entries, s.processes, launches)
            && StopsGood(n.entries, s.processes, s.stops)
            && ClosesGood(n.states, n.closed, s.stops, s.closes)
  {
    var n := AfterLaunch(s.manager, key, next);
    var launches := s.launches[next := Launching(None)];
    forall p <- s.processes
      ensures ProcessGood(n.entries, launches, p, s.processes[p])
    {
      assert ProcessGood(s.manager.entries, s.launches, p, s.processes[p]);
    }
    forall c <- s.stops
      ensures StopGood(n.entries, s.processes, s.stops[c])
    {
      assert StopGood(s.manager.entries, s.processes, s.stops[c]);
    }
  }

  lemma SpawnKeepsInv(s: Machine, i: nat, child: nat)
    requires Inv(s) && Allowed(s, Spawn(i, child))
    ensures Inv(AfterSpawn(s, i, child))
  {
    var t := AfterSpawn(s, i, child);
    LaterKeeps(s.manager, s.launches, s.stops, s.processes, t.processes);
    SpawnKeepsProcesses(s, i, child);
    forall j <- t.manager.entries
      ensures EntryGood(t.manager.states, t.manager.entries[j], t.processes, j in t.launches, j)
    {
      assert EntryGood(t.manager.states, t.manager.entries[j], t.processes, j in s.launches, j);
    }
  }

  lemma SpawnKeepsProcesses(s: Machine, i: nat, child: nat)
    requires ProcessesGood(s.manager.entries, s.processes, s.launches) && i in s.manager.entries
    requires i in s.launches && s.launches[i] == Launching(None) && child !in s.processes
    ensures var t := AfterSpawn(s, i, child); ProcessesGood(t.manager.entries, t.processes, t.launches)
  {
    var t := AfterSpawn(s, i, child);
    forall p <- t.processes
      ensures ProcessGood(t.manager.entries, t.launches, p, t.processes[p])
    {
      if p != child {
        assert ProcessGood(s.manager.entries, s.launches, p, s.processes[p]);
      }
    }
  }

  lemma LaunchReturnsKeepsInv(s: Machine, i: nat, process: Option<nat>, failed: bool)
    requires Inv(s) && Allowed(s, LaunchReturns(i, process, failed))
    ensures Inv(s.(launches := s.launches[i := Returned(process, failed)]))
  {
  }

  lemma PublishKeepsInv(s: Machine, i: nat)
    requires Inv(s) && Allowed(s, Publish(i))
    ensures Inv(AfterPublication(s, i))
  {
    PublishKeepsEntries(s.manager, s.processes, s.launches, i);
    PublishKeepsRest(s, i);
    var t := AfterPublication(s, i);
    assert t.manager.entries.Keys == s.manager.entries.Keys;
  }

  lemma PublishKeepsEntries(m: Manager, processes: map<nat, Process>, launches: map<nat, Launch>, i: nat)
    requires StatesGood(m) && EntriesGood(m, processes, launches)
    requires LaunchesGood(m.entries.Keys, processes, launches)
    requires i in launches && launches[i].Returned? && i in m.entries
    ensures var n := AfterPublish(m, i, launches[i].process, launches[i].failed);
            StatesGood(n) && EntriesGood(n, processes, launches - {i})
  {
  }

  lemma PublishKeepsRest(s: Machine, i: nat)
    requires Inv(s) && Allowed(s, Publish(i))
    ensures var t := AfterPublication(s, i);
            && ProcessesGood(t.manager.entries, t.processes, t.launches)
            && StopsGood(t.manager.entries, t.processes, t.stops)
  {
  }

  lemma ProcessExitsKeepsInv(s: Machine, p: nat, result: Option<int>)
    requires Inv(s) && Allowed(s, ProcessExits(p, result))
    ensures Inv(AfterExit(s, p, result))
  {
    var t := AfterExit(s, p, result);
    LaterKeeps(s.manager, s.launches, s.stops, s.processes, t.processes);
    forall q <- t.processes
      ensures ProcessGood(t.manager.entries, t.launches, q, t.processes[q])
    {
      assert ProcessGood(s.manager.entries, s.launches, q, s.processes[q]);
    }
  }

  lemma CallStopKeepsInv(s: Machine, call: nat, key: Key)
    requires Inv(s) && Allowed(s, CallStop(call, key))
    ensures Inv(s.(stops := s.stops[call := StopCall(key, Entering)]))
  {
    StopsGrowKeepsCloses(s.manager, s.stops, s.stops[call := StopCall(key, Entering)], s.closes);
  }

  /** New calls do not concern the closes under way. */
  lemma StopsGrowKeepsCloses(m: Manager, stops: map<nat, StopCall>, more: map<nat, StopCall>,
                             closes: map<nat, CloseCall>)
    requires ClosesGood(m.states, m.closed, stops, closes)
    requires forall c <- stops :: c in more && more[c] == stops[c]
    ensures ClosesGood(m.states, true, more, closes)
    ensures ClosesGood(m.states, m.closed, more, closes)
  {
    forall c <- closes
      ensures CloseGood(m.states, m.closed, more, closes[c])
    {
      assert CloseGood(m.states, m.closed, stops, closes[c]);
      SameCallsSameOutcome(m, stops, more, closes[c]);
    }
  }

  lemma SameCallsSameOutcome(m: Manager, stops: map<nat, StopCall>, more: map<nat, StopCall>, c: CloseCall)
    requires CloseGood(m.states, m.closed, stops, c)
    requires forall d <- stops ::
               d in more && (more[d] == stops[d] || (!stops[d].place.Done? && more[d].key == stops[d].key))
    requires forall key <- c.stops :: ClosingGood(m.states, more, key, c.stops[key])
    ensures CloseGood(m.states, m.closed, more, c)
  {
  }

  /** A call that has not returned may take a new place at its invocation. */
  ghost predicate Moves(states: map<Key, nat>, call: StopCall, place: Place) {
    && !call.place.Done?
    && (Leads(place) ==> Leads(call.place) || call.place.Entering?)
    && (if call.place.Entering? then call.key in states ==> Invocation(place) == Some(states[call.key])
        else Invocation(place) == Invocation(call.place))
  }

  lemma MoveKeepsCloses(m: Manager, n: Manager, stops: map<nat, StopCall>, call: nat, place: Place,
                        closes: map<nat, CloseCall>)
    requires ClosesGood(m.states, m.closed, stops, closes) && call in stops && Moves(m.states, stops[call], place)
    requires n.states == m.states && n.closed == m.closed
    ensures ClosesGood(n.states, n.closed, stops[call := stops[call].(place := place)], closes)
  {
    var more := stops[call := stops[call].(place := place)];
    forall c <- closes
      ensures CloseGood(n.states, n.closed, more, closes[c])
    {
      assert CloseGood(m.states, m.closed, stops, closes[c]);
      forall key <- closes[c].stops
        ensures ClosingGood(n.states, more, key, closes[c].stops[key])
      {
        assert ClosingGood(m.states, stops, key, closes[c].stops[key]);
      }
      SameCallsSameOutcome(n, stops, more, closes[c]);
    }
  }

  /** Moves that leave the bookkeeping alone. */
  lemma PlaceKeepsInv(s: Machine, call: nat, place: Place)
    requires Inv(s) && call in s.stops && Moves(s.manager.states, s.stops[call], place)
    requires Leads(place) ==> Leads(s.stops[call].place)
    requires StopGood(s.manager.entries, s.processes, s.stops[call].(place := place))
    ensures Inv(Move(s, call, place))
  {
    MoveKeepsCloses(s.manager, s.manager, s.stops, call, place, s.closes);
  }

  lemma MoveKeepsInv(s: Machine, call: nat)
    requires Inv(s) && Linked(s.manager, s.processes) && Allowed(s, StopMoves(call))
    ensures Inv(AfterMove(s, call))
  {
    assert StopGood(s.manager.entries, s.processes, s.stops[call]);
    match s.stops[call].place
    case Entering => EnterKeepsInv(s, call);
    case Joining(i) => PlaceKeepsInv(s, call, Done(Some(i), s.manager.entries[i].stopErr));
    case AwaitingLaunch(i) => PlaceKeepsInv(s, call, Reading(i));
    case Reading(i) => PlaceKeepsInv(s, call, AwaitingExit(i, s.manager.entries[i].process));
    case AwaitingExit(i, process) => PlaceKeepsInv(s, call, Publishing(i, Unconfirmed(process, s.processes)));
    case Publishing(i, err) => FinishKeepsInv(s, call, i, err);
  }

  lemma EnterKeepsInv(s: Machine, call: nat)
    requires Inv(s) && Linked(s.manager, s.processes) && call in s.stops && s.stops[call].place.Entering?
    ensures Inv(AfterEntering(s, call))
  {
    var key := s.stops[call].key;
    match StopAnswer(s.manager, key)
    case NothingToStop => PlaceKeepsInv(s, call, Done(None, false));
    case Join(i) => PlaceKeepsInv(s, call, Joining(i));
    case Lead(i) => LeadKeepsInv(s, call, i);
  }

  lemma LeadKeepsInv(s: Machine, call: nat, i: nat)
    requires Inv(s) && call in s.stops && s.stops[call].place.Entering? && i in s.manager.entries
    requires StopAnswer(s.manager, s.stops[call].key) == Lead(i)
    ensures Inv(Move(s, call, AwaitingLaunch(i)).(manager := AfterBeginStop(s.manager, i)))
  {
    BeginStopKeepsEntries(s, i);
    BeginStopKeepsCalls(s, call, i);
    MoveKeepsCloses(s.manager, AfterBeginStop(s.manager, i), s.stops, call, AwaitingLaunch(i), s.closes);
  }

  lemma BeginStopKeepsEntries(s: Machine, i: nat)
    requires Inv(s) && i in s.manager.entries && s.manager.entries[i].stopDone.Absent?
    ensures var n := AfterBeginStop(s.manager, i);
            && StatesGood(n) && EntriesGood(n, s.processes, s.launches)
            && n.entries.Keys == s.manager.entries.Keys
            && ProcessesGood(n.entries, s.processes, s.launches)
  {
    var n := AfterBeginStop(s.manager, i);
    forall j <- n.entries
      ensures EntryGood(n.states, n.entries[j], s.processes, j in s.launches, j)
    {
      assert EntryGood(s.manager.states, s.manager.entries[j], s.processes, j in s.launches, j);
    }
    forall p <- s.processes
      ensures ProcessGood(n.entries, s.launches, p, s.processes[p])
    {
      assert ProcessGood(s.manager.entries, s.launches, p, s.processes[p]);
    }
  }

  /** Nobody attended an invocation that nobody had stopped, so its leader is the only one. */
  lemma BeginStopKeepsCalls(s: Machine, call: nat, i: nat)
    requires Inv(s) && call in s.stops && s.stops[call].place.Entering?
    requires i in s.manager.entries && s.manager.entries[i].stopDone.Absent?
    requires s.manager.entries[i].key == s.stops[call].key
    ensures var stops := s.stops[call := s.stops[call].(place := AwaitingLaunch(i))];
            StopsGood(AfterBeginStop(s.manager, i).entries, s.processes, stops) && OneLeader(stops)
  {
    assert EntryGood(s.manager.states, s.manager.entries[i], s.processes, i in s.launches, i);
    var n := AfterBeginStop(s.manager, i);
    forall c <- s.stops
      ensures Invocation(s.stops[c].place) != Some(i) && StopGood(n.entries, s.processes, s.stops[c])
    {
      assert StopGood(s.manager.entries, s.processes, s.stops[c]);
    }
  }

  lemma FinishKeepsInv(s: Machine, call: nat, i: nat, err: bool)
    requires Inv(s) && call in s.stops && s.stops[call].place == Publishing(i, err)
    ensures i in s.manager.entries
    ensures Inv(Move(s, call, Done(Some(i), err)).(manager := AfterFinishStop(s.manager, i, err)))
  {
    assert StopGood(s.manager.entries, s.processes, s.stops[call]);
    FinishKeepsEntries(s, call, i, err);
    FinishKeepsCalls(s, call, i, err);
    MoveKeepsCloses(s.manager, AfterFinishStop(s.manager, i, err), s.stops, call, Done(Some(i), err), s.closes);
  }

  lemma FinishKeepsEntries(s: Machine, call: nat, i: nat, err: bool)
    requires Inv(s) && call in s.stops && s.stops[call].place == Publishing(i, err) && i in s.manager.entries
    ensures var n := AfterFinishStop(s.manager, i, err);
            && StatesGood(n) && EntriesGood(n, s.processes, s.launches)
            && n.entries.Keys == s.manager.entries.Keys
            && ProcessesGood(n.entries, s.processes, s.launches)
  {
    assert StopGood(s.manager.entries, s.processes, s.stops[call]);
    var n := AfterFinishStop(s.manager, i, err);
    forall j <- n.entries
      ensures EntryGood(n.states, n.entries[j], s.processes, j in s.launches, j)
    {
      assert EntryGood(s.manager.states, s.manager.entries[j], s.processes, j in s.launches, j);
    }
    forall p <- s.processes
      ensures ProcessGood(n.entries, s.launches, p, s.processes[p])
    {
      assert ProcessGood(s.manager.entries, s.launches, p, s.processes[p]);
    }
  }

  lemma FinishKeepsCalls(s: Machine, call: nat, i: nat, err: bool)
    requires Inv(s) && call in s.stops && s.stops[call].place == Publishing(i, err) && i in s.manager.entries
    ensures var stops := s.stops[call := s.stops[call].(place := Done(Some(i), err))];
            StopsGood(AfterFinishStop(s.manager, i, err).entries, s.processes, stops) && OneLeader(stops)
  {
    assert StopGood(s.manager.entries, s.processes, s.stops[call]);
    assert EntryGood(s.manager.states, s.manager.entries[i], s.processes, i in s.launches, i);
    var n := AfterFinishStop(s.manager, i, err);
    forall c <- s.stops | c != call
      ensures StopGood(n.entries, s.processes, s.stops[c])
    {
      OtherCallSurvives(s, call, i, err, c);
    }
  }

  /** No other call leads the invocation, so none relies on its stop being under way. */
  lemma OtherCallSurvives(s: Machine, call: nat, i: nat, err: bool, c: nat)
    requires StopsGood(s.manager.entries, s.processes, s.stops) && OneLeader(s.stops)
    requires call in s.stops && s.stops[call].place == Publishing(i, err) && i in s.manager.entries
    requires c in s.stops && c != call
    ensures StopGood(AfterFinishStop(s.manager, i, err).entries, s.processes, s.stops[c])
  {
    assert StopGood(s.manager.entries, s.processes, s.stops[c]);
    assert StopGood(s.manager.entries, s.processes, s.stops[call]);
  }

  lemma CallCloseKeepsInv(s: Machine, close: nat, stops: map<Key, nat>)
    requires Inv(s) && Allowed(s, CallClose(close, stops))
    ensures Inv(AfterCallClose(s, close, stops))
  {
    var t := AfterCallClose(s, close, stops);
    forall c <- s.stops
      ensures c in t.stops && t.stops[c] == s.stops[c]
    {
      assert c !in stops.Values;
    }
    StopsGrowKeepsCloses(s.manager, s.stops, t.stops, s.closes);
    forall key <- stops
      ensures ClosingGood(t.manager.states, t.stops, key, stops[key])
    {
      assert stops[key] in stops.Values;
    }
    assert CloseGood(t.manager.states, t.manager.closed, t.stops, t.closes[close]);
    NewCallsKeepStops(s, t.stops);
  }

  lemma NewCallsKeepStops(s: Machine, more: map<nat, StopCall>)
    requires Inv(s)
    requires forall c <- more :: (c in s.stops && more[c] == s.stops[c]) || more[c].place.Entering?
    ensures StopsGood(s.manager.entries, s.processes, more) && OneLeader(more)
  {
  }

  lemma CloseReturnsKeepsInv(s: Machine, close: nat)
    requires Inv(s) && Allowed(s, CloseReturns(close))
    ensures Inv(AfterClose(s, close))
  {
    assert CloseGood(s.manager.states, s.manager.closed, s.stops, s.closes[close]);
    assert CloseGood(s.manager.states, s.manager.closed, s.stops, AfterClose(s, close).closes[close]);
  }
}
