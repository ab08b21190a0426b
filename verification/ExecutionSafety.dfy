/** What holds in every run of the execution manager. */
module ExecutionSafety {
  import opened Wrappers
  import opened Execution
  import opened ExecutionRuns

  lemma {:induction false} AlwaysGood(states: seq<Machine>, steps: seq<Step>, n: nat)
    requires Run(states, steps) && n < |states|
    ensures Inv(states[n]) && Linked(states[n].manager, states[n].processes)
    decreases n
  {
    if n > 0 {
      AlwaysGood(states, steps, n - 1);
      assert Steps(states[n - 1], steps[n - 1], states[n]);
      StepKeepsInv(states[n - 1], steps[n - 1], states[n]);
    }
    InvIsLinked(states[n]);
  }

  // At most one owner.

  ghost predicate RunsFor(s: Machine, p: nat, key: Key) {
    && p in s.processes && !s.processes[p].done
    && s.processes[p].owner in s.manager.entries
    && s.manager.entries[s.processes[p].owner].key == key
  }

  ghost predicate LaunchesFor(s: Machine, i: nat, key: Key) {
    i in s.launches && i in s.manager.entries && s.manager.entries[i].key == key
  }

  /** The process is live, or is recorded as the invocation's and ended without a result. */
  ghost predicate Occupies(s: Machine, p: nat, key: Key) {
    || RunsFor(s, p, key)
    || (&& p in s.processes && s.processes[p].done && s.processes[p].result.None?
        && s.processes[p].owner in s.manager.entries && s.manager.entries[s.processes[p].owner].key == key
        && s.manager.entries[s.processes[p].owner].process == Some(p))
  }

  /** No launcher of the key is live, and no process of it is live or of unconfirmed exit. */
  ghost predicate Settled(s: Machine, key: Key) {
    && (forall i <- s.launches :: !LaunchesFor(s, i, key))
    && (forall p <- s.processes :: !Occupies(s, p, key))
  }

  lemma LiveIsCurrent(s: Machine, p: nat, key: Key)
    requires Inv(s) && RunsFor(s, p, key)
    ensures key in s.manager.states && s.manager.states[key] == s.processes[p].owner
    ensures var i := s.manager.states[key];
            if i in s.launches then Held(s.launches[i]) == Some(p) else s.manager.entries[i].process == Some(p)
  {
  }

  lemma LaunchIsCurrent(s: Machine, i: nat, key: Key)
    requires Inv(s) && LaunchesFor(s, i, key)
    ensures key in s.manager.states && s.manager.states[key] == i
  {
  }

  lemma OccupantIsCurrent(s: Machine, p: nat, key: Key)
    requires Inv(s) && Occupies(s, p, key)
    ensures key in s.manager.states && s.manager.states[key] == s.processes[p].owner
    ensures var i := s.manager.states[key];
            if i in s.launches then Held(s.launches[i]) == Some(p) else s.manager.entries[i].process == Some(p)
  {
    var i := s.processes[p].owner;
    assert EntryGood(s.manager.states, s.manager.entries[i], s.processes, i in s.launches, i);
    if RunsFor(s, p, key) {
      LiveIsCurrent(s, p, key);
    }
  }

  /** In every reachable state each conversation has at most one process that is live or whose
      exit is unconfirmed, and at most one launcher, and if both the process is the launcher's
      own child. */
  lemma AtMostOneOwner(states: seq<Machine>, steps: seq<Step>, n: nat, key: Key)
    requires Run(states, steps) && n < |states|
    ensures forall p, q :: Occupies(states[n], p, key) && Occupies(states[n], q, key) ==> p == q
    ensures forall i, j :: LaunchesFor(states[n], i, key) && LaunchesFor(states[n], j, key) ==> i == j
    ensures forall i: nat, p: nat :: LaunchesFor(states[n], i, key) && Occupies(states[n], p, key) ==>
                                       Held(states[n].launches[i]) == Some(p)
  {
    AlwaysGood(states, steps, n);
    var s := states[n];
    forall p | Occupies(s, p, key)
      ensures key in s.manager.states && s.manager.states[key] == s.processes[p].owner
      ensures var i := s.manager.states[key];
              if i in s.launches then Held(s.launches[i]) == Some(p) else s.manager.entries[i].process == Some(p)
    {
      OccupantIsCurrent(s, p, key);
    }
    forall i | LaunchesFor(s, i, key)
      ensures key in s.manager.states && s.manager.states[key] == i
    {
      LaunchIsCurrent(s, i, key);
    }
  }

  /** A launch begins exactly when Start is answered so, and then the launcher of the previous
      invocation has returned, its process is absent or confirmed, and nothing else of the
      conversation is live or unconfirmed. */
  lemma LaunchOnlyWhenSettled(states: seq<Machine>, steps: seq<Step>, n: nat, key: Key, canceled: bool, next: nat)
    requires Run(states, steps) && n < |steps| && steps[n] == Start(key, canceled, next)
    requires next in states[n + 1].launches
    ensures next !in states[n].launches && LaunchesFor(states[n + 1], next, key)
    ensures Settled(states[n], key)
    ensures key in states[n].manager.states ==>
              && states[n].manager.states[key] in states[n].manager.entries
              && var e := states[n].manager.entries[states[n].manager.states[key]];
                 && !e.starting
                 && (e.process.Some? ==> e.process.value in states[n].processes)
                 && Confirmed(e.process, states[n].processes)
  {
    AlwaysGood(states, steps, n);
    assert Steps(states[n], steps[n], states[n + 1]);
    var s := states[n];
    assert next !in s.launches;
    SettledIfConfirmed(s, key);
  }

  lemma SettledIfConfirmed(s: Machine, key: Key)
    requires Inv(s) && Linked(s.manager, s.processes)
    requires key in s.manager.states ==>
               && !s.manager.entries[s.manager.states[key]].starting
               && Confirmed(s.manager.entries[s.manager.states[key]].process, s.processes)
    ensures Settled(s, key)
  {
    forall i <- s.launches
      ensures !LaunchesFor(s, i, key)
    {
      if LaunchesFor(s, i, key) {
        LaunchIsCurrent(s, i, key);
      }
    }
    forall p <- s.processes
      ensures !Occupies(s, p, key)
    {
      if Occupies(s, p, key) {
        OccupantIsCurrent(s, p, key);
      }
    }
  }

  // Status and Start.

  /** A stop of the current invocation has begun and not ended. */
  ghost predicate BeingStopped(s: Machine, key: Key)
    requires StatesGood(s.manager)
  {
    key in s.manager.states && s.manager.entries[s.manager.states[key]].stopDone.Open?
  }

  ghost predicate HasLauncher(s: Machine, key: Key) {
    exists i :: LaunchesFor(s, i, key)
  }

  ghost predicate HasProcess(s: Machine, key: Key) {
    exists p :: RunsFor(s, p, key)
  }

  /** A process of the key ended without a result. */
  ghost predicate HasUnconfirmed(s: Machine, key: Key) {
    exists p :: Occupies(s, p, key) && s.processes[p].done
  }

  lemma UnsettledIsOneOf(s: Machine, key: Key)
    ensures !Settled(s, key) <==> HasLauncher(s, key) || HasProcess(s, key) || HasUnconfirmed(s, key)
  {
    if HasProcess(s, key) {
      var p :| RunsFor(s, p, key);
      assert Occupies(s, p, key);
    }
  }

  /** What of a key is going on can be read off its current invocation. */
  lemma CurrentTellsAll(s: Machine, key: Key)
    requires Inv(s) && Linked(s.manager, s.processes)
    ensures key !in s.manager.states ==> !HasLauncher(s, key) && !HasProcess(s, key) && !HasUnconfirmed(s, key)
    ensures key in s.manager.states ==>
              var e := s.manager.entries[s.manager.states[key]];
              && (HasLauncher(s, key) <==> e.starting)
              && (!e.starting ==>
                    (HasProcess(s, key) <==> e.process.Some? && !s.processes[e.process.value].done))
              && (HasUnconfirmed(s, key) <==> Unconfirmed(e.process, s.processes))
  {
    if HasLauncher(s, key) {
      var j :| LaunchesFor(s, j, key);
      LaunchIsCurrent(s, j, key);
      assert EntryGood(s.manager.states, s.manager.entries[j], s.processes, true, j);
    }
    if HasProcess(s, key) {
      var p :| RunsFor(s, p, key);
      LiveIsCurrent(s, p, key);
    }
    if HasUnconfirmed(s, key) {
      var p :| Occupies(s, p, key) && s.processes[p].done;
      OccupantIsCurrent(s, p, key);
    }
    if key in s.manager.states {
      CurrentIsGoingOn(s, key);
    }
  }

  lemma CurrentIsGoingOn(s: Machine, key: Key)
    requires Inv(s) && Linked(s.manager, s.processes) && key in s.manager.states
    ensures var e := s.manager.entries[s.manager.states[key]];
            && (e.starting ==> HasLauncher(s, key))
            && (e.process.Some? && !s.processes[e.process.value].done ==> HasProcess(s, key))
            && (Unconfirmed(e.process, s.processes) ==> HasUnconfirmed(s, key))
  {
    var i := s.manager.states[key];
    var e := s.manager.entries[i];
    assert EntryGood(s.manager.states, e, s.processes, i in s.launches, i);
    if e.starting {
      assert LaunchesFor(s, i, key);
    }
    if e.process.Some? {
      var p := e.process.value;
      assert !s.processes[p].done ==> RunsFor(s, p, key);
      assert Unconfirmed(e.process, s.processes) ==> Occupies(s, p, key);
    }
  }

  /** What Start answers to a live context, exactly: it refuses if the manager is closed, a stop
      is under way, or an exit is unconfirmed; it joins what is launching or running; and it
      launches if and only if the conversation is settled. */
  lemma StartIsExact(states: seq<Machine>, steps: seq<Step>, n: nat, key: Key, next: nat)
    requires Run(states, steps) && n < |states|
    ensures Inv(states[n]) && Linked(states[n].manager, states[n].processes)
    ensures var s, answer := states[n], StartAnswer(states[n].manager, states[n].processes, key, false, next);
            && (answer.Refused? <==> s.manager.closed || BeingStopped(s, key) || HasUnconfirmed(s, key))
            && (!s.manager.closed && !BeingStopped(s, key) ==>
                  && (answer == Launched(next) <==> Settled(s, key))
                  && (answer.Launched? ==> answer == Launched(next))
                  && (forall i :: answer == Joined(i) <==>
                        && key in s.manager.states && s.manager.states[key] == i
                        && (HasLauncher(s, key) || HasProcess(s, key))))
  {
    AlwaysGood(states, steps, n);
    CurrentTellsAll(states[n], key);
    UnsettledIsOneOf(states[n], key);
  }

  /** A Start that finds the conversation settled, the manager open and no stop under way makes
      the new invocation current, with a launcher, and releases the old one; any other Start
      leaves everything as it is. */
  lemma StartTakesEffect(states: seq<Machine>, steps: seq<Step>, n: nat, key: Key, canceled: bool, next: nat)
    requires Run(states, steps) && n < |steps| && steps[n] == Start(key, canceled, next)
    ensures Inv(states[n])
    ensures var s, t := states[n], states[n + 1];
            if !canceled && !s.manager.closed && !BeingStopped(s, key) && Settled(s, key) then
              && t.manager.states == s.manager.states[key := next]
              && t.launches == s.launches[next := Launching(None)]
              && LaunchesFor(t, next, key)
              && (key in s.manager.states ==>
                    s.manager.states[key] in t.manager.entries && t.manager.entries[s.manager.states[key]].canceled)
            else t == s
  {
    StartIsExact(states, steps, n, key, next);
    assert Steps(states[n], steps[n], states[n + 1]);
  }

  /** What Status reports, exactly: the current invocation, and its phase in terms of what is
      going on. An exit code is that of the current invocation's process, and is reported
      until the invocation is stopped. */
  lemma StatusIsExact(states: seq<Machine>, steps: seq<Step>, n: nat, key: Key)
    requires Run(states, steps) && n < |states|
    ensures Inv(states[n]) && Linked(states[n].manager, states[n].processes)
    ensures var s, status := states[n], StatusOf(states[n].manager, states[n].processes, key);
            && status.invocation == (if key in s.manager.states then Some(s.manager.states[key]) else None)
            && (status.phase == Stopping <==> BeingStopped(s, key))
            && (!BeingStopped(s, key) ==>
                  && (status.phase == Starting <==> HasLauncher(s, key))
                  && (status.phase == Running <==> HasProcess(s, key) && !HasLauncher(s, key))
                  && (status.phase == Failed <==> HasUnconfirmed(s, key))
                  && (status.phase in {Stopped, Exited} <==> Settled(s, key)))
            && (status.phase == Exited <==>
                  && Settled(s, key) && key in s.manager.states
                  && var e := s.manager.entries[s.manager.states[key]];
                     e.stopDone.Absent? && e.process.Some?)
            && status.exitCode == if status.phase == Exited then
                                    s.processes[s.manager.entries[s.manager.states[key]].process.value].result
                                  else None
  {
    AlwaysGood(states, steps, n);
    CurrentTellsAll(states[n], key);
    UnsettledIsOneOf(states[n], key);
    if key in states[n].manager.states {
      var i := states[n].manager.states[key];
      assert EntryGood(states[n].manager.states, states[n].manager.entries[i], states[n].processes,
                       i in states[n].launches, i);
    }
  }

  /** Status allows a start exactly when Start with a live context would accept it now. */
  lemma StatusTellsTheTruth(states: seq<Machine>, steps: seq<Step>, n: nat, key: Key, next: nat)
    requires Run(states, steps) && n < |states|
    ensures Linked(states[n].manager, states[n].processes)
    ensures StatusOf(states[n].manager, states[n].processes, key).startAllowed
            <==> !StartAnswer(states[n].manager, states[n].processes, key, false, next).Refused?
  {
    AlwaysGood(states, steps, n);
    StatusAgrees(states[n], key, next);
  }

  lemma StatusAgrees(s: Machine, key: Key, next: nat)
    requires Inv(s) && Linked(s.manager, s.processes)
    ensures StatusOf(s.manager, s.processes, key).startAllowed
            <==> !StartAnswer(s.manager, s.processes, key, false, next).Refused?
  {
    if key in s.manager.states {
      var i := s.manager.states[key];
      assert EntryGood(s.manager.states, s.manager.entries[i], s.processes, i in s.launches, i);
    }
  }

  // Stop and Close.

  /** A Stop call that succeeded and still speaks of the current invocation found everything
      of its key over, and every exit confirmed. */
  lemma StoppedIsSettled(s: Machine, call: nat)
    requires Inv(s) && call in s.stops && s.stops[call].place.Done? && !s.stops[call].place.err
    requires var key, stopped := s.stops[call].key, s.stops[call].place.stopped;
             if key in s.manager.states then stopped == Some(s.manager.states[key]) else stopped.None?
    ensures Settled(s, s.stops[call].key)
  {
    InvIsLinked(s);
    var key := s.stops[call].key;
    assert StopGood(s.manager.entries, s.processes, s.stops[call]);
    if key in s.manager.states {
      var i := s.manager.states[key];
      assert EntryGood(s.manager.states, s.manager.entries[i], s.processes, i in s.launches, i);
    }
    SettledIfConfirmed(s, key);
  }

  /** When Close has returned, in that state and in every later one, nothing runs and nothing
      starts; without an error every process that was ever handed over has a result. */
  lemma CloseLeavesNoOrphan(states: seq<Machine>, steps: seq<Step>, m: nat, n: nat, close: nat, key: Key, next: nat)
    requires Run(states, steps) && m <= n < |states|
    requires close in states[m].closes && states[m].closes[close].outcome.Some?
    ensures states[n].launches == map[]
    ensures forall p <- states[n].processes :: states[n].processes[p].done
    ensures Linked(states[n].manager, states[n].processes)
    ensures StartAnswer(states[n].manager, states[n].processes, key, false, next).Refused?
    ensures states[m].closes[close].outcome == Some(false) ==>
              forall i <- states[n].manager.entries ::
                Confirmed(states[n].manager.entries[i].process, states[n].processes)
  {
    AlwaysGood(states, steps, n);
    ClosedForGood(states, steps, m, n, close);
    var s := states[n];
    assert CloseGood(s.manager.states, s.manager.closed, s.stops, s.closes[close]);
    ClosedIsQuiet(s, close);
    forall i <- s.manager.entries
      ensures s.closes[close].outcome == Some(false) ==> Confirmed(s.manager.entries[i].process, s.processes)
    {
      ClosedEntry(s, close, i);
    }
  }

  lemma {:induction false} ClosedForGood(states: seq<Machine>, steps: seq<Step>, m: nat, n: nat, close: nat)
    requires Run(states, steps) && m <= n < |states|
    requires close in states[m].closes && states[m].closes[close].outcome.Some?
    ensures close in states[n].closes && states[n].closes[close] == states[m].closes[close]
    decreases n
  {
    if m < n {
      ClosedForGood(states, steps, m, n - 1, close);
      assert Steps(states[n - 1], steps[n - 1], states[n]);
      OutcomeStays(states[n - 1], steps[n - 1], states[n], close);
    }
  }

  /** A Close call that has returned stays as it is. */
  lemma OutcomeStays(s: Machine, step: Step, t: Machine, close: nat)
    requires Steps(s, step, t) && close in s.closes && s.closes[close].outcome.Some?
    ensures close in t.closes && t.closes[close] == s.closes[close]
  {
    if step.StopMoves? {
      var _ := StopMovesOneCall(s, step.call);
    }
  }

  lemma CloseStays(s: Machine, step: Step, t: Machine, close: nat)
    requires Steps(s, step, t) && close in s.closes
    ensures close in t.closes
  {
    if step.StopMoves? {
      var _ := StopMovesOneCall(s, step.call);
    }
  }

  lemma ClosedIsQuiet(s: Machine, close: nat)
    requires Inv(s) && Linked(s.manager, s.processes) && close in s.closes && s.closes[close].outcome.Some?
    ensures s.launches == map[]
    ensures forall p <- s.processes :: s.processes[p].done
  {
    forall i <- s.manager.entries
      ensures i !in s.launches
      ensures s.manager.entries[i].process.Some? ==> s.processes[s.manager.entries[i].process.value].done
    {
      ClosedEntry(s, close, i);
    }
    forall p <- s.processes
      ensures s.processes[p].done
    {
      assert ProcessGood(s.manager.entries, s.launches, p, s.processes[p]);
    }
  }

  lemma ClosedEntry(s: Machine, close: nat, i: nat)
    requires Inv(s) && Linked(s.manager, s.processes)
    requires close in s.closes && s.closes[close].outcome.Some? && i in s.manager.entries
    ensures i !in s.launches
    ensures s.manager.entries[i].process.Some? ==> s.processes[s.manager.entries[i].process.value].done
    ensures s.closes[close].outcome == Some(false) ==> Confirmed(s.manager.entries[i].process, s.processes)
  {
    var e, calls := s.manager.entries[i], s.closes[close].stops;
    assert EntryGood(s.manager.states, e, s.processes, i in s.launches, i);
    if s.manager.states[e.key] == i {
      assert CloseGood(s.manager.states, s.manager.closed, s.stops, s.closes[close]);
      var call := calls[e.key];
      assert ClosingGood(s.manager.states, s.stops, e.key, call);
      assert Returns(s.stops, call);
      assert StopGood(s.manager.entries, s.processes, s.stops[call]);
      assert s.closes[close].outcome == Some(false) ==> !Fails(s.stops, call);
    }
  }

  /** Every Stop call that returns for an invocation has canceled it, and tells whether its
      process was confirmed. */
  lemma StopTellsConfirmation(s: Machine, call: nat, i: nat)
    requires Inv(s) && call in s.stops && s.stops[call].place.Done? && s.stops[call].place.stopped == Some(i)
    ensures i in s.manager.entries && Linked(s.manager, s.processes)
    ensures s.manager.entries[i].canceled && !s.manager.entries[i].starting
    ensures s.stops[call].place.err <==> Unconfirmed(s.manager.entries[i].process, s.processes)
  {
  }

  // An unconfirmed exit is final.

  /** The invocation of key is i, and its process p ended without a result. */
  ghost predicate Lost(s: Machine, key: Key, i: nat, p: nat) {
    && key in s.manager.states && s.manager.states[key] == i
    && i in s.manager.entries && s.manager.entries[i].process == Some(p) && !s.manager.entries[i].starting
    && p in s.processes && s.processes[p].done && s.processes[p].result.None?
  }

  /** A Stop call of key, if there is one, stands at this invocation or has found none yet. */
  ghost predicate FindsOnly(s: Machine, call: nat, key: Key, i: nat) {
    call in s.stops ==>
      s.stops[call].key == key ==>
        s.stops[call].place.Entering? || Invocation(s.stops[call].place) == Some(i)
  }

  /** No step forgets an invocation, or the process of one whose launcher was joined. */
  ghost predicate Persists(m: Manager, n: Manager) {
    forall i <- m.entries ::
      && i in n.entries && n.entries[i].key == m.entries[i].key
      && (!m.entries[i].starting ==>
            && !n.entries[i].starting && n.entries[i].process == m.entries[i].process
            && n.entries[i].startErr == m.entries[i].startErr)
  }

  lemma StepPersists(s: Machine, step: Step)
    requires Inv(s) && Linked(s.manager, s.processes) && Allowed(s, step)
    ensures Persists(s.manager, After(s, step).manager)
  {
    match step
    case Start(key, canceled, next) => StartPersists(s, key, canceled, next);
    case Publish(i) => PublishPersists(s, i);
    case StopMoves(call) => var _ := StopMovesOneCall(s, call);
    case Spawn(_, _) =>
    case LaunchReturns(_, _, _) =>
    case ProcessExits(_, _) =>
    case CallStop(_, _) =>
    case CallClose(_, _) =>
    case CloseReturns(_) =>
  }

  lemma StartPersists(s: Machine, key: Key, canceled: bool, next: nat)
    requires Linked(s.manager, s.processes) && Allowed(s, Start(key, canceled, next))
    ensures Persists(s.manager, AfterStart(s, key, canceled, next).manager)
  {
  }

  lemma PublishPersists(s: Machine, i: nat)
    requires Inv(s) && Allowed(s, Publish(i))
    ensures Persists(s.manager, AfterPublication(s, i).manager)
  {
  }

  /** A Stop call that has found no invocation yet finds the current one. */
  ghost function Finds(m: Manager, call: StopCall): Option<nat> {
    if !call.place.Entering? then Invocation(call.place)
    else if call.key in m.states then Some(m.states[call.key])
    else None
  }

  /** A move of a Stop call changes the place of that call and the marks of its invocation. */
  ghost predicate OnlyMoves(s: Machine, call: nat, place: Place, t: Machine) {
    && call in s.stops && t.stops == s.stops[call := s.stops[call].(place := place)]
    && !place.Entering? && Invocation(place) == Finds(s.manager, s.stops[call])
    && t.launches == s.launches && t.processes == s.processes && t.closes == s.closes
    && t.manager.states == s.manager.states && Persists(s.manager, t.manager)
  }

  predicate LeadsAt(place: Place, i: nat) {
    Leads(place) && Invocation(place) == Some(i)
  }

  /** A stop under way after the move was under way before, led by somebody else, or is led by
      the call that moved. Processes stay where they are recorded. */
  ghost predicate MarksMove(entries: map<nat, Entry>, before: Place, after: Place, later: map<nat, Entry>) {
    forall i <- later ::
      && i in entries && later[i].key == entries[i].key && later[i].process == entries[i].process
      && (later[i].stopDone.Open? ==> LeadsAt(after, i) || (entries[i].stopDone.Open? && !LeadsAt(before, i)))
  }

  lemma StopMovesOneCall(s: Machine, call: nat) returns (place: Place)
    requires Linked(s.manager, s.processes) && Allowed(s, StopMoves(call))
    ensures OnlyMoves(s, call, place, AfterMove(s, call))
    ensures MarksMove(s.manager.entries, s.stops[call].place, place, AfterMove(s, call).manager.entries)
  {
    match s.stops[call].place
    case Entering => place := StopEnters(s, call);
    case Joining(i) => place := Done(Some(i), s.manager.entries[i].stopErr);
    case AwaitingLaunch(i) => place := Reading(i);
    case Reading(i) => place := AwaitingExit(i, s.manager.entries[i].process);
    case AwaitingExit(i, process) => place := Publishing(i, Unconfirmed(process, s.processes));
    case Publishing(i, err) => place := Done(Some(i), err);
  }

  lemma StopEnters(s: Machine, call: nat) returns (place: Place)
    requires Linked(s.manager, s.processes) && call in s.stops && s.stops[call].place.Entering?
    ensures OnlyMoves(s, call, place, AfterEntering(s, call))
    ensures MarksMove(s.manager.entries, Entering, place, AfterEntering(s, call).manager.entries)
  {
    match StopAnswer(s.manager, s.stops[call].key)
    case NothingToStop => place := Done(None, false);
    case Join(i) => place := Joining(i);
    case Lead(i) => place := AwaitingLaunch(i);
  }

  lemma StepIsLater(s: Machine, step: Step)
    requires Linked(s.manager, s.processes) && Allowed(s, step)
    ensures Later(s.processes, After(s, step).processes)
  {
  }

  /** While Start is refused, the current invocation stays the current one. */
  lemma StepKeepsCurrent(s: Machine, step: Step, key: Key)
    requires Linked(s.manager, s.processes) && Allowed(s, step) && key in s.manager.states
    requires step.Start? && step.key == key ==>
               !StartAnswer(s.manager, s.processes, key, step.canceled, step.next).Launched?
    ensures key in After(s, step).manager.states
    ensures After(s, step).manager.states[key] == s.manager.states[key]
  {
    match step
    case StopMoves(call) => var _ := StopMovesOneCall(s, call);
    case Start(_, _, _) =>
    case Publish(_) =>
    case Spawn(_, _) =>
    case LaunchReturns(_, _, _) =>
    case ProcessExits(_, _) =>
    case CallStop(_, _) =>
    case CallClose(_, _) =>
    case CloseReturns(_) =>
  }

  /** Start is refused for a lost invocation. */
  lemma LostIsRefused(s: Machine, key: Key, i: nat, p: nat, canceled: bool, next: nat)
    requires Linked(s.manager, s.processes) && Lost(s, key, i, p)
    ensures StartAnswer(s.manager, s.processes, key, canceled, next).Refused?
  {
  }

  lemma StepKeepsLost(s: Machine, step: Step, t: Machine, key: Key, i: nat, p: nat)
    requires Inv(s) && Steps(s, step, t) && Lost(s, key, i, p)
    ensures Lost(t, key, i, p)
  {
    if step.Start? && step.key == key {
      LostIsRefused(s, key, i, p, step.canceled, step.next);
    }
    StepPersists(s, step);
    StepIsLater(s, step);
    StepKeepsCurrent(s, step, key);
    LostStays(s, t, key, i, p);
  }

  lemma LostStays(s: Machine, t: Machine, key: Key, i: nat, p: nat)
    requires Lost(s, key, i, p) && Persists(s.manager, t.manager) && Later(s.processes, t.processes)
    requires key in t.manager.states && t.manager.states[key] == s.manager.states[key]
    ensures Lost(t, key, i, p)
  {
  }

  lemma StepKeepsFinding(s: Machine, step: Step, call: nat, key: Key, i: nat)
    requires Linked(s.manager, s.processes) && Allowed(s, step)
    requires key in s.manager.states && s.manager.states[key] == i && FindsOnly(s, call, key, i)
    ensures FindsOnly(After(s, step), call, key, i)
  {
    match step
    case StopMoves(moving) => MoveKeepsFinding(s, moving, call, key, i);
    case CallClose(_, _) =>
    case CallStop(_, _) =>
    case Start(_, _, _) =>
    case Publish(_) =>
    case Spawn(_, _) =>
    case LaunchReturns(_, _, _) =>
    case ProcessExits(_, _) =>
    case CloseReturns(_) =>
  }

  lemma MoveKeepsFinding(s: Machine, moving: nat, call: nat, key: Key, i: nat)
    requires Linked(s.manager, s.processes) && Allowed(s, StopMoves(moving))
    requires key in s.manager.states && s.manager.states[key] == i && FindsOnly(s, call, key, i)
    ensures FindsOnly(AfterMove(s, moving), call, key, i)
  {
    var _ := StopMovesOneCall(s, moving);
  }

  lemma {:induction false} LostForGood(states: seq<Machine>, steps: seq<Step>, m: nat, n: nat, key: Key, i: nat, p: nat)
    requires Run(states, steps) && m <= n < |states| && Lost(states[m], key, i, p)
    ensures Lost(states[n], key, i, p)
    decreases n
  {
    if m < n {
      LostForGood(states, steps, m, n - 1, key, i, p);
      LostNext(states, steps, n - 1, key, i, p);
    }
  }

  lemma LostNext(states: seq<Machine>, steps: seq<Step>, n: nat, key: Key, i: nat, p: nat)
    requires Run(states, steps) && n < |steps| && Lost(states[n], key, i, p)
    ensures Lost(states[n + 1], key, i, p)
  {
    AlwaysGood(states, steps, n);
    assert Steps(states[n], steps[n], states[n + 1]);
    StepKeepsLost(states[n], steps[n], states[n + 1], key, i, p);
  }

  lemma {:induction false} FindsForGood(states: seq<Machine>, steps: seq<Step>, m: nat, n: nat,
                                        key: Key, i: nat, p: nat, call: nat)
    requires Run(states, steps) && m <= n < |states| && Lost(states[m], key, i, p)
    requires FindsOnly(states[m], call, key, i)
    ensures FindsOnly(states[n], call, key, i)
    decreases n
  {
    if m < n {
      FindsForGood(states, steps, m, n - 1, key, i, p, call);
      LostForGood(states, steps, m, n - 1, key, i, p);
      FindsNext(states, steps, n - 1, key, i, call);
    }
  }

  lemma FindsNext(states: seq<Machine>, steps: seq<Step>, n: nat, key: Key, i: nat, call: nat)
    requires Run(states, steps) && n < |steps| && FindsOnly(states[n], call, key, i)
    requires key in states[n].manager.states && states[n].manager.states[key] == i
    ensures FindsOnly(states[n + 1], call, key, i)
  {
    assert Steps(states[n], steps[n], states[n + 1]);
    StepKeepsFinding(states[n], steps[n], call, key, i);
  }

  /** Once a process has ended without a result, forever after: Start is refused, Status
      allows none, Process resolves that invocation to that process and no other invocation,
      and every Stop call that returns reports an error, whether it was made later or was then
      under way without standing at an earlier invocation. */
  lemma UnconfirmedExitIsAbsorbing(states: seq<Machine>, steps: seq<Step>, m: nat, n: nat, key: Key, i: nat, p: nat,
                                   canceled: bool, next: nat, call: nat)
    requires Run(states, steps) && m <= n < |states| && Lost(states[m], key, i, p)
    ensures Linked(states[n].manager, states[n].processes)
    ensures StartAnswer(states[n].manager, states[n].processes, key, canceled, next).Refused?
    ensures !StatusOf(states[n].manager, states[n].processes, key).startAllowed
    ensures forall j :: ProcessAnswer(states[n].manager, key, j) == if j == i then Some(p) else None
    ensures FindsOnly(states[m], call, key, i) && Returns(states[n].stops, call) && states[n].stops[call].key == key ==>
              Fails(states[n].stops, call)
  {
    AlwaysGood(states, steps, n);
    LostForGood(states, steps, m, n, key, i, p);
    if FindsOnly(states[m], call, key, i) {
      FindsForGood(states, steps, m, n, key, i, p, call);
      if Returns(states[n].stops, call) && states[n].stops[call].key == key {
        StopTellsConfirmation(states[n], call, i);
      }
    }
    StatusAgrees(states[n], key, next);
  }

  // Processes stay with their invocations.

  /** The launcher of i has returned this, and it is on record or about to be. */
  ghost predicate HandedOver(s: Machine, i: nat, process: Option<nat>, failed: bool) {
    || (i in s.launches && s.launches[i] == Returned(process, failed))
    || (i in s.manager.entries && !s.manager.entries[i].starting
        && s.manager.entries[i].process == process && s.manager.entries[i].startErr == failed)
  }

  /** Whatever a launcher returns, with an error or without, running or over, is never lost
      sight of again: it becomes the process of its invocation and stays it. */
  lemma {:induction false} HandedOverForGood(states: seq<Machine>, steps: seq<Step>, m: nat, n: nat,
                                             i: nat, process: Option<nat>, failed: bool)
    requires Run(states, steps) && m < n < |states| && steps[m] == LaunchReturns(i, process, failed)
    ensures HandedOver(states[n], i, process, failed)
    decreases n
  {
    if m + 1 == n {
      assert Steps(states[m], steps[m], states[m + 1]);
    } else {
      HandedOverForGood(states, steps, m, n - 1, i, process, failed);
      AlwaysGood(states, steps, n - 1);
      assert Steps(states[n - 1], steps[n - 1], states[n]);
      StepKeepsHandedOver(states[n - 1], steps[n - 1], states[n], i, process, failed);
    }
  }

  lemma StepKeepsHandedOver(s: Machine, step: Step, t: Machine, i: nat, process: Option<nat>, failed: bool)
    requires Inv(s) && Steps(s, step, t) && HandedOver(s, i, process, failed)
    ensures HandedOver(t, i, process, failed)
  {
    StepPersists(s, step);
    if i in s.launches {
      ReturnedWaits(s, step, t, i);
    }
  }

  /** What a launcher returned waits to be published as it is. */
  lemma ReturnedWaits(s: Machine, step: Step, t: Machine, i: nat)
    requires LaunchesGood(s.manager.entries.Keys, s.processes, s.launches)
    requires Steps(s, step, t) && i in s.launches && s.launches[i].Returned?
    ensures if step == Publish(i) then
              && i in t.manager.entries && !t.manager.entries[i].starting
              && t.manager.entries[i].process == s.launches[i].process
              && t.manager.entries[i].startErr == s.launches[i].failed
            else i in t.launches && t.launches[i] == s.launches[i]
  {
    match step
    case StopMoves(call) => var _ := StopMovesOneCall(s, call);
    case Start(_, _, _) =>
    case Publish(_) =>
    case Spawn(_, _) =>
    case LaunchReturns(_, _, _) =>
    case ProcessExits(_, _) =>
    case CallStop(_, _) =>
    case CallClose(_, _) =>
    case CloseReturns(_) =>
  }

  /** A live process that was handed over is found under the invocation it was launched for,
      and what is found under an invocation was launched for it. */
  lemma LiveIsResolved(states: seq<Machine>, steps: seq<Step>, n: nat, key: Key, i: nat, p: nat)
    requires Run(states, steps) && n < |states|
    ensures Linked(states[n].manager, states[n].processes)
    ensures RunsFor(states[n], p, key) && states[n].processes[p].owner !in states[n].launches ==>
              ProcessAnswer(states[n].manager, key, states[n].processes[p].owner) == Some(p)
    ensures ProcessAnswer(states[n].manager, key, i) == Some(p) ==>
              && p in states[n].processes && states[n].processes[p].owner == i
              && i in states[n].manager.entries && states[n].manager.entries[i].key == key
  {
    AlwaysGood(states, steps, n);
    var s := states[n];
    if RunsFor(s, p, key) {
      LiveIsCurrent(s, p, key);
    }
    if ProcessAnswer(s.manager, key, i) == Some(p) {
      assert EntryGood(s.manager.states, s.manager.entries[i], s.processes, i in s.launches, i);
    }
  }

  // Attachments are never redirected.

  lemma {:induction false} ProcessStaysRecorded(states: seq<Machine>, steps: seq<Step>, m: nat, n: nat, i: nat, p: nat)
    requires Run(states, steps) && m <= n < |states|
    requires i in states[m].manager.entries && states[m].manager.entries[i].process == Some(p)
    ensures i in states[n].manager.entries && states[n].manager.entries[i].process == Some(p)
    decreases n
  {
    if m < n {
      ProcessStaysRecorded(states, steps, m, n - 1, i, p);
      RecordedNext(states, steps, n - 1, i, p);
    }
  }

  lemma RecordedNext(states: seq<Machine>, steps: seq<Step>, n: nat, i: nat, p: nat)
    requires Run(states, steps) && n < |steps|
    requires i in states[n].manager.entries && states[n].manager.entries[i].process == Some(p)
    ensures i in states[n + 1].manager.entries && states[n + 1].manager.entries[i].process == Some(p)
  {
    AlwaysGood(states, steps, n);
    var s := states[n];
    assert Steps(s, steps[n], states[n + 1]);
    StepPersists(s, steps[n]);
    assert EntryGood(s.manager.states, s.manager.entries[i], s.processes, i in s.launches, i);
  }

  /** An invocation that once resolved to a process never resolves to another one. */
  lemma NeverRedirected(states: seq<Machine>, steps: seq<Step>, m: nat, n: nat, key: Key, i: nat, p: nat)
    requires Run(states, steps) && m <= n < |states|
    requires Linked(states[m].manager, states[m].processes) && ProcessAnswer(states[m].manager, key, i) == Some(p)
    ensures Linked(states[n].manager, states[n].processes)
    ensures ProcessAnswer(states[n].manager, key, i) in {None, Some(p)}
  {
    AlwaysGood(states, steps, n);
    ProcessStaysRecorded(states, steps, m, n, i, p);
  }

  // Cancellation.

  /** The context of an invocation is over exactly if a later one took its place, a stop of it
      has begun, or its launcher failed. */
  ghost predicate CanceledWith(states: map<Key, nat>, e: Entry, i: nat) {
    && (e.canceled <==> (e.key in states && states[e.key] != i) || !e.stopDone.Absent? || e.startErr)
    && (e.starting ==> !e.startErr)
  }

  ghost predicate CanceledExactly(m: Manager) {
    forall i <- m.entries :: CanceledWith(m.states, m.entries[i], i)
  }

  lemma LaunchKeepsCanceled(s: Machine, key: Key, canceled: bool, next: nat)
    requires Inv(s) && Linked(s.manager, s.processes) && Allowed(s, Start(key, canceled, next))
    requires CanceledExactly(s.manager)
    ensures CanceledExactly(AfterStart(s, key, canceled, next).manager)
  {
    forall i <- s.manager.entries
      ensures s.manager.entries[i].key in s.manager.states
    {
      assert EntryGood(s.manager.states, s.manager.entries[i], s.processes, i in s.launches, i);
    }
  }

  lemma PublishKeepsCanceled(s: Machine, i: nat)
    requires Linked(s.manager, s.processes) && Allowed(s, Publish(i)) && i in s.manager.entries
    requires CanceledExactly(s.manager) && s.manager.entries[i].starting
    ensures CanceledExactly(AfterPublication(s, i).manager)
  {
  }

  lemma MoveKeepsCanceled(s: Machine, call: nat)
    requires Linked(s.manager, s.processes) && Allowed(s, StopMoves(call)) && CanceledExactly(s.manager)
    requires StopsGood(s.manager.entries, s.processes, s.stops)
    ensures CanceledExactly(AfterMove(s, call).manager)
  {
    assert StopGood(s.manager.entries, s.processes, s.stops[call]);
  }

  lemma StepKeepsCanceled(s: Machine, step: Step, t: Machine)
    requires Inv(s) && Steps(s, step, t) && CanceledExactly(s.manager)
    ensures CanceledExactly(t.manager)
  {
    match step
    case Start(key, canceled, next) => LaunchKeepsCanceled(s, key, canceled, next);
    case Publish(i) =>
      assert EntryGood(s.manager.states, s.manager.entries[i], s.processes, i in s.launches, i);
      PublishKeepsCanceled(s, i);
    case StopMoves(call) => MoveKeepsCanceled(s, call);
    case Spawn(_, _) =>
    case LaunchReturns(_, _, _) =>
    case ProcessExits(_, _) =>
    case CallStop(_, _) =>
    case CallClose(_, _) =>
    case CloseReturns(_) =>
  }

  /** The context of an invocation, which its wrapper runs under, is over exactly if a later
      invocation took its place, a stop of it has begun, or its launcher failed: what is launched
      and not stopped is never cut short. */
  lemma {:induction false} CanceledOnlyWhenOver(states: seq<Machine>, steps: seq<Step>, n: nat)
    requires Run(states, steps) && n < |states|
    ensures CanceledExactly(states[n].manager)
    decreases n
  {
    if n > 0 {
      CanceledOnlyWhenOver(states, steps, n - 1);
      CanceledNext(states, steps, n - 1);
    }
  }

  lemma CanceledNext(states: seq<Machine>, steps: seq<Step>, n: nat)
    requires Run(states, steps) && n < |steps| && CanceledExactly(states[n].manager)
    ensures CanceledExactly(states[n + 1].manager)
  {
    AlwaysGood(states, steps, n);
    assert Steps(states[n], steps[n], states[n + 1]);
    StepKeepsCanceled(states[n], steps[n], states[n + 1]);
  }
}
