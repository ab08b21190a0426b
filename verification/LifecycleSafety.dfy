/** Deleting a project excludes running it: the invariant of the handlers over the project
    manager and the execution manager, and every step keeps it. */
module LifecycleSafety {
  import opened Wrappers
  import opened ProjectIds
  import P = Projects
  import PR = ProjectRuns
  import PS = ProjectSafety
  import PG = ProjectGuarantees
  import E = Execution
  import ER = ExecutionRuns
  import ES = ExecutionSafety
  import opened Lifecycle

  // Keys.

  lemma NoColonInKeyBefore(p: P.Project)
    requires ValidId(p.id)
    ensures forall i :: 0 <= i < |p.id| ==> Key(p)[i] != ':'
    ensures Key(p)[|p.id|] == ':' && Key(p)[..|p.id|] == p.id && Key(p)[|p.id| + 1..] == p.token
  {
    ValidIdHasNoColon(p.id);
    forall i | 0 <= i < |p.id|
      ensures Key(p)[i] == p.id[i]
    {
    }
  }

  /** Keys of valid IDs are equal only for the same ID and token. */
  lemma KeysAreInjective(p: P.Project, q: P.Project)
    requires ValidId(p.id) && ValidId(q.id) && Key(p) == Key(q)
    ensures p.id == q.id && p.token == q.token
  {
    NoColonInKeyBefore(p);
    NoColonInKeyBefore(q);
    assert |p.id| == |q.id|;
  }

  // The parts as machines of their own.

  /** What a step of the server is to the project manager. */
  function Change(s: Server, step: Step): Option<PR.Step>
    requires step.Acquire? || step.StopReturned? ==> step.h in s.handlers
  {
    match step
    case Acquire(h) =>
      if s.handlers[h].RenameWaiting? then
        Some(PR.BeginRename(h, s.handlers[h].id, s.handlers[h].name, s.handlers[h].version))
      else None
    case StopReturned(h) =>
      if s.handlers[h].Stopping? && !ER.Fails(s.machine.stops, s.handlers[h].call) then
        Some(PR.BeginDelete(h, s.handlers[h].p))
      else None
    case Project(change) => Some(change)
    case _ => None
  }

  /** What a step of the server is to the execution manager. */
  function Motion(s: Server, step: Step): Option<ER.Step>
    requires step.StartConversation? ==> step.h in s.handlers && s.handlers[step.h].Starting?
    requires step.LookToDelete? ==> step.h in s.handlers && s.handlers[step.h].DeleteLooking?
  {
    match step
    case StartConversation(h, unavailable, canceled, next) =>
      if unavailable then None else Some(ER.Start(Key(s.handlers[h].p), canceled, next))
    case LookToDelete(h, fault, call) =>
      var id := s.handlers[h].id;
      if fault != P.Works || id !in s.workspace.rows || s.workspace.rows[id].state in {P.Creating, P.Deleting} then None
      else Some(ER.CallStop(call, Key(s.workspace.rows[id])))
    case Execution(move) => Some(move)
    case _ => None
  }

  // The invariant.

  /** Everything live or of unconfirmed exit belongs to a ready project. */
  ghost predicate OccupiedIsBacked(machine: ER.Machine, rows: P.Rows) {
    forall key: string :: !ES.Settled(machine, key) ==> Backed(rows, key)
  }

  ghost predicate Backed(rows: P.Rows, key: string) {
    exists id :: id in rows && rows[id].state == P.Ready && Key(rows[id]) == key
  }

  /** A handler holds the lock of its ID from acquiring it until it leaves, and nobody else
      holds a lock. */
  ghost predicate LocksHeld(handlers: map<nat, Handler>, locks: map<string, nat>) {
    && (forall h <- handlers ::
          Locked(handlers[h]).Some? ==>
            Locked(handlers[h]).value in locks && locks[Locked(handlers[h]).value] == h)
    && (forall id <- locks :: locks[id] in handlers && Locked(handlers[locks[id]]) == Some(id))
  }

  /** The Stop call concerns the current invocation of its key, if it has found any. */
  ghost predicate StopsCurrent(machine: ER.Machine, call: nat, key: string) {
    && call in machine.stops && machine.stops[call].key == key
    && (machine.stops[call].place.Entering? ||
        ER.Invocation(machine.stops[call].place)
        == if key in machine.manager.states then Some(machine.manager.states[key]) else None)
  }

  predicate IsDelete(call: PR.Call) {
    call.Claiming? || call.Removing? || call.Erasing? || call.Reporting?
  }

  /** The call is one of Delete for this generation, or is over. */
  predicate DeletesFor(call: PR.Call, p: P.Project) {
    match call
    case Claiming(expected) => expected == p
    case Removing(d) => d.id == p.id && d.token == p.token
    case Erasing(d) => d.id == p.id && d.token == p.token
    case Reporting(d) => d.id == p.id && d.token == p.token
    case Finished(_) => true
    case _ => false
  }

  ghost predicate ReadyRow(rows: P.Rows, p: P.Project) {
    p.id in rows && rows[p.id].id == p.id && rows[p.id].token == p.token && rows[p.id].state == P.Ready
  }

  predicate Deletes(handler: Handler) {
    handler.Stopping? || handler.Deleting?
  }

  ghost predicate HandlerGood(handler: Handler, h: nat, workspace: PR.Workspace, machine: ER.Machine) {
    && (handler.Starting? || Deletes(handler) ==> handler.p.id == handler.id && ValidId(handler.id))
    && (handler.Starting? ==> ReadyRow(workspace.rows, handler.p))
    && (handler.Stopping? ==> handler.p in workspace.log && StopsCurrent(machine, handler.call, Key(handler.p)))
    && (if handler.Deleting? then
          ES.Settled(machine, Key(handler.p)) && h in workspace.calls && DeletesFor(workspace.calls[h], handler.p)
        else handler.Renaming? || handler.Over? || h !in workspace.calls)
  }

  ghost predicate HandlersGood(handlers: map<nat, Handler>, workspace: PR.Workspace, machine: ER.Machine) {
    forall h <- handlers :: HandlerGood(handlers[h], h, workspace, machine)
  }

  /** Only a handler that has stopped the project deletes it. */
  ghost predicate DeletesHandled(handlers: map<nat, Handler>, calls: map<nat, PR.Call>) {
    forall c <- calls :: IsDelete(calls[c]) ==> c in handlers && handlers[c].Deleting?
  }

  ghost predicate Inv(s: Server) {
    && PR.Inv(s.workspace)
    && ER.Inv(s.machine)
    && OccupiedIsBacked(s.machine, s.workspace.rows)
    && LocksHeld(s.handlers, s.locks)
    && HandlersGood(s.handlers, s.workspace, s.machine)
    && DeletesHandled(s.handlers, s.workspace.calls)
  }

  lemma InvIsLinked(s: Server)
    requires Inv(s)
    ensures E.Linked(s.machine.manager, s.machine.processes)
  {
  }

  // Each part takes steps of its own.

  lemma WorkspaceSteps(s: Server, step: Step)
    requires Inv(s) && E.Linked(s.machine.manager, s.machine.processes) && Allowed(s, step)
    ensures Change(s, step).None? ==> After(s, step).workspace == s.workspace
    ensures Change(s, step).Some? ==> PR.Steps(s.workspace, Change(s, step).value, After(s, step).workspace)
  {
    match step
    case Acquire(h) => assert HandlerGood(s.handlers[h], h, s.workspace, s.machine);
    case StopReturned(h) => assert HandlerGood(s.handlers[h], h, s.workspace, s.machine);
    case Project(_) =>
    case Arrive(_, _) =>
    case LookToStart(_, _) =>
    case StartConversation(_, _, _, _) =>
    case LookToDelete(_, _, _) =>
    case CallReturned(_) =>
    case Execution(_) =>
  }

  lemma MachineSteps(s: Server, step: Step)
    requires E.Linked(s.machine.manager, s.machine.processes) && Allowed(s, step)
    ensures Motion(s, step).None? ==> After(s, step).machine == s.machine
    ensures Motion(s, step).Some? ==> ER.Steps(s.machine, Motion(s, step).value, After(s, step).machine)
  {
  }

  // What the execution manager's steps leave alone.

  predicate Starts(step: ER.Step, key: string) {
    step.Start? && step.key == key
  }

  /** The only new launcher is the one of a Start. */
  ghost predicate LaunchersGrow(launches: map<nat, ER.Launch>, step: ER.Step, n: ER.Machine) {
    forall i <- n.launches ::
      i in launches || (step.Start? && i in n.manager.entries && n.manager.entries[i].key == step.key)
  }

  /** The only new invocation is the one of a Start. */
  ghost predicate EntriesGrow(entries: map<nat, E.Entry>, step: ER.Step, more: map<nat, E.Entry>) {
    forall i <- more :: i in entries || (step.Start? && more[i].key == step.key)
  }

  /** A new process belongs to a launcher. */
  ghost predicate ProcessesGrow(m: ER.Machine, processes: map<nat, E.Process>) {
    forall p <- processes :: p in m.processes || processes[p].owner in m.launches
  }

  /** What a step may add. */
  ghost predicate Grows(m: ER.Machine, step: ER.Step, n: ER.Machine) {
    && LaunchersGrow(m.launches, step, n)
    && EntriesGrow(m.manager.entries, step, n.manager.entries)
    && ProcessesGrow(m, n.processes)
  }

  lemma StepGrows(m: ER.Machine, step: ER.Step, n: ER.Machine)
    requires ER.Steps(m, step, n)
    ensures Grows(m, step, n)
  {
    match step
    case StopMoves(moving) => StopGrowsNothing(m, moving);
    case Start(_, _, _) =>
    case CallClose(_, _) =>
    case CallStop(_, _) =>
    case Publish(_) =>
    case Spawn(_, _) =>
    case LaunchReturns(_, _, _) =>
    case ProcessExits(_, _) =>
    case CloseReturns(_) =>
  }

  lemma StopGrowsNothing(m: ER.Machine, moving: nat)
    requires E.Linked(m.manager, m.processes) && ER.Allowed(m, ER.StopMoves(moving))
    ensures Grows(m, ER.StopMoves(moving), ER.AfterMove(m, moving))
  {
    var _ := ES.StopMovesOneCall(m, moving);
  }

  /** A settled key stays settled until it is started: invocations and processes keep their
      keys, launched ones excepted no process is recorded anew, and none loses its result. */
  lemma SettledStays(m: ER.Machine, step: ER.Step, n: ER.Machine, key: string)
    requires ER.Inv(m) && ER.Steps(m, step, n) && ES.Settled(m, key) && !Starts(step, key)
    ensures ES.Settled(n, key)
  {
    ES.StepPersists(m, step);
    ES.StepIsLater(m, step);
    StepGrows(m, step, n);
    forall i <- n.launches
      ensures !ES.LaunchesFor(n, i, key)
    {
      assert i in m.launches ==> !ES.LaunchesFor(m, i, key);
    }
    forall p <- n.processes
      ensures !ES.Occupies(n, p, key)
    {
      OccupantsStayAway(m, step, n, key, p);
    }
  }

  lemma OccupantsStayAway(m: ER.Machine, step: ER.Step, n: ER.Machine, key: string, p: nat)
    requires ER.EntriesGood(m.manager, m.processes, m.launches)
    requires ER.LaunchesGood(m.manager.entries.Keys, m.processes, m.launches)
    requires ER.ProcessesGood(m.manager.entries, m.processes, m.launches)
    requires ES.Persists(m.manager, n.manager) && ER.Later(m.processes, n.processes) && Grows(m, step, n)
    requires ES.Settled(m, key) && !Starts(step, key) && p in n.processes
    ensures !ES.Occupies(n, p, key)
  {
    var i := n.processes[p].owner;
    if i in m.manager.entries {
      assert ER.EntryGood(m.manager.states, m.manager.entries[i], m.processes, i in m.launches, i);
      assert i in m.launches ==> !ES.LaunchesFor(m, i, key);
    }
    if p in m.processes {
      assert ER.ProcessGood(m.manager.entries, m.launches, p, m.processes[p]);
      assert !ES.Occupies(m, p, key);
    }
  }

  lemma StopsCurrentStays(m: ER.Machine, step: ER.Step, n: ER.Machine, call: nat, key: string)
    requires ER.Steps(m, step, n) && StopsCurrent(m, call, key) && !Starts(step, key)
    ensures StopsCurrent(n, call, key)
  {
    match step
    case StopMoves(moving) => MoveKeepsStopsCurrent(m, moving, call, key);
    case Start(_, _, _) =>
    case CallClose(_, _) =>
    case CallStop(_, _) =>
    case Publish(_) =>
    case Spawn(_, _) =>
    case LaunchReturns(_, _, _) =>
    case ProcessExits(_, _) =>
    case CloseReturns(_) =>
  }

  lemma MoveKeepsStopsCurrent(m: ER.Machine, moving: nat, call: nat, key: string)
    requires E.Linked(m.manager, m.processes) && ER.Allowed(m, ER.StopMoves(moving)) && StopsCurrent(m, call, key)
    ensures StopsCurrent(ER.AfterMove(m, moving), call, key)
  {
    var _ := ES.StopMovesOneCall(m, moving);
  }

  // What the project manager's steps leave alone.

  /** The step is the conditional update with which Delete claims a row of id. */
  predicate Claims(w: PR.Workspace, step: PR.Step, id: string) {
    step.Advance? && step.c in w.calls && w.calls[step.c].Claiming? && w.calls[step.c].expected.id == id
  }

  /** The stored rows after the next statement of a call. */
  function Stores(rows: P.Rows, call: PR.Call, luck: PR.Luck): P.Rows
    requires PR.Fits(call, luck)
  {
    match call
    case Inserting(p) => P.AfterInsert(rows, p, luck.fault)
    case Completing(p) => P.AfterUpdate(rows, p, p.(state := P.Ready), luck.fault)
    case Releasing(p) => P.AfterDelete(rows, p, luck.fault)
    case Claiming(expected) =>
      if expected.state in {P.Ready, P.Failed, P.DeleteFailed} then
        P.AfterUpdate(rows, expected, PR.Claimed(expected), luck.fault)
      else rows
    case Erasing(d) => P.AfterDelete(rows, d, luck.fault)
    case Reporting(d) =>
      P.AfterUpdate(rows, d, d.(state := P.DeleteFailed, error := PR.DELETION_FAILED), luck.fault)
    case Renaming(p, next) => P.AfterUpdate(rows, p, next, luck.fault)
    case _ => rows
  }

  lemma AdvanceStores(w: PR.Workspace, c: nat, luck: PR.Luck)
    requires c in w.calls && PR.Fits(w.calls[c], luck)
    ensures PR.AfterAdvance(w, c, luck).rows == Stores(w.rows, w.calls[c], luck)
  {
  }

  /** Ready rows stay ready, of the same generation, until Delete claims them. */
  lemma ReadyStays(w: PR.Workspace, step: PR.Step, v: PR.Workspace, p: P.Project)
    requires PR.Inv(w) && PR.Steps(w, step, v) && ReadyRow(w.rows, p) && !Claims(w, step, p.id)
    ensures ReadyRow(v.rows, p)
  {
    if step.Advance? {
      assert PR.CallGood(w, w.calls[step.c]);
      AdvanceStores(w, step.c, step.luck);
    }
  }

  /** Claiming another generation does nothing to this one. */
  lemma OtherClaimKeepsReady(w: PR.Workspace, step: PR.Step, v: PR.Workspace, p: P.Project)
    requires PR.Inv(w) && PR.Steps(w, step, v) && ReadyRow(w.rows, p) && Claims(w, step, p.id)
    requires w.calls[step.c].expected.token != p.token
    ensures ReadyRow(v.rows, p)
  {
  }

  lemma DeleteContinues(w: PR.Workspace, step: PR.Step, v: PR.Workspace, c: nat, p: P.Project)
    requires PR.Inv(w) && PR.Steps(w, step, v) && c in w.calls && DeletesFor(w.calls[c], p)
    ensures c in v.calls && DeletesFor(v.calls[c], p)
  {
    if step.Advance? && step.c == c {
      DeleteAdvances(w, c, step.luck, p);
    } else {
      OthersStand(w, step, v, c);
    }
  }

  lemma OthersStand(w: PR.Workspace, step: PR.Step, v: PR.Workspace, c: nat)
    requires PR.Steps(w, step, v) && c != step.c
    ensures c in w.calls <==> c in v.calls
    ensures c in w.calls ==> v.calls[c] == w.calls[c]
  {
  }

  lemma DeleteAdvances(w: PR.Workspace, c: nat, luck: PR.Luck, p: P.Project)
    requires PR.RowsGood(w.rows, w.log) && c in w.calls && PR.Fits(w.calls[c], luck) && DeletesFor(w.calls[c], p)
    ensures c in PR.AfterAdvance(w, c, luck).calls && DeletesFor(PR.AfterAdvance(w, c, luck).calls[c], p)
  {
  }

  lemma AdvanceBeginsNoDelete(w: PR.Workspace, c: nat, luck: PR.Luck)
    requires c in w.calls && PR.Fits(w.calls[c], luck)
    ensures c in PR.AfterAdvance(w, c, luck).calls
    ensures IsDelete(PR.AfterAdvance(w, c, luck).calls[c]) ==> IsDelete(w.calls[c])
  {
  }

  lemma NothingBecomesDelete(w: PR.Workspace, step: PR.Step, v: PR.Workspace, c: nat)
    requires PR.Steps(w, step, v) && c in v.calls && IsDelete(v.calls[c])
    ensures (c in w.calls && IsDelete(w.calls[c])) || (step.BeginDelete? && step.c == c)
  {
    if step.c != c {
      OthersStand(w, step, v, c);
    } else if step.Advance? {
      AdvanceBeginsNoDelete(w, c, step.luck);
    }
  }

  // A step of one part keeps what the handlers rely on.

  /** The handler that takes part in a step of the project manager, if it begins a call. */
  predicate Begins(change: PR.Step, h: nat) {
    !change.Advance? && change.c == h
  }

  /** A handler that deletes holds the lock, so no other handler uses that ID meanwhile. */
  lemma ClaimantIsHandler(s: Server, change: PR.Step, id: string)
    requires Inv(s) && Claims(s.workspace, change, id)
    ensures change.c in s.handlers && s.handlers[change.c].Deleting? && s.handlers[change.c].id == id
    ensures s.workspace.calls[change.c].expected == s.handlers[change.c].p
    ensures ES.Settled(s.machine, Key(s.handlers[change.c].p))
    ensures id in s.locks && s.locks[id] == change.c
  {
  }

  lemma ChangeKeepsHandler(s: Server, change: PR.Step, v: PR.Workspace, h: nat)
    requires Inv(s) && PR.Steps(s.workspace, change, v) && h in s.handlers && !Begins(change, h)
    ensures HandlerGood(s.handlers[h], h, v, s.machine)
  {
    var handler := s.handlers[h];
    assert HandlerGood(handler, h, s.workspace, s.machine);
    if handler.Starting? {
      if Claims(s.workspace, change, handler.id) {
        ClaimantIsHandler(s, change, handler.id);
      }
      ReadyStays(s.workspace, change, v, handler.p);
    }
    if handler.Stopping? {
      PG.StepKeepsLog(s.workspace, change, v);
    }
    if handler.Deleting? {
      DeleteContinues(s.workspace, change, v, h, handler.p);
    } else if h !in s.workspace.calls {
      OthersStand(s.workspace, change, v, h);
    }
  }

  lemma ChangeKeepsBacked(s: Server, change: PR.Step, v: PR.Workspace)
    requires Inv(s) && PR.Steps(s.workspace, change, v)
    ensures OccupiedIsBacked(s.machine, v.rows)
  {
    forall key: string | !ES.Settled(s.machine, key)
      ensures Backed(v.rows, key)
    {
      var id :| id in s.workspace.rows && s.workspace.rows[id].state == P.Ready && Key(s.workspace.rows[id]) == key;
      var row := s.workspace.rows[id];
      assert row.id == id;
      if Claims(s.workspace, change, id) {
        ClaimantIsHandler(s, change, id);
        OtherClaimKeepsReady(s.workspace, change, v, row);
      } else {
        ReadyStays(s.workspace, change, v, row);
      }
      assert Key(v.rows[id]) == key;
    }
  }

  lemma ChangeKeepsDeletesHandled(s: Server, change: PR.Step, v: PR.Workspace, handlers: map<nat, Handler>)
    requires DeletesHandled(s.handlers, s.workspace.calls) && PR.Steps(s.workspace, change, v)
    requires forall h <- s.handlers :: s.handlers[h].Deleting? ==> h in handlers && handlers[h].Deleting?
    requires change.BeginDelete? ==> change.c in handlers && handlers[change.c].Deleting?
    ensures DeletesHandled(handlers, v.calls)
  {
    forall c <- v.calls | IsDelete(v.calls[c])
      ensures c in handlers && handlers[c].Deleting?
    {
      NothingBecomesDelete(s.workspace, change, v, c);
    }
  }

  /** While a handler stops or deletes a project nothing starts under its key. */
  lemma StartIsExclusive(s: Server, starting: nat, deleting: nat)
    requires Inv(s) && starting in s.handlers && deleting in s.handlers
    requires s.handlers[starting].Starting? && Deletes(s.handlers[deleting])
    ensures Key(s.handlers[starting].p) != Key(s.handlers[deleting].p)
  {
    assert HandlerGood(s.handlers[starting], starting, s.workspace, s.machine);
    assert HandlerGood(s.handlers[deleting], deleting, s.workspace, s.machine);
    if Key(s.handlers[starting].p) == Key(s.handlers[deleting].p) {
      KeysAreInjective(s.handlers[starting].p, s.handlers[deleting].p);
    }
  }

  /** A start is the work of a handler that found the project ready. */
  ghost predicate StartedBy(s: Server, move: ER.Step, h: nat) {
    move.Start? ==> h in s.handlers && s.handlers[h].Starting? && move.key == Key(s.handlers[h].p)
  }

  lemma MoveKeepsHandler(s: Server, move: ER.Step, n: ER.Machine, h: nat, starting: nat)
    requires Inv(s) && ER.Steps(s.machine, move, n) && h in s.handlers && StartedBy(s, move, starting)
    ensures HandlerGood(s.handlers[h], h, s.workspace, n)
  {
    var handler := s.handlers[h];
    assert HandlerGood(handler, h, s.workspace, s.machine);
    if Deletes(handler) {
      if move.Start? {
        StartIsExclusive(s, starting, h);
      }
      if handler.Stopping? {
        StopsCurrentStays(s.machine, move, n, handler.call, Key(handler.p));
      } else {
        SettledStays(s.machine, move, n, Key(handler.p));
      }
    }
  }

  lemma MoveKeepsBacked(s: Server, move: ER.Step, n: ER.Machine, starting: nat)
    requires Inv(s) && ER.Steps(s.machine, move, n) && StartedBy(s, move, starting)
    ensures OccupiedIsBacked(n, s.workspace.rows)
  {
    forall key: string | !ES.Settled(n, key)
      ensures Backed(s.workspace.rows, key)
    {
      if Starts(move, key) {
        assert HandlerGood(s.handlers[starting], starting, s.workspace, s.machine);
        assert Key(s.workspace.rows[s.handlers[starting].id]) == key;
      } else if ES.Settled(s.machine, key) {
        SettledStays(s.machine, move, n, key);
      }
    }
  }

  // Every step keeps the invariant.

  predicate Acts(step: Step, h: nat) {
    !step.Project? && !step.Execution? && step.h == h
  }

  lemma ChangeKeepsParts(s: Server, step: Step, t: Server)
    requires Inv(s) && Steps(s, step, t)
    ensures PR.Inv(t.workspace)
    ensures Motion(s, step).None? ==> OccupiedIsBacked(t.machine, t.workspace.rows)
    ensures Motion(s, step).None? ==>
              forall g <- s.handlers :: !Acts(step, g) ==> HandlerGood(s.handlers[g], g, t.workspace, t.machine)
  {
    WorkspaceSteps(s, step);
    MachineSteps(s, step);
    if Change(s, step).Some? {
      var change := Change(s, step).value;
      PS.StepKeepsInv(s.workspace, change, t.workspace);
      ChangeKeepsBacked(s, change, t.workspace);
      forall g <- s.handlers | !Acts(step, g)
        ensures HandlerGood(s.handlers[g], g, t.workspace, s.machine)
      {
        ChangeKeepsHandler(s, change, t.workspace, g);
      }
    }
  }

  lemma MoveKeepsParts(s: Server, step: Step, t: Server)
    requires Inv(s) && Steps(s, step, t) && Motion(s, step).Some?
    ensures ER.Inv(t.machine) && OccupiedIsBacked(t.machine, t.workspace.rows)
    ensures forall g <- s.handlers :: HandlerGood(s.handlers[g], g, t.workspace, t.machine)
  {
    WorkspaceSteps(s, step);
    MachineSteps(s, step);
    var move := Motion(s, step).value;
    var starting := if step.StartConversation? then step.h else 0;
    ER.StepKeepsInv(s.machine, move, t.machine);
    MoveKeepsBacked(s, move, t.machine, starting);
    forall g <- s.handlers
      ensures HandlerGood(s.handlers[g], g, s.workspace, t.machine)
    {
      MoveKeepsHandler(s, move, t.machine, g, starting);
    }
  }

  lemma StepKeepsParts(s: Server, step: Step, t: Server)
    requires Inv(s) && Steps(s, step, t)
    ensures PR.Inv(t.workspace) && ER.Inv(t.machine) && OccupiedIsBacked(t.machine, t.workspace.rows)
    ensures forall g <- s.handlers :: !Acts(step, g) ==> HandlerGood(s.handlers[g], g, t.workspace, t.machine)
  {
    ChangeKeepsParts(s, step, t);
    if Motion(s, step).Some? {
      MoveKeepsParts(s, step, t);
    } else {
      MachineSteps(s, step);
    }
  }

  lemma LeaveKeepsLocks(s: Server, h: nat)
    requires LocksHeld(s.handlers, s.locks) && h in s.handlers
    ensures LocksHeld(Leave(s, h).handlers, Leave(s, h).locks)
  {
  }

  lemma AcquireKeepsLocks(s: Server, h: nat)
    requires LocksHeld(s.handlers, s.locks) && Allowed(s, Acquire(h))
    ensures LocksHeld(AfterAcquire(s, h).handlers, AfterAcquire(s, h).locks)
  {
  }

  /** A handler that stays keeps its lock, or keeps having none. */
  lemma StayingKeepsLocks(handlers: map<nat, Handler>, locks: map<string, nat>, h: nat, next: Handler)
    requires LocksHeld(handlers, locks)
    requires Locked(next) == if h in handlers then Locked(handlers[h]) else None
    ensures LocksHeld(handlers[h := next], locks)
  {
  }

  lemma GoingOnKeepsLocks(s: Server, h: nat, t: Server)
    requires LocksHeld(s.handlers, s.locks) && h in s.handlers && h in t.handlers
    requires t.handlers[h].Over? ==> t.handlers == Leave(s, h).handlers && t.locks == Leave(s, h).locks
    requires !t.handlers[h].Over? ==>
               && t.handlers == s.handlers[h := t.handlers[h]] && t.locks == s.locks
               && Locked(t.handlers[h]) == Locked(s.handlers[h])
    ensures LocksHeld(t.handlers, t.locks)
  {
    LeaveKeepsLocks(s, h);
    if !t.handlers[h].Over? {
      StayingKeepsLocks(s.handlers, s.locks, h, t.handlers[h]);
    }
  }

  lemma StepKeepsLocks(s: Server, step: Step, t: Server)
    requires LocksHeld(s.handlers, s.locks) && Steps(s, step, t)
    ensures LocksHeld(t.handlers, t.locks)
  {
    match step
    case Arrive(h, handler) => StayingKeepsLocks(s.handlers, s.locks, h, handler);
    case Acquire(h) => AcquireKeepsLocks(s, h);
    case LookToStart(h, _) => GoingOnKeepsLocks(s, h, t);
    case LookToDelete(h, _, _) => GoingOnKeepsLocks(s, h, t);
    case StopReturned(h) => GoingOnKeepsLocks(s, h, t);
    case StartConversation(h, _, _, _) => LeaveKeepsLocks(s, h);
    case CallReturned(h) => LeaveKeepsLocks(s, h);
    case Project(_) =>
    case Execution(_) =>
  }

  lemma OnlyActorChanges(s: Server, step: Step, t: Server)
    requires Steps(s, step, t)
    ensures step.Project? || step.Execution? ==> t.handlers == s.handlers
    ensures !step.Project? && !step.Execution? ==>
              step.h in t.handlers && t.handlers == s.handlers[step.h := t.handlers[step.h]]
  {
  }

  lemma RowIsSound(w: PR.Workspace, id: string)
    requires PR.Inv(w) && id in w.rows
    ensures w.rows[id].id == id && ValidId(id) && w.rows[id] in w.log
  {
  }

  lemma ActorIsGood(s: Server, step: Step, t: Server)
    requires Inv(s) && Steps(s, step, t) && !step.Project? && !step.Execution?
    ensures step.h in t.handlers && HandlerGood(t.handlers[step.h], step.h, t.workspace, t.machine)
  {
    match step
    case Arrive(h, _) =>
    case Acquire(h) => assert HandlerGood(s.handlers[h], h, s.workspace, s.machine);
    case LookToStart(h, fault) => LookToStartIsGood(s, h, fault);
    case StartConversation(h, _, _, _) =>
    case LookToDelete(h, fault, call) => LookToDeleteIsGood(s, h, fault, call);
    case StopReturned(h) => StopReturnedIsGood(s, h);
    case CallReturned(h) =>
  }

  lemma LookToStartIsGood(s: Server, h: nat, fault: P.Fault)
    requires Inv(s) && Allowed(s, LookToStart(h, fault))
    ensures var t := AfterLookToStart(s, h, fault);
            h in t.handlers && HandlerGood(t.handlers[h], h, t.workspace, t.machine)
  {
  }

  lemma LookToDeleteIsGood(s: Server, h: nat, fault: P.Fault, call: nat)
    requires Inv(s) && Allowed(s, LookToDelete(h, fault, call))
    ensures var t := AfterLookToDelete(s, h, fault, call);
            h in t.handlers && HandlerGood(t.handlers[h], h, t.workspace, t.machine)
  {
  }

  /** A Stop that returned without an error leaves nothing running and no unconfirmed exit under
      the key. */
  lemma StopReturnedIsGood(s: Server, h: nat)
    requires Inv(s) && Allowed(s, StopReturned(h))
    ensures var t := AfterStopReturned(s, h);
            h in t.handlers && HandlerGood(t.handlers[h], h, t.workspace, t.machine)
  {
    var handler := s.handlers[h];
    assert HandlerGood(handler, h, s.workspace, s.machine);
    if !ER.Fails(s.machine.stops, handler.call) {
      ES.StoppedIsSettled(s.machine, handler.call);
    }
  }

  lemma StepKeepsDeletesHandled(s: Server, step: Step, t: Server)
    requires Inv(s) && Steps(s, step, t)
    ensures DeletesHandled(t.handlers, t.workspace.calls)
  {
    WorkspaceSteps(s, step);
    OnlyActorChanges(s, step, t);
    if Change(s, step).Some? {
      if !step.Project? {
        assert HandlerGood(s.handlers[step.h], step.h, s.workspace, s.machine);
      }
      ChangeKeepsDeletesHandled(s, Change(s, step).value, t.workspace, t.handlers);
    }
  }

  lemma StepKeepsInv(s: Server, step: Step, t: Server)
    requires Inv(s) && Steps(s, step, t)
    ensures Inv(t)
  {
    StepKeepsParts(s, step, t);
    StepKeepsLocks(s, step, t);
    StepKeepsDeletesHandled(s, step, t);
    OnlyActorChanges(s, step, t);
    if !step.Project? && !step.Execution? {
      ActorIsGood(s, step, t);
    }
    forall g <- t.handlers
      ensures HandlerGood(t.handlers[g], g, t.workspace, t.machine)
    {
      if !Acts(step, g) {
        assert t.handlers[g] == s.handlers[g];
      }
    }
  }
}
