/** The server's handlers over projects and executions: per-project locks, starting,
    deleting and renaming (internal/server/projects.go, internal/server/conversations.go). */
module Lifecycle {
  import opened Wrappers
  import P = Projects
  import PR = ProjectRuns
  import E = Execution
  import ER = ExecutionRuns

  /** A request at a project and where it stands. Everything but waiting and Over happens
      under the lock of the project ID. The manager call of a handler carries its number. */
  datatype Handler =
    | StartWaiting(id: string)
    | StartLooking(id: string)
    | Starting(id: string, p: P.Project)
    | DeleteWaiting(id: string)
    | DeleteLooking(id: string)
    | Stopping(id: string, p: P.Project, call: nat)
    | Deleting(id: string, p: P.Project)
    | RenameWaiting(id: string, name: string, version: nat)
    | Renaming(id: string)
    | Over

  datatype Server = Server(
    workspace: PR.Workspace, machine: ER.Machine, locks: map<string, nat>, handlers: map<nat, Handler>)

  datatype Step =
    | Arrive(h: nat, handler: Handler)
    | Acquire(h: nat)
    | LookToStart(h: nat, fault: P.Fault)
    | StartConversation(h: nat, unavailable: bool, canceled: bool, next: nat)
    | LookToDelete(h: nat, fault: P.Fault, call: nat)
    | StopReturned(h: nat)
    | CallReturned(h: nat)
    | Project(change: PR.Step)
    | Execution(move: ER.Step)

  /** projectExecutionKey. */
  function Key(p: P.Project): string {
    p.id + ":" + p.token
  }

  ghost predicate Initial(s: Server) {
    PR.Initial(s.workspace) && s.machine == ER.IDLE && s.locks == map[] && s.handlers == map[]
  }

  /** The project ID a handler has locked. */
  function Locked(handler: Handler): Option<string> {
    match handler
    case StartLooking(id) => Some(id)
    case Starting(id, _) => Some(id)
    case DeleteLooking(id) => Some(id)
    case Stopping(id, _, _) => Some(id)
    case Deleting(id, _) => Some(id)
    case Renaming(id) => Some(id)
    case _ => None
  }

  predicate Waits(handler: Handler) {
    handler.StartWaiting? || handler.DeleteWaiting? || handler.RenameWaiting?
  }

  function Returned(s: Server, h: nat): bool {
    h in s.workspace.calls && s.workspace.calls[h].Finished?
  }

  /** Project creation needs no lock and anything may happen to launchers and processes, but
      only handlers delete, rename, and start. */
  ghost predicate Allowed(s: Server, step: Step) {
    match step
    case Arrive(h, handler) => h !in s.handlers && h !in s.workspace.calls && Waits(handler)
    case Acquire(h) => h in s.handlers && Waits(s.handlers[h]) && s.handlers[h].id !in s.locks
    case LookToStart(h, _) => h in s.handlers && s.handlers[h].StartLooking?
    case StartConversation(h, _, canceled, next) =>
      h in s.handlers && s.handlers[h].Starting? && next !in s.machine.manager.entries
    case LookToDelete(h, _, call) => h in s.handlers && s.handlers[h].DeleteLooking? && call !in s.machine.stops
    case StopReturned(h) =>
      h in s.handlers && s.handlers[h].Stopping? && ER.Returns(s.machine.stops, s.handlers[h].call)
    case CallReturned(h) => h in s.handlers && (s.handlers[h].Deleting? || s.handlers[h].Renaming?) && Returned(s, h)
    case Project(change) => (change.BeginCreate? || change.Advance?) && PR.Allowed(s.workspace, change)
                            && (change.BeginCreate? ==> change.c !in s.handlers)
    case Execution(move) => !move.Start? && ER.Allowed(s.machine, move)
  }

  function Become(s: Server, h: nat, handler: Handler): Server {
    s.(handlers := s.handlers[h := handler])
  }

  /** The deferred unlock. */
  function Leave(s: Server, h: nat): Server
    requires h in s.handlers
  {
    var locked := Locked(s.handlers[h]);
    Become(s, h, Over).(locks := if locked.Some? then s.locks - {locked.value} else s.locks)
  }

  function AfterAcquire(s: Server, h: nat): Server
    requires h in s.handlers && Waits(s.handlers[h])
  {
    var locked := s.(locks := s.locks[s.handlers[h].id := h]);
    match s.handlers[h]
    case StartWaiting(id) => Become(locked, h, StartLooking(id))
    case DeleteWaiting(id) => Become(locked, h, DeleteLooking(id))
    case RenameWaiting(id, name, version) =>
      Become(locked, h, Renaming(id)).(workspace := PR.Set(s.workspace, h, PR.Fetching(id, name, version)))
  }

  function AfterLookToStart(s: Server, h: nat, fault: P.Fault): Server
    requires h in s.handlers && s.handlers[h].StartLooking?
  {
    var id := s.handlers[h].id;
    if fault != P.Works || id !in s.workspace.rows || s.workspace.rows[id].state != P.Ready then Leave(s, h)
    else Become(s, h, Starting(id, s.workspace.rows[id]))
  }

  /** unavailable says that the directory check failed. */
  ghost function AfterStartConversation(s: Server, h: nat, unavailable: bool, canceled: bool, next: nat): Server
    requires h in s.handlers && s.handlers[h].Starting? && E.Linked(s.machine.manager, s.machine.processes)
  {
    if unavailable then Leave(s, h)
    else Leave(s, h).(machine := ER.AfterStart(s.machine, Key(s.handlers[h].p), canceled, next))
  }

  function AfterLookToDelete(s: Server, h: nat, fault: P.Fault, call: nat): Server
    requires h in s.handlers && s.handlers[h].DeleteLooking?
  {
    var id := s.handlers[h].id;
    if fault != P.Works || id !in s.workspace.rows || s.workspace.rows[id].state in {P.Creating, P.Deleting} then
      Leave(s, h)
    else
      var p := s.workspace.rows[id];
      Become(s, h, Stopping(id, p, call))
        .(machine := s.machine.(stops := s.machine.stops[call := ER.StopCall(Key(p), ER.Entering)]))
  }

  function AfterStopReturned(s: Server, h: nat): Server
    requires h in s.handlers && s.handlers[h].Stopping? && ER.Returns(s.machine.stops, s.handlers[h].call)
  {
    var handler := s.handlers[h];
    if ER.Fails(s.machine.stops, handler.call) then Leave(s, h)
    else
      Become(s, h, Deleting(handler.id, handler.p))
        .(workspace := PR.Set(s.workspace, h, PR.Claiming(handler.p)))
  }

  ghost function After(s: Server, step: Step): Server
    requires E.Linked(s.machine.manager, s.machine.processes) && Allowed(s, step)
  {
    match step
    case Arrive(h, handler) => Become(s, h, handler)
    case Acquire(h) => AfterAcquire(s, h)
    case LookToStart(h, fault) => AfterLookToStart(s, h, fault)
    case StartConversation(h, unavailable, canceled, next) => AfterStartConversation(s, h, unavailable, canceled, next)
    case LookToDelete(h, fault, call) => AfterLookToDelete(s, h, fault, call)
    case StopReturned(h) => AfterStopReturned(s, h)
    case CallReturned(h) => Leave(s, h)
    case Project(change) => s.(workspace := PR.After(s.workspace, change))
    case Execution(move) => s.(machine := ER.After(s.machine, move))
  }

  ghost predicate Steps(s: Server, step: Step, t: Server) {
    E.Linked(s.machine.manager, s.machine.processes) && Allowed(s, step) && t == After(s, step)
  }

  /** A run: any number of requests, with everything else interleaved freely. */
  ghost predicate Run(states: seq<Server>, steps: seq<Step>) {
    && |states| == |steps| + 1
    && Initial(states[0])
    && forall i, j {:trigger Steps(states[i], steps[i], states[j])} ::
      0 <= i < |steps| && j == i + 1 ==> Steps(states[i], steps[i], states[j])
  }
}
