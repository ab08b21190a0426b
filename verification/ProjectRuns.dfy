/** The project manager under any interleaving of Create, Delete and Rename calls
    (internal/project/local/manager.go, internal/project/local/rename.go). Each statement,
    each file operation and each comparison is one step; any of them may fail, and a failed
    statement may have taken effect. A call that is abandoned simply takes no more steps. */
module ProjectRuns {
  import opened Wrappers
  import opened Projects
  import opened ProjectIds

  /** A project directory: which generation made it, if any did, and whether it is whole. */
  datatype Directory = Directory(owner: Option<string>, complete: bool)

  /** Where a call stands. The first six places belong to Create, the next four to Delete,
      the last two to Rename. */
  datatype Call =
    | Inserting(p: Project)
    | MakingDirectory(p: Project)
    | Initializing(p: Project)
    | Completing(p: Project)
    | RollingBack(p: Project, made: bool)
    | CleaningUp(p: Project, made: bool)
    | Releasing(p: Project)
    | Claiming(expected: Project)
    | Removing(d: Project)
    | Erasing(d: Project)
    | Reporting(d: Project)
    | Fetching(id: string, name: string, version: nat)
    | Renaming(p: Project, next: Project)
    | Finished(ok: bool)

  /** tokens holds every token ever drawn and log every row ever stored. */
  datatype Workspace = Workspace(
    rows: Rows, directories: map<string, Directory>, calls: map<nat, Call>,
    tokens: set<string>, log: set<Project>)

  /** The environment's part in a step: the fault of a statement, or whether a file operation
      fails or its context has ended; a failing one may leave damage behind. */
  datatype Luck = Statement(fault: Fault) | Files(fails: bool, damages: bool)

  datatype Step =
    | BeginCreate(c: nat, id: string, name: string, token: string)
    | BeginDelete(c: nat, expected: Project)
    | BeginRename(c: nat, id: string, name: string, version: nat)
    | Advance(c: nat, luck: Luck)

  const DELETION_FAILED := "Deletion could not finish. Check the server logs and retry."

  function NewProject(id: string, name: string, token: string): Project {
    Project(id, "git", name, Creating, "", token, 1)
  }

  /** The rows and directories a workspace starts with: no rows, and directories that no
      generation of this workspace has made. */
  ghost predicate Initial(w: Workspace) {
    && w.rows == map[] && w.calls == map[] && w.tokens == {} && w.log == {}
    && (forall id <- w.directories :: w.directories[id].owner.None?)
  }

  /** Whether the kind of luck fits what the call does next. */
  predicate Fits(call: Call, luck: Luck) {
    match call
    case MakingDirectory(_) => luck.Files?
    case Initializing(_) => luck.Files?
    case CleaningUp(_, _) => luck.Files?
    case Removing(_) => luck.Files?
    case Finished(_) => false
    case _ => luck.Statement?
  }

  /** Create checks the ID first and draws a new token. Delete is given a row that somebody
      read at some time, perhaps long ago. */
  ghost predicate Allowed(w: Workspace, step: Step) {
    match step
    case BeginCreate(c, id, _, token) => c !in w.calls && ValidId(id) && token != "" && token !in w.tokens
    case BeginDelete(c, expected) => c !in w.calls && expected in w.log
    case BeginRename(c, _, _, _) => c !in w.calls
    case Advance(c, luck) => c in w.calls && Fits(w.calls[c], luck)
  }

  function Set(w: Workspace, c: nat, call: Call): Workspace {
    w.(calls := w.calls[c := call])
  }

  /** A statement's new rows, with what it stored added to the log. */
  function Record(w: Workspace, id: string, rows: Rows): Workspace {
    w.(rows := rows, log := if id in rows then w.log + {rows[id]} else w.log)
  }

  function Damage(directories: map<string, Directory>, id: string, damages: bool): map<string, Directory> {
    if damages && id in directories then directories[id := directories[id].(complete := false)] else directories
  }

  // Create.

  function AfterInserting(w: Workspace, c: nat, p: Project, fault: Fault): Workspace {
    Set(Record(w, p.id, AfterInsert(w.rows, p, fault)), c,
        if Insertable(w.rows, p) && fault == Works then MakingDirectory(p) else Finished(false))
  }

  function AfterMaking(w: Workspace, c: nat, p: Project, fails: bool): Workspace {
    if fails || p.id in w.directories then Set(w, c, RollingBack(p, false))
    else Set(w.(directories := w.directories[p.id := Directory(Some(p.token), false)]), c, Initializing(p))
  }

  function AfterInitializing(w: Workspace, c: nat, p: Project, fails: bool): Workspace {
    if fails || p.id !in w.directories then Set(w, c, RollingBack(p, true))
    else Set(w.(directories := w.directories[p.id := w.directories[p.id].(complete := true)]), c, Completing(p))
  }

  function AfterCompleting(w: Workspace, c: nat, p: Project, fault: Fault): Workspace {
    var ready := p.(state := Ready);
    Set(Record(w, p.id, AfterUpdate(w.rows, p, ready, fault)), c,
        Finished(Updatable(w.rows, p, ready) && fault == Works))
  }

  function AfterRollingBack(w: Workspace, c: nat, p: Project, made: bool, fault: Fault): Workspace {
    Set(w, c, if fault == Works && p.id in w.rows && w.rows[p.id] == p then CleaningUp(p, made) else Finished(false))
  }

  function AfterCleaningUp(w: Workspace, c: nat, p: Project, made: bool, fails: bool, damages: bool): Workspace {
    if !made then Set(w, c, Releasing(p))
    else if fails then Set(w.(directories := Damage(w.directories, p.id, damages)), c, Finished(false))
    else Set(w.(directories := w.directories - {p.id}), c, Releasing(p))
  }

  function AfterReleasing(w: Workspace, c: nat, p: Project, fault: Fault): Workspace {
    Set(Record(w, p.id, AfterDelete(w.rows, p, fault)), c, Finished(false))
  }

  // Delete.

  function Claimed(expected: Project): Project {
    expected.(state := Deleting, error := "")
  }

  function AfterClaiming(w: Workspace, c: nat, expected: Project, fault: Fault): Workspace {
    if expected.state !in {Ready, Failed, DeleteFailed} then Set(w, c, Finished(false))
    else
      Set(Record(w, expected.id, AfterUpdate(w.rows, expected, Claimed(expected), fault)), c,
          if Updatable(w.rows, expected, Claimed(expected)) && fault == Works then
            Removing(Updated(w.rows[expected.id], Claimed(expected)))
          else Finished(false))
  }

  function AfterRemoving(w: Workspace, c: nat, d: Project, fails: bool, damages: bool): Workspace {
    if fails then Set(w.(directories := Damage(w.directories, d.id, damages)), c, Reporting(d))
    else Set(w.(directories := w.directories - {d.id}), c, Erasing(d))
  }

  function AfterErasing(w: Workspace, c: nat, d: Project, fault: Fault): Workspace {
    Set(Record(w, d.id, AfterDelete(w.rows, d, fault)), c,
        if Deletable(w.rows, d) && fault == Works then Finished(true) else Reporting(d))
  }

  function AfterReporting(w: Workspace, c: nat, d: Project, fault: Fault): Workspace {
    Set(Record(w, d.id, AfterUpdate(w.rows, d, d.(state := DeleteFailed, error := DELETION_FAILED), fault)), c,
        Finished(false))
  }

  // Rename.

  function AfterFetching(w: Workspace, c: nat, id: string, name: string, version: nat, fault: Fault): Workspace {
    if fault != Works || id !in w.rows || w.rows[id].version != version || w.rows[id].state in {Creating, Deleting}
    then Set(w, c, Finished(false))
    else Set(w, c, Renaming(w.rows[id], w.rows[id].(name := name)))
  }

  function AfterRenaming(w: Workspace, c: nat, p: Project, next: Project, fault: Fault): Workspace {
    Set(Record(w, p.id, AfterUpdate(w.rows, p, next, fault)), c,
        Finished(Updatable(w.rows, p, next) && fault == Works))
  }

  function AfterAdvance(w: Workspace, c: nat, luck: Luck): Workspace
    requires c in w.calls && Fits(w.calls[c], luck)
  {
    match w.calls[c]
    case Inserting(p) => AfterInserting(w, c, p, luck.fault)
    case MakingDirectory(p) => AfterMaking(w, c, p, luck.fails)
    case Initializing(p) => AfterInitializing(w, c, p, luck.fails)
    case Completing(p) => AfterCompleting(w, c, p, luck.fault)
    case RollingBack(p, made) => AfterRollingBack(w, c, p, made, luck.fault)
    case CleaningUp(p, made) => AfterCleaningUp(w, c, p, made, luck.fails, luck.damages)
    case Releasing(p) => AfterReleasing(w, c, p, luck.fault)
    case Claiming(expected) => AfterClaiming(w, c, expected, luck.fault)
    case Removing(d) => AfterRemoving(w, c, d, luck.fails, luck.damages)
    case Erasing(d) => AfterErasing(w, c, d, luck.fault)
    case Reporting(d) => AfterReporting(w, c, d, luck.fault)
    case Fetching(id, name, version) => AfterFetching(w, c, id, name, version, luck.fault)
    case Renaming(p, next) => AfterRenaming(w, c, p, next, luck.fault)
  }

  ghost function After(w: Workspace, step: Step): Workspace
    requires Allowed(w, step)
  {
    match step
    case BeginCreate(c, id, name, token) =>
      Set(w, c, Inserting(NewProject(id, name, token))).(tokens := w.tokens + {token})
    case BeginDelete(c, expected) => Set(w, c, Claiming(expected))
    case BeginRename(c, id, name, version) => Set(w, c, Fetching(id, name, version))
    case Advance(c, luck) => AfterAdvance(w, c, luck)
  }

  ghost predicate Steps(w: Workspace, step: Step, v: Workspace) {
    Allowed(w, step) && v == After(w, step)
  }

  /** A run: any number of steps of any calls, from any initial workspace. */
  ghost predicate Run(states: seq<Workspace>, steps: seq<Step>) {
    && |states| == |steps| + 1
    && Initial(states[0])
    && forall i, j {:trigger Steps(states[i], steps[i], states[j])} ::
      0 <= i < |steps| && j == i + 1 ==> Steps(states[i], steps[i], states[j])
  }

  // The invariant.

  /** The order in which a generation passes through its states. */
  function Stage(state: State): nat {
    match state
    case Creating => 0
    case Ready => 1
    case _ => 2
  }

  ghost predicate Sound(p: Project, tokens: set<string>) {
    p.token in tokens && p.token != "" && ValidId(p.id) && p.version >= 1 && p.state != Failed
    && (p.state == Creating ==> p.version == 1)
  }

  /** Of two rows of one generation, the version tells which is later and everything else. */
  ghost predicate Ordered(p: Project, q: Project) {
    p.token == q.token ==>
      && p.id == q.id && p.kind == q.kind
      && (p.version == q.version ==> p == q)
      && (p.version < q.version ==> Stage(p.state) <= Stage(q.state))
  }

  ghost predicate LogGood(log: set<Project>, tokens: set<string>) {
    && (forall p <- log :: Sound(p, tokens))
    && (forall p <- log, q <- log :: Ordered(p, q))
  }

  /** A stored row is the latest of its generation. */
  ghost predicate Latest(row: Project, log: set<Project>) {
    row in log && forall p <- log :: p.token == row.token ==> p.version <= row.version
  }

  ghost predicate RowsGood(rows: Rows, log: set<Project>) {
    forall id <- rows :: rows[id].id == id && Latest(rows[id], log)
  }

  /** A generation's directory stands only while its row does; ready rows have theirs whole. */
  ghost predicate DirectoryGood(rows: Rows, directories: map<string, Directory>, id: string) {
    && (id in directories && directories[id].owner.Some? ==>
          id in rows && rows[id].token == directories[id].owner.value)
    && (id in rows && rows[id].state == Ready ==>
          id in directories && directories[id] == Directory(Some(rows[id].token), true))
    && (id in rows && rows[id].state in {Deleting, DeleteFailed} ==>
          id in directories ==> directories[id].owner.Some?)
  }

  ghost predicate DirectoriesGood(rows: Rows, directories: map<string, Directory>) {
    forall id :: DirectoryGood(rows, directories, id)
  }

  predicate Owns(directories: map<string, Directory>, p: Project) {
    p.id in directories && directories[p.id].owner == Some(p.token)
  }

  /** The row a call has to itself: from the moment it stored it until it is done with it. */
  function Held(call: Call): Option<Project> {
    match call
    case MakingDirectory(p) => Some(p)
    case Initializing(p) => Some(p)
    case Completing(p) => Some(p)
    case RollingBack(p, _) => Some(p)
    case CleaningUp(p, _) => Some(p)
    case Releasing(p) => Some(p)
    case Removing(d) => Some(d)
    case Erasing(d) => Some(d)
    case _ => None
  }

  ghost predicate CallGood(w: Workspace, call: Call) {
    && (Held(call).Some? ==>
          var p := Held(call).value;
          && p.id in w.rows && w.rows[p.id] == p
          && p.state == (if call.Removing? || call.Erasing? then Deleting else Creating))
    && match call
       case Inserting(p) =>
         && p.state == Creating && p.version == 1 && p.token in w.tokens && p.token != "" && ValidId(p.id)
         && (forall q <- w.log :: q.token != p.token)
       case MakingDirectory(p) => !Owns(w.directories, p)
       case Initializing(p) => Owns(w.directories, p)
       case Completing(p) => Owns(w.directories, p) && w.directories[p.id].complete
       case RollingBack(p, made) => made == Owns(w.directories, p)
       case CleaningUp(p, made) => made == Owns(w.directories, p)
       case Releasing(p) => !Owns(w.directories, p)
       case Claiming(expected) => expected in w.log
       case Erasing(d) => d.id !in w.directories
       case Reporting(d) =>
         && d in w.log && d.state == Deleting
         && (d.id in w.rows && w.rows[d.id].token == d.token ==> w.rows[d.id] == d)
       case Renaming(p, next) => p in w.log && p.state !in {Creating, Deleting} && next == p.(name := next.name)
       case _ => true
  }

  /** What distinguishes the calls that store and remove: no two share it. */
  function Claim(call: Call): Option<(string, nat)> {
    match call
    case Inserting(p) => Some((p.token, 1))
    case Reporting(d) => Some((d.token, d.version))
    case _ => if Held(call).Some? then Some((Held(call).value.token, Held(call).value.version)) else None
  }

  ghost predicate CallsGood(w: Workspace) {
    && (forall c <- w.calls :: CallGood(w, w.calls[c]))
    && (forall b <- w.calls, c <- w.calls ::
          b != c && Claim(w.calls[b]).Some? ==> Claim(w.calls[b]) != Claim(w.calls[c]))
  }

  ghost predicate Inv(w: Workspace) {
    && LogGood(w.log, w.tokens)
    && RowsGood(w.rows, w.log)
    && DirectoriesGood(w.rows, w.directories)
    && CallsGood(w)
  }
}
