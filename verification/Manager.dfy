/** The project manager as written (internal/project/local/manager.go and rename.go), one
    call at a time. Each call also leaves behind the path it takes through ProjectRuns, so
    what holds there of every interleaving holds of these bodies. */
module Manager {
  import opened Wrappers
  import opened Projects
  import opened ProjectRuns

  /** What befalls the statements and file operations of a call, in the order it meets them;
      a true mkdir, init, remove or cleanup fails. */
  datatype CreateLuck = CreateLuck(
    insert: Fault, mkdir: bool, init: bool, update: Fault, get: Fault, cleanup: bool, damages: bool, release: Fault)

  datatype DeleteLuck = DeleteLuck(
    claim: Fault, canceled: bool, remove: bool, damages: bool, erase: Fault, report: Fault)

  /** The steps taken so far, and the workspaces they lead through. */
  datatype Trace = Trace(begin: Workspace, steps: seq<Step>, passed: seq<Workspace>, at: Workspace) {
    ghost predicate Good() {
      && |passed| == |steps| + 1
      && passed[0] == begin && passed[|steps|] == at
      && forall i, j {:trigger Steps(passed[i], steps[i], passed[j])} ::
        0 <= i < |steps| && j == i + 1 ==> Steps(passed[i], steps[i], passed[j])
    }
  }

  function Begin(w: Workspace): Trace {
    Trace(w, [], [w], w)
  }

  lemma Take(t: Trace, c: nat, luck: Luck) returns (u: Trace)
    requires t.Good() && c in t.at.calls && Fits(t.at.calls[c], luck)
    ensures u.Good() && u.begin == t.begin && u.at == AfterAdvance(t.at, c, luck)
  {
    var v, step := AfterAdvance(t.at, c, luck), Advance(c, luck);
    u := Trace(t.begin, t.steps + [step], t.passed + [v], v);
    forall i, j | 0 <= i < |u.steps| && j == i + 1
      ensures Steps(u.passed[i], u.steps[i], u.passed[j])
    {
      if i < |t.steps| {
        assert Steps(t.passed[i], t.steps[i], t.passed[j]);
      }
    }
  }

  /** The call stands at this place. */
  ghost predicate Stands(t: Trace, w: Workspace, c: nat, call: Call) {
    t.Good() && t.begin == w && c in t.at.calls && t.at.calls[c] == call
  }

  lemma TakeInserting(t: Trace, c: nat, p: Project, fault: Fault) returns (u: Trace)
    requires Stands(t, t.begin, c, Inserting(p))
    ensures u.Good() && u.begin == t.begin && u.at == AfterInserting(t.at, c, p, fault)
  {
    u := Take(t, c, Statement(fault));
  }

  lemma TakeCompleting(t: Trace, c: nat, p: Project, fault: Fault) returns (u: Trace)
    requires Stands(t, t.begin, c, Completing(p))
    ensures u.Good() && u.begin == t.begin && u.at == AfterCompleting(t.at, c, p, fault)
  {
    u := Take(t, c, Statement(fault));
  }

  lemma TakeClaiming(t: Trace, c: nat, expected: Project, fault: Fault) returns (u: Trace)
    requires Stands(t, t.begin, c, Claiming(expected))
    ensures u.Good() && u.begin == t.begin && u.at == AfterClaiming(t.at, c, expected, fault)
  {
    u := Take(t, c, Statement(fault));
  }

  lemma TakeFetching(t: Trace, c: nat, id: string, name: string, version: nat, fault: Fault) returns (u: Trace)
    requires Stands(t, t.begin, c, Fetching(id, name, version))
    ensures u.Good() && u.begin == t.begin && u.at == AfterFetching(t.at, c, id, name, version, fault)
  {
    u := Take(t, c, Statement(fault));
  }

  lemma TakeRenaming(t: Trace, c: nat, p: Project, next: Project, fault: Fault) returns (u: Trace)
    requires Stands(t, t.begin, c, Renaming(p, next))
    ensures u.Good() && u.begin == t.begin && u.at == AfterRenaming(t.at, c, p, next, fault)
  {
    u := Take(t, c, Statement(fault));
  }

  /** Nothing keeps a failed Create from being undone, and no failed statement took effect. */
  predicate Forgiving(luck: CreateLuck) {
    luck.insert != FailsAfter && luck.update == Works && luck.get == Works && !luck.cleanup && luck.release == Works
  }

  /** The snapshot is the stored row, in a state from which it can be deleted. */
  predicate Claimable(rows: Rows, expected: Project) {
    && expected.id in rows && rows[expected.id].version == expected.version
    && rows[expected.id].state == expected.state && rows[expected.id].token == expected.token
    && (expected.state == Ready || expected.state == Failed || expected.state == DeleteFailed)
  }

  /** The row that records a failed deletion. */
  predicate RecordsFailure(row: Project, claimed: Project) {
    && row.id == claimed.id && row.name == claimed.name && row.token == claimed.token
    && row.state == DeleteFailed && row.version == claimed.version + 1
    && row.error == "Deletion could not finish. Check the server logs and retry."
  }

  class Manager {
    const store: Store
    var directories: map<string, Directory>

    constructor (store: Store, directories: map<string, Directory>)
      ensures this.store == store && this.directories == directories
    {
      this.store, this.directories := store, directories;
    }

    ghost predicate Shows(w: Workspace)
      reads this, store
    {
      w.rows == store.rows && w.directories == directories
    }

    /** os.Root.Mkdir. */
    method Mkdir(id: string, token: string, fails: bool) returns (ok: bool)
      modifies this`directories
      ensures ok <==> !fails && id !in old(directories)
      ensures directories == if ok then old(directories)[id := Directory(Some(token), false)] else old(directories)
    {
      ok := !fails && id !in directories;
      if ok {
        directories := directories[id := Directory(Some(token), false)];
      }
    }

    /** os.Root.RemoveAll. */
    method RemoveAll(id: string, fails: bool, damages: bool) returns (ok: bool)
      modifies this`directories
      ensures ok == !fails
      ensures directories == if fails then Damage(old(directories), id, damages) else old(directories) - {id}
    {
      if fails {
        if damages && id in directories {
          directories := directories[id := directories[id].(complete := false)];
        }
        return false;
      }
      directories := directories - {id};
      return true;
    }

    /** Create: it succeeds exactly if the ID and its directory are free and nothing fails. Then
        the project is ready with its files; a failure undoes everything as long as the
        statements and the cleanup work. Directories that were there stay as they were. */
    method Create(id: string, name: string, token: string, luck: CreateLuck, ghost c: nat, ghost w: Workspace)
      returns (ok: bool, ghost t: Trace)
      requires Shows(w) && c in w.calls && w.calls[c] == Inserting(NewProject(id, name, token)) && token != ""
      modifies this`directories, store
      ensures Stands(t, w, c, Finished(ok)) && Shows(t.at)
      ensures ok <==>
                && id !in old(store.rows) && id !in old(directories)
                && luck.insert == Works && !luck.mkdir && !luck.init && luck.update == Works
      ensures ok ==>
                && store.rows == old(store.rows)[id := Project(id, "git", name, Ready, "", token, 2)]
                && directories == old(directories)[id := Directory(Some(token), true)]
      ensures !ok && Forgiving(luck) ==> store.rows == old(store.rows) && directories == old(directories)
      ensures id in old(directories) ==> directories == old(directories)
    {
      var p := NewProject(id, name, token);
      t := TakeInserting(Begin(w), c, p, luck.insert);
      var inserted := store.InsertProject(p, luck.insert);
      if !inserted.Ok? {
        return false, t;
      }
      ok, t := Complete(p, luck, c, t);
    }

    /** The rest of Create, once the row is inserted. */
    method Complete(p: Project, luck: CreateLuck, ghost c: nat, ghost t: Trace)
      returns (ok: bool, ghost u: Trace)
      requires Stands(t, t.begin, c, MakingDirectory(p)) && Shows(t.at)
      requires p.state == Creating && p.version == 1 && p.token != "" && p.id in store.rows && store.rows[p.id] == p
      modifies this`directories, store
      ensures Stands(u, t.begin, c, Finished(ok)) && Shows(u.at)
      ensures ok <==> p.id !in old(directories) && !luck.mkdir && !luck.init && luck.update == Works
      ensures ok ==>
                && store.rows == old(store.rows)[p.id := p.(state := Ready, version := 2)]
                && directories == old(directories)[p.id := Directory(Some(p.token), true)]
      ensures !ok && Forgiving(luck) ==> store.rows == old(store.rows) - {p.id} && directories == old(directories)
      ensures p.id in old(directories) ==> directories == old(directories)
    {
      var made, initialized;
      made, initialized, u := CreateFiles(p, luck, c, t);
      if !initialized {
        u := Rollback(p, made, luck, c, u);
        return false, u;
      }
      u := TakeCompleting(u, c, p, luck.update);
      var ready := store.UpdateProject(p, p.(state := Ready), luck.update);
      ok := ready.Ok?;
    }

    /** createFiles: made says what its cleanup would remove. */
    method CreateFiles(p: Project, luck: CreateLuck, ghost c: nat, ghost t: Trace)
      returns (made: bool, initialized: bool, ghost u: Trace)
      requires Stands(t, t.begin, c, MakingDirectory(p)) && Shows(t.at)
      modifies this`directories
      ensures Stands(u, t.begin, c, if initialized then Completing(p) else RollingBack(p, made)) && Shows(u.at)
      ensures made <==> !luck.mkdir && p.id !in old(directories)
      ensures initialized <==> made && !luck.init
      ensures directories == if made then old(directories)[p.id := Directory(Some(p.token), initialized)]
                             else old(directories)
    {
      initialized := false;
      made := Mkdir(p.id, p.token, luck.mkdir);
      u := Take(t, c, Files(luck.mkdir, false));
      if !made {
        return;
      }
      u := Take(u, c, Files(luck.init, false));
      if !luck.init {
        directories := directories[p.id := directories[p.id].(complete := true)];
        initialized := true;
      }
    }

    /** rollback, with the cleanup that createFiles returned. */
    method Rollback(p: Project, made: bool, luck: CreateLuck, ghost c: nat, ghost t: Trace)
      returns (ghost u: Trace)
      requires Stands(t, t.begin, c, RollingBack(p, made)) && Shows(t.at)
      requires p.state == Creating && p.version == 1 && p.token != ""
      requires p.id in store.rows && store.rows[p.id] == p
      modifies this`directories, store
      ensures Stands(u, t.begin, c, Finished(false)) && Shows(u.at)
      ensures luck.get == Works && !luck.cleanup && luck.release == Works ==>
                && store.rows == old(store.rows) - {p.id}
                && directories == if made then old(directories) - {p.id} else old(directories)
      ensures !made ==> directories == old(directories)
    {
      u := Take(t, c, Statement(luck.get));
      var current := store.GetProject(p.id, luck.get);
      if !current.Ok? || current.value != p {
        return;
      }
      u := Take(u, c, Files(luck.cleanup, luck.damages));
      if made {
        var removed := RemoveAll(p.id, luck.cleanup, luck.damages);
        if !removed {
          return;
        }
      }
      u := Take(u, c, Statement(luck.release));
      var _ := store.DeleteProject(p, luck.release);
    }

    /** Delete: it succeeds exactly if the snapshot is current and nothing fails, also when an
        earlier attempt has failed, and then neither row nor files are left. A claimed project
        that is not deleted is recorded as such. A snapshot that no longer matches, or whose
        project another operation is working on, changes nothing. */
    method Delete(expected: Project, luck: DeleteLuck, ghost c: nat, ghost w: Workspace)
      returns (ok: bool, ghost t: Trace)
      requires Shows(w) && c in w.calls && w.calls[c] == Claiming(expected)
      requires expected.id in store.rows ==> store.rows[expected.id].id == expected.id
      modifies this`directories, store
      ensures Stands(t, w, c, Finished(ok)) && Shows(t.at)
      ensures ok <==>
                && Claimable(old(store.rows), expected) && expected.token != ""
                && luck.claim == Works && !luck.canceled && !luck.remove && luck.erase == Works
      ensures ok ==>
                && store.rows == old(store.rows) - {expected.id}
                && directories == old(directories) - {expected.id}
      ensures !Matches(old(store.rows), expected) || expected.state in {Creating, Deleting} ==>
                !ok && store.rows == old(store.rows) && directories == old(directories)
      ensures Claimable(old(store.rows), expected) && luck.claim == Works && !ok && luck.report == Works
              && (luck.canceled || luck.remove || luck.erase == FailsBefore) ==>
                && expected.id in store.rows
                && RecordsFailure(store.rows[expected.id], expected.(version := expected.version + 1))
      ensures luck.canceled ==> directories == old(directories)
      ensures store.rows - {expected.id} == old(store.rows) - {expected.id}
      ensures directories - {expected.id} == old(directories) - {expected.id}
    {
      t := TakeClaiming(Begin(w), c, expected, luck.claim);
      if expected.state != Ready && expected.state != Failed && expected.state != DeleteFailed {
        return false, t;
      }
      ghost var rows := store.rows;
      var claimed := store.UpdateProject(expected, expected.(state := Deleting, error := ""), luck.claim);
      assert store.rows - {expected.id} == rows - {expected.id};
      if !claimed.Ok? {
        return false, t;
      }
      ok, t := RemoveProject(claimed.value, luck, c, t);
    }

    /** The rest of Delete, once the row is claimed. */
    method RemoveProject(deleting: Project, luck: DeleteLuck, ghost c: nat, ghost t: Trace)
      returns (ok: bool, ghost u: Trace)
      requires Stands(t, t.begin, c, Removing(deleting)) && Shows(t.at)
      requires deleting.id in store.rows && store.rows[deleting.id] == deleting
      requires deleting.state == Deleting && deleting.version >= 1
      modifies this`directories, store
      ensures Stands(u, t.begin, c, Finished(ok)) && Shows(u.at)
      ensures ok <==> !luck.canceled && !luck.remove && luck.erase == Works && deleting.token != ""
      ensures ok ==> store.rows == old(store.rows) - {deleting.id} && directories == old(directories) - {deleting.id}
      ensures !ok && luck.report == Works && (luck.canceled || luck.remove || luck.erase == FailsBefore) ==>
                deleting.id in store.rows && RecordsFailure(store.rows[deleting.id], deleting)
      ensures luck.canceled ==> directories == old(directories)
      ensures store.rows - {deleting.id} == old(store.rows) - {deleting.id}
      ensures directories - {deleting.id} == old(directories) - {deleting.id}
    {
      ok := false;
      u := Take(t, c, Files(luck.canceled || luck.remove, !luck.canceled && luck.damages));
      var removed := false;
      if !luck.canceled {
        removed := RemoveAll(deleting.id, luck.remove, luck.damages);
      }
      if removed {
        u := Take(u, c, Statement(luck.erase));
        var erased := store.DeleteProject(deleting, luck.erase);
        ok := erased.Ok?;
      }
      if !ok {
        u := RecordDeletionFailure(deleting, luck.report, c, u);
      }
    }

    /** recordDeletionFailure: a row that is still as it was claimed can be deleted again. */
    method RecordDeletionFailure(deleting: Project, fault: Fault, ghost c: nat, ghost t: Trace)
      returns (ghost u: Trace)
      requires Stands(t, t.begin, c, Reporting(deleting)) && Shows(t.at)
      modifies store
      ensures Stands(u, t.begin, c, Finished(false)) && Shows(u.at)
      ensures deleting.id in old(store.rows) && old(store.rows)[deleting.id] == deleting && fault != FailsBefore ==>
                deleting.id in store.rows && RecordsFailure(store.rows[deleting.id], deleting)
      ensures store.rows - {deleting.id} == old(store.rows) - {deleting.id}
    {
      u := Take(t, c, Statement(fault));
      var _ := store.UpdateProject(deleting, deleting.(state := DeleteFailed, error := DELETION_FAILED), fault);
    }

    /** Rename: it succeeds exactly if the row has this version, no operation is working on it,
        and nothing fails; then it has the new name and nothing else about it has changed. */
    method Rename(id: string, name: string, version: nat, get: Fault, update: Fault, ghost c: nat, ghost w: Workspace)
      returns (ok: bool, ghost t: Trace)
      requires Shows(w) && c in w.calls && w.calls[c] == Fetching(id, name, version)
      requires id in store.rows ==> store.rows[id].id == id
      modifies store
      ensures Stands(t, w, c, Finished(ok)) && Shows(t.at)
      ensures ok <==>
                && id in old(store.rows) && old(store.rows)[id].version == version
                && old(store.rows)[id].state != Creating && old(store.rows)[id].state != Deleting
                && get == Works && update == Works
      ensures ok ==>
                store.rows == old(store.rows)[id := old(store.rows)[id].(name := name, version := version + 1)]
      ensures !ok && update != FailsAfter ==> store.rows == old(store.rows)
    {
      t := TakeFetching(Begin(w), c, id, name, version, get);
      var found := store.GetProject(id, get);
      if !found.Ok? {
        return false, t;
      }
      var p := found.value;
      if p.version != version || p.state == Creating || p.state == Deleting {
        return false, t;
      }
      t := TakeRenaming(t, c, p, p.(name := name), update);
      var renamed := store.UpdateProject(p, p.(name := name), update);
      ok := renamed.Ok?;
    }
  }
}
