/** Project rows and the conditional statements of the store
    (internal/project/project.go, internal/store/sqlite/projects.go). */
module Projects {
  import opened Wrappers

  datatype State = Creating | Ready | Failed | Deleting | DeleteFailed

  datatype Project = Project(
    id: string, kind: string, name: string, state: State, error: string, token: string, version: nat)

  type Rows = map<string, Project>

  /** How a statement can go wrong: it may fail without effect, or take effect and be
      reported as failed. */
  datatype Fault = Works | FailsBefore | FailsAfter

  datatype Reply<+T> = Ok(value: T) | Conflict | NotFound | Failure

  predicate Insertable(rows: Rows, p: Project) {
    p.state == Creating && p.version == 1 && p.token != "" && p.id !in rows
  }

  /** What UPDATE compares; name and error are not part of it. */
  predicate Matches(rows: Rows, before: Project) {
    && before.id in rows
    && rows[before.id].version == before.version
    && rows[before.id].state == before.state
    && rows[before.id].token == before.token
  }

  predicate Updatable(rows: Rows, before: Project, after: Project) {
    after.id == before.id && after.kind == before.kind && Matches(rows, before)
  }

  function Updated(row: Project, after: Project): Project {
    Project(row.id, row.kind, after.name, after.state, after.error, after.token, row.version + 1)
  }

  predicate Deletable(rows: Rows, before: Project) {
    && before.state in {Creating, Deleting} && before.version >= 1 && before.token != ""
    && Matches(rows, before) && rows[before.id].kind == before.kind
  }

  function AfterInsert(rows: Rows, p: Project, fault: Fault): Rows {
    if Insertable(rows, p) && fault != FailsBefore then rows[p.id := p] else rows
  }

  function AfterUpdate(rows: Rows, before: Project, after: Project, fault: Fault): Rows {
    if Updatable(rows, before, after) && fault != FailsBefore then
      rows[before.id := Updated(rows[before.id], after)]
    else rows
  }

  function AfterDelete(rows: Rows, before: Project, fault: Fault): Rows {
    if Deletable(rows, before) && fault != FailsBefore then rows - {before.id} else rows
  }

  /** The sqlite store over its one table. fault is what befalls the statement it issues. */
  class Store {
    var rows: Rows

    constructor ()
      ensures rows == map[]
    {
      rows := map[];
    }

    method GetProject(id: string, fault: Fault) returns (reply: Reply<Project>)
      ensures reply == if fault != Works then Failure
                       else if id in rows then Ok(rows[id]) else NotFound
    {
      if fault != Works {
        return Failure;
      }
      if id !in rows {
        return NotFound;
      }
      return Ok(rows[id]);
    }

    method InsertProject(p: Project, fault: Fault) returns (reply: Reply<()>)
      modifies this
      ensures rows == AfterInsert(old(rows), p, fault)
      ensures reply.Ok? <==> Insertable(old(rows), p) && fault == Works
      ensures fault == Works && !Insertable(old(rows), p) ==> reply == Conflict
    {
      if p.state != Creating || p.version != 1 || p.token == "" {
        return Conflict;
      }
      if fault == FailsBefore {
        return Failure;
      }
      var affected := 0;
      if p.id !in rows {
        rows, affected := rows[p.id := p], 1;
      }
      if fault == FailsAfter {
        return Failure;
      }
      return if affected == 1 then Ok(()) else Conflict;
    }

    method UpdateProject(before: Project, after: Project, fault: Fault) returns (reply: Reply<Project>)
      modifies this
      ensures rows == AfterUpdate(old(rows), before, after, fault)
      ensures reply.Ok? <==> Updatable(old(rows), before, after) && fault == Works
      ensures reply.Ok? ==> before.id in rows && reply.value == rows[before.id]
      ensures fault == Works && !Updatable(old(rows), before, after) ==> reply == Conflict
    {
      if after.id != before.id || after.kind != before.kind {
        return Conflict;
      }
      if fault == FailsBefore {
        return Failure;
      }
      var found := None;
      if before.id in rows {
        var row := rows[before.id];
        if row.version == before.version && row.state == before.state && row.token == before.token {
          row := row.(name := after.name, state := after.state, version := row.version + 1,
                      error := after.error, token := after.token);
          rows, found := rows[before.id := row], Some(row);
        }
      }
      if fault == FailsAfter {
        return Failure;
      }
      return if found.None? then Conflict else Ok(found.value);
    }

    method DeleteProject(before: Project, fault: Fault) returns (reply: Reply<()>)
      modifies this
      ensures rows == AfterDelete(old(rows), before, fault)
      ensures reply.Ok? <==> Deletable(old(rows), before) && fault == Works
      ensures fault == Works && !Deletable(old(rows), before) ==> reply == Conflict
    {
      if before.state != Creating && before.state != Deleting {
        return Conflict;
      }
      if before.version < 1 || before.token == "" {
        return Conflict;
      }
      if fault == FailsBefore {
        return Failure;
      }
      var affected := 0;
      if before.id in rows {
        var row := rows[before.id];
        if row.kind == before.kind && row.version == before.version && row.state == before.state
           && row.token == before.token {
          rows, affected := rows - {before.id}, 1;
        }
      }
      if fault == FailsAfter {
        return Failure;
      }
      return if affected == 1 then Ok(()) else Conflict;
    }
  }
}
