/** Every step of the project manager keeps the invariant. */
module ProjectSafety {
  import opened Wrappers
  import opened Projects
  import opened ProjectRuns

  // The store.

  /** No ABA: a snapshot taken at any time whose ID, version, state and token still match the
      stored row is that row, uncompared columns included. */
  lemma MatchIsIdentity(rows: Rows, log: set<Project>, tokens: set<string>, before: Project)
    requires LogGood(log, tokens) && RowsGood(rows, log) && before in log && Matches(rows, before)
    ensures rows[before.id] == before
  {
  }

  lemma UpdateKeepsLog(rows: Rows, log: set<Project>, tokens: set<string>, row: Project, later: Project)
    requires LogGood(log, tokens) && Latest(row, log)
    requires later.id == row.id && later.kind == row.kind && later.token == row.token
    requires later.version == row.version + 1
    requires later.state !in {Creating, Failed} && Stage(row.state) <= Stage(later.state)
    ensures LogGood(log + {later}, tokens) && Latest(later, log + {later}) && later !in log
  {
  }

  lemma UpdateKeepsRows(rows: Rows, log: set<Project>, id: string, later: Project)
    requires RowsGood(rows, log) && id in rows && later.id == id && later.token == rows[id].token
    requires Latest(later, log + {later})
    requires forall p <- log, q <- log :: Ordered(p, q)
    ensures RowsGood(rows[id := later], log + {later})
  {
  }

  lemma InsertKeepsStore(rows: Rows, log: set<Project>, tokens: set<string>, p: Project)
    requires LogGood(log, tokens) && RowsGood(rows, log) && Insertable(rows, p) && Sound(p, tokens)
    requires forall q <- log :: q.token != p.token
    ensures LogGood(log + {p}, tokens) && RowsGood(rows[p.id := p], log + {p})
  {
  }

  // Directories.

  lemma RowChangeKeepsDirectories(rows: Rows, directories: map<string, Directory>, id: string, row: Project)
    requires DirectoriesGood(rows, directories)
    requires DirectoryGood(rows[id := row], directories, id)
    ensures DirectoriesGood(rows[id := row], directories)
  {
    var changed := rows[id := row];
    forall other
      ensures DirectoryGood(changed, directories, other)
    {
      assert DirectoryGood(rows, directories, other);
    }
  }

  lemma RowRemovalKeepsDirectories(rows: Rows, directories: map<string, Directory>, id: string)
    requires DirectoriesGood(rows, directories)
    requires id in directories ==> directories[id].owner.None?
    ensures DirectoriesGood(rows - {id}, directories)
  {
    var changed := rows - {id};
    forall other
      ensures DirectoryGood(changed, directories, other)
    {
      assert DirectoryGood(rows, directories, other);
    }
  }

  ghost predicate SameElsewhere(before: map<string, Directory>, after: map<string, Directory>, id: string) {
    forall other: string :: other != id ==>
      (other in before <==> other in after) && (other in before ==> after[other] == before[other])
  }

  lemma DirectoryChangeKeepsOthers(rows: Rows, before: map<string, Directory>, after: map<string, Directory>,
                                   id: string)
    requires DirectoriesGood(rows, before) && DirectoryGood(rows, after, id)
    requires SameElsewhere(before, after, id)
    ensures DirectoriesGood(rows, after)
  {
    forall other
      ensures DirectoryGood(rows, after, other)
    {
      assert DirectoryGood(rows, before, other);
    }
  }

  // Calls.

  /** The row p is not in any other call's hands. */
  ghost predicate Alone(w: Workspace, c: nat, p: Project) {
    forall b <- w.calls :: b != c ==> Held(w.calls[b]) != Some(p) && w.calls[b] != Reporting(p)
  }

  lemma HolderIsAlone(w: Workspace, c: nat)
    requires CallsGood(w) && c in w.calls
    requires Held(w.calls[c]).Some?
    ensures Alone(w, c, Held(w.calls[c]).value)
  {
  }

  lemma SettledIsAlone(w: Workspace, c: nat, p: Project)
    requires CallsGood(w) && p.state !in {Creating, Deleting}
    ensures Alone(w, c, p)
  {
  }

  /** What another call relies on: its row, its directory, and the log. */
  lemma CallSurvives(w: Workspace, v: Workspace, call: Call)
    requires CallGood(w, call)
    requires w.log <= v.log && w.tokens <= v.tokens
    requires call.Inserting? ==> forall q <- v.log :: q.token != call.p.token
    requires Held(call).Some? ==>
               var p := Held(call).value;
               && p.id in v.rows && v.rows[p.id] == p
               && (p.id in v.directories <==> p.id in w.directories)
               && (p.id in v.directories ==> v.directories[p.id] == w.directories[p.id])
    requires call.Reporting? && call.d.id in v.rows && v.rows[call.d.id].token == call.d.token ==>
               v.rows[call.d.id] == call.d
    ensures CallGood(v, call)
  {
  }

  /** A call may take its next place when it keeps its claim or gives it up. */
  lemma CallMoves(w: Workspace, v: Workspace, c: nat, call: Call)
    requires CallsGood(w) && c in w.calls && v.calls == w.calls[c := call]
    requires CallGood(v, call)
    requires Claim(call).None? || Claim(call) == Claim(w.calls[c])
    requires forall b <- w.calls :: b != c ==> CallGood(v, w.calls[b])
    ensures CallsGood(v)
  {
  }

  /** Changing the row that c has alone, or that nobody has, disturbs no other call. */
  lemma OthersSurviveRow(w: Workspace, v: Workspace, c: nat, p: Project)
    requires Inv(w) && p.id in w.rows && w.rows[p.id] == p && Alone(w, c, p)
    requires v.directories == w.directories && v.tokens == w.tokens && w.log <= v.log
    requires forall q <- v.log - w.log :: q.token == p.token
    requires forall id <- w.rows :: id != p.id ==> id in v.rows && v.rows[id] == w.rows[id]
    requires forall id <- v.rows :: id != p.id ==> id in w.rows
    requires p.id in v.rows ==> v.rows[p.id].token == p.token
    ensures forall b <- w.calls :: b != c ==> CallGood(v, w.calls[b])
  {
    assert Latest(p, w.log);
    forall b <- w.calls | b != c
      ensures CallGood(v, w.calls[b])
    {
      var call := w.calls[b];
      assert CallGood(w, call);
      if call.Inserting? {
        forall q <- v.log
          ensures q.token != call.p.token
        {
          if q !in w.log {
            assert q in v.log - w.log;
          }
        }
      }
      CallSurvives(w, v, call);
    }
  }

  /** Changing the directory of a row that c holds disturbs no other call. */
  lemma OthersSurviveDirectory(w: Workspace, v: Workspace, c: nat, p: Project)
    requires Inv(w) && c in w.calls && Held(w.calls[c]) == Some(p)
    requires v.rows == w.rows && v.log == w.log && v.tokens == w.tokens
    requires SameElsewhere(w.directories, v.directories, p.id)
    ensures forall b <- w.calls :: b != c ==> CallGood(v, w.calls[b])
  {
    HolderIsAlone(w, c);
    assert CallGood(w, w.calls[c]);
    forall b <- w.calls | b != c
      ensures CallGood(v, w.calls[b])
    {
      assert CallGood(w, w.calls[b]);
      CallSurvives(w, v, w.calls[b]);
    }
  }

  // Each step.

  lemma StepKeepsInv(w: Workspace, step: Step, v: Workspace)
    requires Inv(w) && Steps(w, step, v)
    ensures Inv(v)
  {
    match step
    case BeginCreate(c, id, name, token) => BeginCreateKeepsInv(w, c, id, name, token);
    case BeginDelete(c, expected) => BeginKeepsInv(w, c, Claiming(expected));
    case BeginRename(c, id, name, version) => BeginKeepsInv(w, c, Fetching(id, name, version));
    case Advance(c, luck) => AdvanceKeepsInv(w, c, luck);
  }

  lemma BeginCreateKeepsInv(w: Workspace, c: nat, id: string, name: string, token: string)
    requires Inv(w) && Allowed(w, BeginCreate(c, id, name, token))
    ensures Inv(Set(w, c, Inserting(NewProject(id, name, token))).(tokens := w.tokens + {token}))
  {
    var v := Set(w, c, Inserting(NewProject(id, name, token))).(tokens := w.tokens + {token});
    forall p <- w.log
      ensures Sound(p, v.tokens) && p.token != token
    {
      assert Sound(p, w.tokens);
    }
    forall b <- w.calls
      ensures CallGood(v, w.calls[b]) && Claim(w.calls[b]) != Some((token, 1))
    {
      assert CallGood(w, w.calls[b]);
      CallSurvives(w, v, w.calls[b]);
      ClaimsDrawnToken(w, w.calls[b]);
    }
    assert CallGood(v, v.calls[c]);
  }

  lemma ClaimsDrawnToken(w: Workspace, call: Call)
    requires Inv(w) && CallGood(w, call)
    ensures Claim(call).Some? ==> Claim(call).value.0 in w.tokens
  {
  }

  lemma BeginKeepsInv(w: Workspace, c: nat, call: Call)
    requires Inv(w) && c !in w.calls && CallGood(w, call) && Claim(call).None? && Held(call).None?
    ensures Inv(Set(w, c, call))
  {
  }

  lemma AdvanceKeepsInv(w: Workspace, c: nat, luck: Luck)
    requires Inv(w) && Allowed(w, Advance(c, luck))
    ensures Inv(AfterAdvance(w, c, luck))
  {
    if Creates(w.calls[c]) {
      CreateKeepsInv(w, c, luck);
    } else {
      DeleteOrRenameKeepsInv(w, c, luck);
    }
  }

  predicate Creates(call: Call) {
    call.Inserting? || call.MakingDirectory? || call.Initializing? || call.Completing? || call.RollingBack?
    || call.CleaningUp? || call.Releasing?
  }

  lemma CreateKeepsInv(w: Workspace, c: nat, luck: Luck)
    requires Inv(w) && Allowed(w, Advance(c, luck)) && Creates(w.calls[c])
    ensures Inv(AfterAdvance(w, c, luck))
  {
    match w.calls[c]
    case Inserting(p) => InsertingKeepsInv(w, c, p, luck.fault);
    case MakingDirectory(p) => MakingKeepsInv(w, c, p, luck.fails);
    case Initializing(p) => InitializingKeepsInv(w, c, p, luck.fails);
    case Completing(p) => CompletingKeepsInv(w, c, p, luck.fault);
    case RollingBack(p, made) => RollingBackKeepsInv(w, c, p, made, luck.fault);
    case CleaningUp(p, made) => CleaningUpKeepsInv(w, c, p, made, luck.fails, luck.damages);
    case Releasing(p) => EraseKeepsInv(w, c, p, luck.fault, Finished(false));
  }

  lemma DeleteOrRenameKeepsInv(w: Workspace, c: nat, luck: Luck)
    requires Inv(w) && Allowed(w, Advance(c, luck)) && !Creates(w.calls[c])
    ensures Inv(AfterAdvance(w, c, luck))
  {
    match w.calls[c]
    case Claiming(expected) => ClaimingKeepsInv(w, c, expected, luck.fault);
    case Removing(d) => RemovingKeepsInv(w, c, d, luck.fails, luck.damages);
    case Erasing(d) =>
      EraseKeepsInv(w, c, d, luck.fault,
                    if Deletable(w.rows, d) && luck.fault == Works then Finished(true) else Reporting(d));
    case Reporting(d) => ReportingKeepsInv(w, c, d, luck.fault);
    case Fetching(id, name, version) => FetchingKeepsInv(w, c, id, name, version, luck.fault);
    case Renaming(p, next) => RenamingKeepsInv(w, c, p, next, luck.fault);
  }

  /** Steps that only move the call. */
  lemma MoveKeepsInv(w: Workspace, c: nat, call: Call)
    requires Inv(w) && c in w.calls && CallGood(w, call)
    requires Claim(call).None? || Claim(call) == Claim(w.calls[c])
    ensures Inv(Set(w, c, call))
  {
    var v := Set(w, c, call);
    forall b <- w.calls
      ensures CallGood(v, w.calls[b])
    {
      assert CallGood(w, w.calls[b]);
      CallSurvives(w, v, w.calls[b]);
    }
    CallSurvives(w, v, call);
    CallMoves(w, v, c, call);
  }

  lemma InsertingKeepsInv(w: Workspace, c: nat, p: Project, fault: Fault)
    requires Inv(w) && c in w.calls && w.calls[c] == Inserting(p)
    ensures Inv(AfterInserting(w, c, p, fault))
  {
    assert CallGood(w, w.calls[c]);
    if Insertable(w.rows, p) && fault != FailsBefore {
      InsertedKeepsInv(w, c, p, if fault == Works then MakingDirectory(p) else Finished(false));
    } else {
      assert p.id in w.rows ==> Latest(w.rows[p.id], w.log);
      assert Record(w, p.id, w.rows) == w;
      MoveKeepsInv(w, c, Finished(false));
    }
  }

  lemma InsertedKeepsInv(w: Workspace, c: nat, p: Project, call: Call)
    requires Inv(w) && c in w.calls && w.calls[c] == Inserting(p) && Insertable(w.rows, p)
    requires call in {MakingDirectory(p), Finished(false)}
    ensures Inv(Set(Record(w, p.id, w.rows[p.id := p]), c, call))
  {
    var v := Set(Record(w, p.id, w.rows[p.id := p]), c, call);
    assert CallGood(w, w.calls[c]);
    InsertKeepsStore(w.rows, w.log, w.tokens, p);
    assert DirectoryGood(w.rows, w.directories, p.id);
    RowChangeKeepsDirectories(w.rows, w.directories, p.id, p);
    forall b <- w.calls | b != c
      ensures CallGood(v, w.calls[b])
    {
      assert CallGood(w, w.calls[b]);
      assert Claim(w.calls[b]) != Claim(w.calls[c]);
      CallSurvives(w, v, w.calls[b]);
    }
    CallMoves(w, v, c, call);
  }

  lemma MakingKeepsInv(w: Workspace, c: nat, p: Project, fails: bool)
    requires Inv(w) && c in w.calls && w.calls[c] == MakingDirectory(p)
    ensures Inv(AfterMaking(w, c, p, fails))
  {
    assert CallGood(w, w.calls[c]);
    if fails || p.id in w.directories {
      MoveKeepsInv(w, c, RollingBack(p, false));
    } else {
      DirectoryStepKeepsInv(w, c, p, w.directories[p.id := Directory(Some(p.token), false)], Initializing(p));
    }
  }

  /** Steps that change the directory of a row the call holds. */
  lemma DirectoryStepKeepsInv(w: Workspace, c: nat, p: Project, directories: map<string, Directory>, call: Call)
    requires Inv(w) && c in w.calls && Held(w.calls[c]) == Some(p) && SameElsewhere(w.directories, directories, p.id)
    requires DirectoryGood(w.rows, directories, p.id)
    requires CallGood(w.(directories := directories), call)
    requires Claim(call).None? || Claim(call) == Claim(w.calls[c])
    ensures Inv(Set(w.(directories := directories), c, call))
  {
    var v := Set(w.(directories := directories), c, call);
    DirectoryChangeKeepsOthers(w.rows, w.directories, directories, p.id);
    OthersSurviveDirectory(w, v, c, p);
    CallSurvives(w.(directories := directories), v, call);
    CallMoves(w, v, c, call);
  }

  lemma InitializingKeepsInv(w: Workspace, c: nat, p: Project, fails: bool)
    requires Inv(w) && c in w.calls && w.calls[c] == Initializing(p)
    ensures Inv(AfterInitializing(w, c, p, fails))
  {
    assert CallGood(w, w.calls[c]);
    assert DirectoryGood(w.rows, w.directories, p.id);
    if fails {
      MoveKeepsInv(w, c, RollingBack(p, true));
    } else {
      DirectoryStepKeepsInv(w, c, p, w.directories[p.id := w.directories[p.id].(complete := true)], Completing(p));
    }
  }

  lemma CleaningUpKeepsInv(w: Workspace, c: nat, p: Project, made: bool, fails: bool, damages: bool)
    requires Inv(w) && c in w.calls && w.calls[c] == CleaningUp(p, made)
    ensures Inv(AfterCleaningUp(w, c, p, made, fails, damages))
  {
    assert CallGood(w, w.calls[c]);
    assert DirectoryGood(w.rows, w.directories, p.id);
    if !made {
      MoveKeepsInv(w, c, Releasing(p));
    } else if fails {
      DirectoryStepKeepsInv(w, c, p, Damage(w.directories, p.id, damages), Finished(false));
    } else {
      DirectoryStepKeepsInv(w, c, p, w.directories - {p.id}, Releasing(p));
    }
  }

  lemma RemovingKeepsInv(w: Workspace, c: nat, d: Project, fails: bool, damages: bool)
    requires Inv(w) && c in w.calls && w.calls[c] == Removing(d)
    ensures Inv(AfterRemoving(w, c, d, fails, damages))
  {
    assert CallGood(w, w.calls[c]);
    assert DirectoryGood(w.rows, w.directories, d.id);
    assert Latest(w.rows[d.id], w.log);
    if fails {
      DirectoryStepKeepsInv(w, c, d, Damage(w.directories, d.id, damages), Reporting(d));
    } else {
      DirectoryStepKeepsInv(w, c, d, w.directories - {d.id}, Erasing(d));
    }
  }

  /** The comparison of rollback never fails: nobody else can touch a creating row. */
  lemma RollingBackKeepsInv(w: Workspace, c: nat, p: Project, made: bool, fault: Fault)
    requires Inv(w) && c in w.calls && w.calls[c] == RollingBack(p, made)
    ensures Inv(AfterRollingBack(w, c, p, made, fault))
    ensures p.id in w.rows && w.rows[p.id] == p
  {
    assert CallGood(w, w.calls[c]);
    MoveKeepsInv(w, c, if fault == Works then CleaningUp(p, made) else Finished(false));
  }

  lemma FetchingKeepsInv(w: Workspace, c: nat, id: string, name: string, version: nat, fault: Fault)
    requires Inv(w) && c in w.calls && w.calls[c] == Fetching(id, name, version)
    ensures Inv(AfterFetching(w, c, id, name, version, fault))
  {
    if fault != Works || id !in w.rows || w.rows[id].version != version || w.rows[id].state in {Creating, Deleting} {
      MoveKeepsInv(w, c, Finished(false));
    } else {
      assert Latest(w.rows[id], w.log);
      MoveKeepsInv(w, c, Renaming(w.rows[id], w.rows[id].(name := name)));
    }
  }

  /** later may replace row: the next version, with the files its state asks for. */
  ghost predicate Follows(w: Workspace, row: Project, later: Project) {
    && row.id in w.rows && w.rows[row.id] == row
    && later.id == row.id && later.kind == row.kind && later.token == row.token && later.version == row.version + 1
    && later.state !in {Creating, Failed} && Stage(row.state) <= Stage(later.state)
    && (later.state == Ready ==>
          row.id in w.directories && w.directories[row.id] == Directory(Some(row.token), true))
    && (later.state in {Deleting, DeleteFailed} ==> row.state != Creating)
  }

  /** A stored row may be replaced by its next version. */
  lemma ReplaceKeepsInv(w: Workspace, c: nat, row: Project, later: Project, call: Call)
    requires Inv(w) && c in w.calls && Follows(w, row, later) && Alone(w, c, row)
    requires call.Finished? || (call == Removing(later) && later.state == Deleting)
    ensures Inv(Set(Record(w, row.id, w.rows[row.id := later]), c, call))
  {
    ReplaceKeepsStore(w, row, later);
    ReplaceKeepsCalls(w, c, row, later, call);
  }

  lemma ReplaceKeepsStore(w: Workspace, row: Project, later: Project)
    requires Inv(w) && Follows(w, row, later)
    ensures LogGood(w.log + {later}, w.tokens) && RowsGood(w.rows[row.id := later], w.log + {later})
    ensures DirectoriesGood(w.rows[row.id := later], w.directories)
  {
    assert Latest(row, w.log);
    UpdateKeepsLog(w.rows, w.log, w.tokens, row, later);
    UpdateKeepsRows(w.rows, w.log, row.id, later);
    assert DirectoryGood(w.rows, w.directories, row.id);
    RowChangeKeepsDirectories(w.rows, w.directories, row.id, later);
  }

  lemma ReplaceKeepsCalls(w: Workspace, c: nat, row: Project, later: Project, call: Call)
    requires Inv(w) && c in w.calls && Follows(w, row, later) && Alone(w, c, row)
    requires call.Finished? || (call == Removing(later) && later.state == Deleting)
    ensures CallsGood(Set(Record(w, row.id, w.rows[row.id := later]), c, call))
  {
    var v := Set(Record(w, row.id, w.rows[row.id := later]), c, call);
    ReplaceKeepsOthers(w, c, row, later, v);
    NobodyClaimsNext(w, row, later);
    assert CallGood(v, call);
  }

  lemma ReplaceKeepsOthers(w: Workspace, c: nat, row: Project, later: Project, v: Workspace)
    requires Inv(w) && Follows(w, row, later) && Alone(w, c, row)
    requires v.rows == w.rows[row.id := later] && v.log == w.log + {later}
    requires v.directories == w.directories && v.tokens == w.tokens
    ensures forall b <- w.calls :: b != c ==> CallGood(v, w.calls[b])
  {
    OthersSurviveRow(w, v, c, row);
  }

  lemma NobodyClaimsNext(w: Workspace, row: Project, later: Project)
    requires Inv(w) && Follows(w, row, later)
    ensures forall b <- w.calls :: Claim(w.calls[b]) != Some((later.token, later.version))
  {
    assert Latest(row, w.log);
    assert Sound(row, w.tokens);
    forall b <- w.calls
      ensures Claim(w.calls[b]) != Some((later.token, later.version))
    {
      assert CallGood(w, w.calls[b]);
      ClaimIsLogged(w, w.calls[b], later);
    }
  }

  /** No call claims a version that was not stored yet. */
  lemma ClaimIsLogged(w: Workspace, call: Call, later: Project)
    requires Inv(w) && CallGood(w, call) && later.version > 1
    requires forall p <- w.log :: p.token == later.token ==> p.version < later.version
    ensures Claim(call) != Some((later.token, later.version))
  {
  }

  lemma CompletingKeepsInv(w: Workspace, c: nat, p: Project, fault: Fault)
    requires Inv(w) && c in w.calls && w.calls[c] == Completing(p)
    ensures Inv(AfterCompleting(w, c, p, fault))
  {
    assert CallGood(w, w.calls[c]);
    HolderIsAlone(w, c);
    assert Latest(w.rows[p.id], w.log);
    UpdateStepKeepsInv(w, c, p, p.(state := Ready), fault, Finished(fault == Works));
  }

  /** A conditional update whose snapshot is in the log and matches changes exactly that row. */
  lemma UpdateStepKeepsInv(w: Workspace, c: nat, before: Project, after: Project, fault: Fault, call: Call)
    requires Inv(w) && c in w.calls && before in w.log
    requires after.id == before.id && after.kind == before.kind && after.token == before.token
    requires after.state !in {Creating, Failed} && Stage(before.state) <= Stage(after.state)
    requires after.state == Ready ==> before.id in w.directories
                                      && w.directories[before.id] == Directory(Some(before.token), true)
    requires Matches(w.rows, before) ==> Alone(w, c, before)
    requires after.state in {Deleting, DeleteFailed} ==> before.state != Creating
    requires call.Finished?
    ensures Inv(Set(Record(w, before.id, AfterUpdate(w.rows, before, after, fault)), c, call))
  {
    if Updatable(w.rows, before, after) && fault != FailsBefore {
      assert before.id in w.rows && Latest(w.rows[before.id], w.log);
      MatchIsIdentity(w.rows, w.log, w.tokens, before);
      ReplaceKeepsInv(w, c, before, Updated(before, after), call);
    } else {
      assert before.id in w.rows ==> Latest(w.rows[before.id], w.log);
      assert Record(w, before.id, w.rows) == w;
      MoveKeepsInv(w, c, call);
    }
  }

  lemma ClaimingKeepsInv(w: Workspace, c: nat, expected: Project, fault: Fault)
    requires Inv(w) && c in w.calls && w.calls[c] == Claiming(expected)
    ensures Inv(AfterClaiming(w, c, expected, fault))
  {
    assert CallGood(w, w.calls[c]);
    if expected.state !in {Ready, Failed, DeleteFailed} {
      MoveKeepsInv(w, c, Finished(false));
    } else {
      SettledIsAlone(w, c, expected);
      if Updatable(w.rows, expected, Claimed(expected)) && fault == Works {
        ClaimKeepsInv(w, c, expected);
      } else {
        UpdateStepKeepsInv(w, c, expected, Claimed(expected), fault, Finished(false));
      }
    }
  }

  lemma ClaimKeepsInv(w: Workspace, c: nat, expected: Project)
    requires Inv(w) && c in w.calls && w.calls[c] == Claiming(expected) && Alone(w, c, expected)
    requires expected.state in {Ready, Failed, DeleteFailed} && Updatable(w.rows, expected, Claimed(expected))
    ensures Inv(AfterClaiming(w, c, expected, Works))
  {
    assert CallGood(w, w.calls[c]);
    MatchIsIdentity(w.rows, w.log, w.tokens, expected);
    var later := Updated(expected, Claimed(expected));
    ReplaceKeepsInv(w, c, expected, later, Removing(later));
  }

  lemma ReportingKeepsInv(w: Workspace, c: nat, d: Project, fault: Fault)
    requires Inv(w) && c in w.calls && w.calls[c] == Reporting(d)
    ensures Inv(AfterReporting(w, c, d, fault))
  {
    assert CallGood(w, w.calls[c]);
    forall b <- w.calls | b != c
      ensures Held(w.calls[b]) != Some(d) && w.calls[b] != Reporting(d)
    {
      assert Claim(w.calls[b]) != Claim(w.calls[c]);
      assert CallGood(w, w.calls[b]);
    }
    UpdateStepKeepsInv(w, c, d, d.(state := DeleteFailed, error := DELETION_FAILED), fault, Finished(false));
  }

  lemma RenamingKeepsInv(w: Workspace, c: nat, p: Project, next: Project, fault: Fault)
    requires Inv(w) && c in w.calls && w.calls[c] == Renaming(p, next)
    ensures Inv(AfterRenaming(w, c, p, next, fault))
  {
    assert CallGood(w, w.calls[c]);
    if Matches(w.rows, p) {
      NameChangeKeepsInv(w, c, p, next, fault);
    } else {
      StaleRenameKeepsInv(w, c, p);
    }
  }

  lemma NameChangeKeepsInv(w: Workspace, c: nat, p: Project, next: Project, fault: Fault)
    requires Inv(w) && c in w.calls && p in w.log && Matches(w.rows, p)
    requires p.state !in {Creating, Deleting} && next == p.(name := next.name)
    ensures Inv(AfterRenaming(w, c, p, next, fault))
  {
    assert Sound(p, w.tokens);
    SettledIsAlone(w, c, p);
    MatchIsIdentity(w.rows, w.log, w.tokens, p);
    assert DirectoryGood(w.rows, w.directories, p.id);
    UpdateStepKeepsInv(w, c, p, next, fault, Finished(Updatable(w.rows, p, next) && fault == Works));
  }

  lemma StaleRenameKeepsInv(w: Workspace, c: nat, p: Project)
    requires Inv(w) && c in w.calls
    ensures Inv(Set(Record(w, p.id, w.rows), c, Finished(false)))
  {
    assert p.id in w.rows ==> Latest(w.rows[p.id], w.log);
    assert Record(w, p.id, w.rows) == w;
    MoveKeepsInv(w, c, Finished(false));
  }

  /** The last statement of Create's rollback and of Delete: the row goes, its files are gone. */
  lemma EraseKeepsInv(w: Workspace, c: nat, p: Project, fault: Fault, call: Call)
    requires Inv(w) && c in w.calls && w.calls[c] in {Releasing(p), Erasing(p)}
    requires call.Finished? || (call == Reporting(p) && w.calls[c] == Erasing(p))
    ensures Inv(Set(Record(w, p.id, AfterDelete(w.rows, p, fault)), c, call))
  {
    assert CallGood(w, w.calls[c]);
    assert Latest(w.rows[p.id], w.log);
    if Deletable(w.rows, p) && fault != FailsBefore {
      RowGoes(w, c, p, call);
    } else {
      assert Record(w, p.id, w.rows) == w;
      MoveKeepsInv(w, c, call);
    }
  }

  lemma RowGoes(w: Workspace, c: nat, p: Project, call: Call)
    requires Inv(w) && c in w.calls && w.calls[c] in {Releasing(p), Erasing(p)}
    requires call.Finished? || (call == Reporting(p) && w.calls[c] == Erasing(p))
    ensures Inv(Set(Record(w, p.id, w.rows - {p.id}), c, call))
  {
    assert CallGood(w, w.calls[c]);
    assert DirectoryGood(w.rows, w.directories, p.id);
    RowRemovalKeepsDirectories(w.rows, w.directories, p.id);
    RowGoesFromCalls(w, c, p, call);
  }

  lemma RowGoesFromCalls(w: Workspace, c: nat, p: Project, call: Call)
    requires Inv(w) && c in w.calls && w.calls[c] in {Releasing(p), Erasing(p)}
    requires call.Finished? || (call == Reporting(p) && w.calls[c] == Erasing(p))
    ensures CallsGood(Set(Record(w, p.id, w.rows - {p.id}), c, call))
  {
    var v := Set(Record(w, p.id, w.rows - {p.id}), c, call);
    RowGoesFromOthers(w, c, p, v);
    GoneRowIsReported(w, c, p, v, call);
    CallMoves(w, v, c, call);
  }

  lemma RowGoesFromOthers(w: Workspace, c: nat, p: Project, v: Workspace)
    requires Inv(w) && c in w.calls && Held(w.calls[c]) == Some(p)
    requires v.rows == w.rows - {p.id} && v.log == w.log
    requires v.directories == w.directories && v.tokens == w.tokens
    ensures forall b <- w.calls :: b != c ==> CallGood(v, w.calls[b])
  {
    assert CallGood(w, w.calls[c]);
    HolderIsAlone(w, c);
    OthersSurviveRow(w, v, c, p);
  }

  lemma GoneRowIsReported(w: Workspace, c: nat, p: Project, v: Workspace, call: Call)
    requires RowsGood(w.rows, w.log) && c in w.calls && CallGood(w, w.calls[c])
    requires w.calls[c] in {Releasing(p), Erasing(p)}
    requires call.Finished? || (call == Reporting(p) && w.calls[c] == Erasing(p))
    requires v.rows == w.rows - {p.id} && v.log == w.log
    ensures CallGood(v, call)
  {
    assert Latest(w.rows[p.id], w.log);
  }
}
